/**
 * The client's turn stream feeding the translator: what the UI sees for the
 * events the client makes up itself, and for the last event of each way a turn
 * stream can end.
 */
module TurnPipeline {
  import opened Wrappers
  import opened Json
  import opened AguiTranslate
  import opened AppServerClient

  /** The app-server closing during a turn reaches the UI as an error delta, an error event, then done. */
  lemma ClosedEventTranslation(responseId: string, reasoningId: string, open: bool)
    ensures Translate(ClosedEvent, responseId, reasoningId, open)
         == Step([ErrorDelta(responseId, Str("App-server closed")),
                  ErrorEvent(responseId, Str("App-server closed"), Empty),
                  DoneDelta(responseId)], open)
  {
    assert Get(ClosedEvent, "type") == Some(Str("error"));
    assert Get(ClosedEvent, "message") == Some(Str("App-server closed"));
  }

  /** A rejected turn/start reaches the UI as an error carrying `str()` of the error, then done. */
  lemma StartErrorTranslation(error: Json, responseId: string, reasoningId: string, open: bool)
    ensures Translate(StartErrorEvent(error), responseId, reasoningId, open)
         == Step([ErrorDelta(responseId, Str(Show(error))),
                  ErrorEvent(responseId, Str(Show(error)), Empty),
                  DoneDelta(responseId)], open)
  {
    var event := StartErrorEvent(error);
    LookupSingle(event.fields, 0);
    LookupSingle(event.fields, 1);
    assert Get(event, "type") == Some(Str("error"));
    assert Get(event, "error") == Some(error);
    assert !Has(event, "message");
  }

  /** The synthetic `turn.started` event produces no UI event. */
  lemma TurnStartedTranslation(response: Json, responseId: string, reasoningId: string, open: bool)
    ensures Translate(TurnStartedEvent(response), responseId, reasoningId, open) == Step([], open)
  {
    var event := TurnStartedEvent(response);
    LookupSingle(event.fields, 0);
    assert Get(event, "type") == Some(Str("turn.started"));
  }

  /** A turn stream that ends because the output closed ends with the closed event, which translates to events ending in done. */
  lemma ClosedStreamReachesDone(lines: seq<Line>, from: nat, id: int, responseId: string, reasoningId: string, open: bool)
    requires from <= |lines|
    requires TurnStream(lines, from, id).end == Closed
    ensures var run := TurnStream(lines, from, id);
      && |run.yielded| >= 1 && run.yielded[|run.yielded| - 1] == ClosedEvent
      && Translate(ClosedEvent, responseId, reasoningId, open).events[2] == DoneDelta(responseId)
  {
    TurnStreamLineByLine(lines, from, id);
    ClosedEventTranslation(responseId, reasoningId, open);
  }

  /**
   * A turn stream that ends because turn/start was rejected ends with an event
   * that translates to an error delta and an error event carrying `str()` of the
   * response's error, then done.
   */
  lemma StartFailedStreamReachesDone(lines: seq<Line>, from: nat, id: int, responseId: string, reasoningId: string, open: bool)
    requires from <= |lines|
    requires TurnStream(lines, from, id).end == StartFailed
    ensures var run := TurnStream(lines, from, id);
      && from < run.next && lines[run.next - 1].Parsed? && |run.yielded| >= 1
      && var message := Str(Show(GetOrNull(lines[run.next - 1].value, "error")));
      && Translate(run.yielded[|run.yielded| - 1], responseId, reasoningId, open).events
         == [ErrorDelta(responseId, message), ErrorEvent(responseId, message, Empty), DoneDelta(responseId)]
  {
    var run := TurnStream(lines, from, id);
    StartErrorEndsStream(lines, from, id);
    StartErrorTranslation(GetOrNull(lines[run.next - 1].value, "error"), responseId, reasoningId, open);
  }

  /**
   * A turn stream that ends at a completed turn ends with the turn/completed
   * notification; unless that notification is itself shaped like a request from
   * the agent (an id and no result), it translates to events ending in done.
   */
  lemma CompletedStreamReachesDone(lines: seq<Line>, from: nat, id: int, responseId: string, reasoningId: string, open: bool)
    requires from <= |lines|
    requires TurnStream(lines, from, id).end == Completed
    ensures var run := TurnStream(lines, from, id);
      && |run.yielded| >= 1
      && var last := run.yielded[|run.yielded| - 1];
      && IsTurnCompleted(last)
      && (!IsServerRequest(last) ==>
            var step := Translate(last, responseId, reasoningId, open);
            |step.events| >= 1 && step.events[|step.events| - 1] == DoneDelta(responseId))
  {
    var run := TurnStream(lines, from, id);
    StopsAfterTurnCompleted(lines, from, id);
    var last := run.yielded[|run.yielded| - 1];
    if !IsServerRequest(last) {
      assert Has(last, "method");
      KindOfMethod(last, "turn/completed");
      TurnCompletedEndsWithDone(last, responseId, reasoningId, open);
    }
  }
}
