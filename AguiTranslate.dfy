/**
 * Translation of one agent notification into zero or more UI events, with the
 * one piece of per-turn state the translation keeps: whether a reasoning phase
 * is open.
 */
module AguiTranslate {
  import opened Wrappers
  import opened Json
  import opened ToolItems

  /**
   * UI events; event ids and timestamps are left out. A `Payload` field holds the
   * value whose rendering (the value itself, or its `json.dumps`) the event carries.
   */
  datatype UiEvent =
    | TextDelta(responseId: string, text: Json)
    | ErrorDelta(responseId: string, message: Json)
    | DoneDelta(responseId: string)
    | UsageDelta(responseId: string, usage: Json)
    | ToolCallDelta(responseId: string, callId: ItemRef, name: Json, args: Payload)
    | ToolCallStart(callId: ItemRef, name: Json, parentMessageId: string)
    | ToolCallArgs(callId: ItemRef, delta: Payload, arguments: Json)
    | ToolCallsBatch(runId: string, callId: ItemRef, name: Json, args: Payload)
    | ToolResultDelta(responseId: string, callId: ItemRef, name: Json, output: Payload)
    | ToolResultsBatch(runId: string, callId: ItemRef, name: Json, output: Payload)
    | ToolCallEnd(callId: ItemRef, status: Json, result: Payload)
    | ErrorEvent(runId: string, error: Json, details: Json)
    | ReasoningStart(reasoningId: string)
    | ReasoningContent(reasoningId: string, content: Json)
    | ReasoningEnd(reasoningId: string, conclusion: string, success: bool)

  /** The events one notification translates to, and whether reasoning is open afterwards. */
  datatype Step = Step(events: seq<UiEvent>, open: bool)

  /**
   * How `translate_event` classifies a notification; the order of its tests
   * decides: no "method" first, then a request from the agent, then the method.
   */
  datatype Kind =
    | Synthetic
    | ServerRequest
    | AgentMessageDelta
    | ItemStarted
    | ItemCompleted
    | OutputDelta
    | SummaryTextDelta
    | ErrorNotification
    | TokenUsage
    | TurnCompleted
    | Unmapped

  /** Notification methods that are recognised and produce nothing. */
  const IgnoredMethods: set<string> := {
    "turn/diff/updated", "turn/plan/updated", "thread/name/updated", "turn/started",
    "item/reasoning/textDelta", "item/reasoning/summaryPartAdded", "item/plan/delta",
    "item/mcpToolCall/progress"}

  /** Methods that are handled by a translation rule of their own. */
  const MappedMethods: set<string> := {
    "item/agentMessage/delta", "item/started", "item/completed",
    "item/commandExecution/outputDelta", "item/fileChange/outputDelta",
    "item/reasoning/summaryTextDelta", "error", "thread/tokenUsage/updated", "turn/completed"}

  /** `event.get("method", "")`. */
  function MethodOf(event: Json): Json
  {
    GetOr(event, "method", Str(""))
  }

  predicate IsMethod(event: Json, m: string)
  {
    MethodOf(event) == Str(m)
  }

  /** A synthetic event made by the client itself: it has no "method". */
  predicate IsSynthetic(event: Json)
  {
    !Has(event, "method")
  }

  /** A request from the agent (an approval prompt): it has an id but no result. */
  predicate IsServerRequest(event: Json)
  {
    Has(event, "method") && Has(event, "id") && !Has(event, "result")
  }

  /** The rule a method name selects. */
  function MethodKind(m: string): (k: Kind)
    ensures k != Synthetic && k != ServerRequest
    ensures k != Unmapped <==> m in MappedMethods
  {
    if m == "item/agentMessage/delta" then AgentMessageDelta
    else if m == "item/started" then ItemStarted
    else if m == "item/completed" then ItemCompleted
    else if m == "item/commandExecution/outputDelta" || m == "item/fileChange/outputDelta" then OutputDelta
    else if m == "item/reasoning/summaryTextDelta" then SummaryTextDelta
    else if m == "error" then ErrorNotification
    else if m == "thread/tokenUsage/updated" then TokenUsage
    else if m == "turn/completed" then TurnCompleted
    else Unmapped
  }

  function KindOf(event: Json): Kind
  {
    if IsSynthetic(event) then Synthetic
    else if IsServerRequest(event) then ServerRequest
    else if MethodOf(event).Str? then MethodKind(MethodOf(event).s)
    else Unmapped
  }

  /** A notification that is neither synthetic nor a request is handled by the rule its method selects. */
  lemma KindOfMethod(event: Json, m: string)
    requires !IsSynthetic(event) && !IsServerRequest(event) && IsMethod(event, m)
    ensures KindOf(event) == MethodKind(m)
  {
  }

  /** Every ignored method selects no rule. */
  lemma IgnoredMethodsAreUnmapped(m: string)
    requires m in IgnoredMethods
    ensures MethodKind(m) == Unmapped
  {
  }

  function Params(event: Json): Json
  {
    GetOr(event, "params", Empty)
  }

  function EventItem(event: Json): Json
  {
    GetOr(Params(event), "item", Empty)
  }

  /** The message of a synthetic error: its "message" if truthy, else `str()` of its "error". */
  function SyntheticErrorMessage(event: Json): Json
  {
    Or(GetOrNull(event, "message"), Str(Show(GetOr(event, "error", Str("Unknown error")))))
  }

  /** An error notification the agent will retry: "willRetry", or else "will_retry", is truthy. */
  predicate WillRetry(params: Json)
  {
    Truthy(GetOr(params, "willRetry", GetOr(params, "will_retry", Bool(false))))
  }

  /** The status of a completed turn, "completed" when absent. */
  function TurnStatus(params: Json): Json
  {
    GetOr(GetOr(params, "turn", Empty), "status", Str("completed"))
  }

  function ToolStartedEvents(item: Json, responseId: string): seq<UiEvent>
  {
    var args := Encoded(ToolArgs(item));
    [ToolCallDelta(responseId, ToolCallId(item), NormalizeToolName(item), args),
     ToolCallStart(ToolCallId(item), NormalizeToolName(item), responseId),
     ToolCallArgs(ToolCallId(item), args, ToolArgs(item)),
     ToolCallsBatch(responseId, ToolCallId(item), NormalizeToolName(item), args)]
  }

  function ToolCompletedEvents(item: Json, responseId: string): seq<UiEvent>
  {
    [ToolResultDelta(responseId, ToolCallId(item), NormalizeToolName(item), ToolResult(item)),
     ToolResultsBatch(responseId, ToolCallId(item), NormalizeToolName(item), ToolResult(item)),
     ToolCallEnd(ToolCallId(item), GetOr(item, "status", Str("completed")), ToolResult(item))]
  }

  /** A synthetic event: an error yields error delta, error event and done; anything else nothing. */
  function TranslateSynthetic(event: Json, responseId: string): seq<UiEvent>
  {
    var eventType := GetOr(event, "type", Str(""));
    if eventType == Str("turn.started") then []
    else if eventType == Str("error") then
      var msg := SyntheticErrorMessage(event);
      [ErrorDelta(responseId, msg), ErrorEvent(responseId, msg, Empty), DoneDelta(responseId)]
    else []
  }

  function TranslateItemStarted(item: Json, responseId: string, reasoningId: string, open: bool): Step
  {
    if IsToolItem(item) then Step(ToolStartedEvents(item, responseId), open)
    else if Get(item, "type") == Some(Str("reasoning")) && !open then Step([ReasoningStart(reasoningId)], true)
    else Step([], open)
  }

  function TranslateItemCompleted(item: Json, responseId: string, reasoningId: string, open: bool): Step
  {
    if IsToolItem(item) then Step(ToolCompletedEvents(item, responseId), open)
    else if Get(item, "type") == Some(Str("reasoning")) && open then
      Step([ReasoningEnd(reasoningId, "Reasoning completed", true)], false)
    else Step([], open)
  }

  function TranslateSummaryDelta(params: Json, reasoningId: string, open: bool): Step
  {
    var content := ReasoningContent(reasoningId, GetOr(params, "delta", Str("")));
    if !open then Step([ReasoningStart(reasoningId), content], true)
    else Step([content], true)
  }

  function TranslateError(params: Json, responseId: string): seq<UiEvent>
  {
    if WillRetry(params) then []
    else
      var error := GetOr(params, "error", Empty);
      var msg := GetOr(error, "message", Str("Unknown error"));
      [ErrorDelta(responseId, msg), ErrorEvent(responseId, msg, Or(error, Empty))]
  }

  function TranslateTurnCompleted(params: Json, responseId: string): seq<UiEvent>
  {
    if TurnStatus(params) == Str("failed") then
      var error := GetOr(GetOr(params, "turn", Empty), "error", Empty);
      [ErrorDelta(responseId, GetOr(error, "message", Str("Turn failed"))), DoneDelta(responseId)]
    else [DoneDelta(responseId)]
  }

  /** The translation of one notification, given whether reasoning is open before it. */
  function Translate(event: Json, responseId: string, reasoningId: string, open: bool): Step
  {
    var params := Params(event);
    match KindOf(event)
    case Synthetic => Step(TranslateSynthetic(event, responseId), open)
    case ServerRequest => Step([], open)
    case AgentMessageDelta => Step([TextDelta(responseId, GetOr(params, "delta", Str("")))], open)
    case ItemStarted => TranslateItemStarted(EventItem(event), responseId, reasoningId, open)
    case ItemCompleted => TranslateItemCompleted(EventItem(event), responseId, reasoningId, open)
    case OutputDelta =>
      Step([ToolCallArgs(Given(GetOr(params, "itemId", Str(""))), Raw(GetOr(params, "delta", Str(""))), Empty)], open)
    case SummaryTextDelta => TranslateSummaryDelta(params, reasoningId, open)
    case ErrorNotification => Step(TranslateError(params, responseId), open)
    case TokenUsage => Step([UsageDelta(responseId, params)], open)
    case TurnCompleted => Step(TranslateTurnCompleted(params, responseId), open)
    case Unmapped => Step([], open)  // the ignored methods and any unknown method
  }

  /**
   * The caller's per-turn state dictionary; `reasoningStarted` is the only key
   * the translation writes.
   */
  class TurnState {
    var reasoningStarted: bool

    constructor ()
      ensures !reasoningStarted
    {
      reasoningStarted := false;
    }

    /** translate_event: the events for `event`, updating the reasoning flag in place. */
    method TranslateEvent(event: Json, responseId: string, reasoningId: string) returns (events: seq<UiEvent>)
      modifies this
      ensures var step := Translate(event, responseId, reasoningId, old(reasoningStarted));
        events == step.events && reasoningStarted == step.open
    {
      var step := Translate(event, responseId, reasoningId, reasoningStarted);
      reasoningStarted := step.open;
      events := step.events;
    }
  }

  // ---------------------------------------------------------------------------
  // Properties of one translation step
  // ---------------------------------------------------------------------------

  /** A synthetic error yields error delta, error event and done, in that order; "turn.started" yields nothing. */
  lemma SyntheticEvents(event: Json, responseId: string, reasoningId: string, open: bool)
    requires IsSynthetic(event)
    ensures var step := Translate(event, responseId, reasoningId, open);
      && step.open == open
      && (GetOr(event, "type", Str("")) == Str("error") ==>
            && |step.events| == 3
            && step.events[0].ErrorDelta? && step.events[1].ErrorEvent?
            && step.events[0].message == step.events[1].error == SyntheticErrorMessage(event)
            && step.events[2] == DoneDelta(responseId))
      && (GetOr(event, "type", Str("")) != Str("error") ==> step.events == [])
  {
  }

  /** A request from the agent (an approval) is flagged but produces nothing and leaves the state alone. */
  lemma ServerRequestYieldsNothing(event: Json, responseId: string, reasoningId: string, open: bool)
    requires IsServerRequest(event)
    ensures Translate(event, responseId, reasoningId, open) == Step([], open)
  {
  }

  predicate IsReasoningItem(event: Json)
  {
    Get(EventItem(event), "type") == Some(Str("reasoning"))
  }

  /**
   * A reasoning item that starts opens the phase with one REASONING_START only when it
   * is closed; a reasoning item that completes closes it with one REASONING_END only when
   * it is open. Otherwise nothing is emitted and the state stays.
   */
  lemma ReasoningItemTransitions(event: Json, responseId: string, reasoningId: string, open: bool)
    requires IsReasoningItem(event)
    ensures KindOf(event) == ItemStarted ==>
      Translate(event, responseId, reasoningId, open) ==
        if open then Step([], true) else Step([ReasoningStart(reasoningId)], true)
    ensures KindOf(event) == ItemCompleted ==>
      Translate(event, responseId, reasoningId, open) ==
        if open then Step([ReasoningEnd(reasoningId, "Reasoning completed", true)], false) else Step([], false)
  {
    assert !IsToolItem(EventItem(event));
  }

  /** A summary delta always leaves reasoning open, emitting the start first only when it was closed. */
  lemma SummaryDeltaOpensReasoning(event: Json, responseId: string, reasoningId: string, open: bool)
    requires KindOf(event) == SummaryTextDelta
    ensures var step := Translate(event, responseId, reasoningId, open);
      var content := ReasoningContent(reasoningId, GetOr(Params(event), "delta", Str("")));
      && step.open
      && step.events == (if open then [content] else [ReasoningStart(reasoningId), content])
  {
  }

  /**
   * Text deltas, tool output deltas and token usage updates each become exactly
   * one event carrying the notification's payload, and leave the state alone.
   */
  lemma SingleEventMethods(event: Json, responseId: string, reasoningId: string, open: bool)
    ensures var step := Translate(event, responseId, reasoningId, open);
      var params := Params(event);
      && (KindOf(event) == AgentMessageDelta ==>
            step == Step([TextDelta(responseId, GetOr(params, "delta", Str("")))], open))
      && (KindOf(event) == OutputDelta ==>
            step.open == open && |step.events| == 1 && step.events[0].ToolCallArgs?
            && step.events[0].callId == Given(GetOr(params, "itemId", Str("")))
            && step.events[0].delta.Render() == GetOr(params, "delta", Str(""))
            && step.events[0].arguments == Empty)
      && (KindOf(event) == TokenUsage ==> step == Step([UsageDelta(responseId, params)], open))
  {
  }

  /**
   * The four events of a started tool call (delta, start, args, batch): all for
   * the item's call id, the three named ones under the item's tool name, and
   * all carrying the same argument payload, the dump of the item's arguments.
   */
  predicate ToolStartPattern(events: seq<UiEvent>, item: Json)
  {
    && |events| == 4
    && events[0].ToolCallDelta? && events[1].ToolCallStart?
    && events[2].ToolCallArgs? && events[3].ToolCallsBatch?
    && events[0].args == events[2].delta == events[3].args
    && events[0].args.Render() == Str(ExtractToolArgs(item))
    && events[2].arguments == ToolArgs(item)
    && events[0].name == events[1].name == events[3].name == NormalizeToolName(item)
    && (forall k | 0 <= k < 4 :: events[k].callId == ToolCallId(item))
  }

  /**
   * The three events of a completed tool call (result delta, results batch,
   * end): all for the item's call id, and all carrying the item's result.
   */
  predicate ToolEndPattern(events: seq<UiEvent>, item: Json)
  {
    && |events| == 3
    && events[0].ToolResultDelta? && events[1].ToolResultsBatch? && events[2].ToolCallEnd?
    && events[0].output == events[1].output == events[2].result
    && events[0].output.Render() == ExtractToolResult(item)
    && events[0].name == events[1].name == NormalizeToolName(item)
    && (forall k | 0 <= k < 3 :: events[k].callId == ToolCallId(item))
  }

  lemma ToolStartedEventsPattern(item: Json, responseId: string)
    ensures ToolStartPattern(ToolStartedEvents(item, responseId), item)
  {
  }

  lemma ToolCompletedEventsPattern(item: Json, responseId: string)
    ensures ToolEndPattern(ToolCompletedEvents(item, responseId), item)
  {
  }

  /**
   * A tool item yields the four start events when it starts and the three end
   * events when it completes, and does not touch the reasoning state.
   */
  lemma ToolItemEvents(event: Json, responseId: string, reasoningId: string, open: bool)
    requires IsToolItem(EventItem(event))
    ensures var step := Translate(event, responseId, reasoningId, open);
      && (KindOf(event) == ItemStarted ==> step.open == open && ToolStartPattern(step.events, EventItem(event)))
      && (KindOf(event) == ItemCompleted ==> step.open == open && ToolEndPattern(step.events, EventItem(event)))
  {
    ToolStartedEventsPattern(EventItem(event), responseId);
    ToolCompletedEventsPattern(EventItem(event), responseId);
  }

  /** A retried error is swallowed; any other error notification yields error delta then error event, and no done. */
  lemma ErrorNotificationEvents(event: Json, responseId: string, reasoningId: string, open: bool)
    requires KindOf(event) == ErrorNotification
    ensures var step := Translate(event, responseId, reasoningId, open);
      && step.open == open
      && (WillRetry(Params(event)) ==> step.events == [])
      && (!WillRetry(Params(event)) ==>
            && |step.events| == 2 && step.events[0].ErrorDelta? && step.events[1].ErrorEvent?
            && step.events[0].message == step.events[1].error
            && DoneDelta(responseId) !in step.events)
  {
  }

  /** "willRetry" decides when present; "will_retry" is consulted only in its absence. */
  lemma WillRetryPrecedence(params: Json)
    ensures Has(params, "willRetry") ==> (WillRetry(params) <==> Truthy(GetOrNull(params, "willRetry")))
    ensures !Has(params, "willRetry") ==> (WillRetry(params) <==> Truthy(GetOr(params, "will_retry", Bool(false))))
  {
  }

  /** A completed turn ends with done, preceded by an error delta exactly when its status is "failed". */
  lemma TurnCompletedEndsWithDone(event: Json, responseId: string, reasoningId: string, open: bool)
    requires KindOf(event) == TurnCompleted
    ensures var step := Translate(event, responseId, reasoningId, open);
      && step.open == open
      && 1 <= |step.events| <= 2 && step.events[|step.events| - 1] == DoneDelta(responseId)
      && (|step.events| == 2 <==> TurnStatus(Params(event)) == Str("failed"))
      && (|step.events| == 2 ==> step.events[0].ErrorDelta?)
  {
  }

  /** Ignored and unknown methods yield nothing and leave the state alone. */
  lemma UnmappedMethodYieldsNothing(event: Json, responseId: string, reasoningId: string, open: bool)
    requires !IsSynthetic(event) && !IsServerRequest(event)
    requires !(MethodOf(event).Str? && MethodOf(event).s in MappedMethods)
    ensures Translate(event, responseId, reasoningId, open) == Step([], open)
  {
  }

  /**
   * The reasoning flag is the only state, and it changes only on a reasoning item
   * that starts or completes, or on a summary delta.
   */
  lemma StateChangesOnlyOnReasoning(event: Json, responseId: string, reasoningId: string, open: bool)
    ensures var step := Translate(event, responseId, reasoningId, open);
      step.open != open ==>
        if open then KindOf(event) == ItemCompleted && IsReasoningItem(event)
        else (KindOf(event) == ItemStarted && IsReasoningItem(event)) || KindOf(event) == SummaryTextDelta
  {
  }

  /**
   * Done is emitted only by a synthetic error or a completed turn, and only as the
   * last event of the step.
   */
  lemma DoneOnlyAtTheEnd(event: Json, responseId: string, reasoningId: string, open: bool)
    ensures var step := Translate(event, responseId, reasoningId, open);
      forall i :: 0 <= i < |step.events| && step.events[i].DoneDelta? ==>
        && i == |step.events| - 1
        && ((KindOf(event) == Synthetic && GetOr(event, "type", Str("")) == Str("error"))
            || KindOf(event) == TurnCompleted)
  {
    match KindOf(event)
    case Synthetic => SyntheticEvents(event, responseId, reasoningId, open);
    case TurnCompleted => TurnCompletedEndsWithDone(event, responseId, reasoningId, open);
    case ItemStarted => ItemStepHasNoDone(event, responseId, reasoningId, open);
    case ItemCompleted => ItemStepHasNoDone(event, responseId, reasoningId, open);
    case _ => PlainStepHasNoDone(event, responseId, reasoningId, open);
  }

  lemma ItemStepHasNoDone(event: Json, responseId: string, reasoningId: string, open: bool)
    requires KindOf(event) == ItemStarted || KindOf(event) == ItemCompleted
    ensures var step := Translate(event, responseId, reasoningId, open);
      forall i :: 0 <= i < |step.events| ==> !step.events[i].DoneDelta?
  {
    var step := Translate(event, responseId, reasoningId, open);
    if KindOf(event) == ItemStarted {
      assert step == TranslateItemStarted(EventItem(event), responseId, reasoningId, open);
      StartedItemShape(EventItem(event), responseId, reasoningId, open);
    } else {
      assert step == TranslateItemCompleted(EventItem(event), responseId, reasoningId, open);
      CompletedItemShape(EventItem(event), responseId, reasoningId, open);
    }
  }

  /** A started item emits its tool events, or one reasoning start that opens the phase, or nothing; never done. */
  lemma StartedItemShape(item: Json, responseId: string, reasoningId: string, open: bool)
    ensures var step := TranslateItemStarted(item, responseId, reasoningId, open);
      && Marks(step.events) == (if step.open == open then [] else [step.open])
      && forall i :: 0 <= i < |step.events| ==> !step.events[i].DoneDelta?
  {
    var step := TranslateItemStarted(item, responseId, reasoningId, open);
    if IsToolItem(item) {
      MarksOfPlain(step.events);
    } else {
      assert step.events != [] ==> step.events[1..] == [];
    }
  }

  /** A completed item emits its tool events, or one reasoning end that closes the phase, or nothing; never done. */
  lemma CompletedItemShape(item: Json, responseId: string, reasoningId: string, open: bool)
    ensures var step := TranslateItemCompleted(item, responseId, reasoningId, open);
      && Marks(step.events) == (if step.open == open then [] else [step.open])
      && forall i :: 0 <= i < |step.events| ==> !step.events[i].DoneDelta?
  {
    var step := TranslateItemCompleted(item, responseId, reasoningId, open);
    if IsToolItem(item) {
      MarksOfPlain(step.events);
    } else {
      assert step.events != [] ==> step.events[1..] == [];
    }
  }

  lemma PlainStepHasNoDone(event: Json, responseId: string, reasoningId: string, open: bool)
    requires KindOf(event) !in {Synthetic, TurnCompleted, ItemStarted, ItemCompleted}
    ensures var step := Translate(event, responseId, reasoningId, open);
      forall i :: 0 <= i < |step.events| ==> !step.events[i].DoneDelta?
  {
  }

  // ---------------------------------------------------------------------------
  // The reasoning phase over a whole turn
  // ---------------------------------------------------------------------------

  /** The reasoning markers among `events`: true for a start, false for an end. */
  function Marks(events: seq<UiEvent>): seq<bool>
  {
    if events == [] then []
    else if events[0].ReasoningStart? then [true] + Marks(events[1..])
    else if events[0].ReasoningEnd? then [false] + Marks(events[1..])
    else Marks(events[1..])
  }

  lemma {:induction false} MarksAppend(a: seq<UiEvent>, b: seq<UiEvent>)
    ensures Marks(a + b) == Marks(a) + Marks(b)
  {
    if a == [] {
      assert a + b == b;
    } else {
      MarksAppend(a[1..], b);
      assert (a + b)[1..] == a[1..] + b;
    }
  }

  lemma {:induction false} MarksOfPlain(events: seq<UiEvent>)
    requires forall i :: 0 <= i < |events| ==> !events[i].ReasoningStart? && !events[i].ReasoningEnd?
    ensures Marks(events) == []
  {
    if events != [] {
      MarksOfPlain(events[1..]);
    }
  }

  /** Steps of the kinds that never touch reasoning emit no marker. */
  lemma PlainStepMarks(event: Json, responseId: string, reasoningId: string, open: bool)
    requires KindOf(event) !in {ItemStarted, ItemCompleted, SummaryTextDelta}
    ensures var step := Translate(event, responseId, reasoningId, open);
      Marks(step.events) == [] && step.open == open
  {
    var step := Translate(event, responseId, reasoningId, open);
    MarksOfPlain(step.events);
  }

  /** Items that start or complete emit a marker exactly when they flip the flag. */
  lemma ItemStepMarks(event: Json, responseId: string, reasoningId: string, open: bool)
    requires KindOf(event) == ItemStarted || KindOf(event) == ItemCompleted
    ensures var step := Translate(event, responseId, reasoningId, open);
      Marks(step.events) == if step.open == open then [] else [step.open]
  {
    var step := Translate(event, responseId, reasoningId, open);
    var item := EventItem(event);
    if KindOf(event) == ItemStarted {
      assert step == TranslateItemStarted(item, responseId, reasoningId, open);
      StartedItemShape(item, responseId, reasoningId, open);
    } else {
      assert step == TranslateItemCompleted(item, responseId, reasoningId, open);
      CompletedItemShape(item, responseId, reasoningId, open);
    }
  }

  /** One step emits a reasoning marker exactly when it flips the flag, and the marker names the new state. */
  lemma StepMarks(event: Json, responseId: string, reasoningId: string, open: bool)
    ensures var step := Translate(event, responseId, reasoningId, open);
      Marks(step.events) == if step.open == open then [] else [step.open]
  {
    var step := Translate(event, responseId, reasoningId, open);
    if KindOf(event) == ItemStarted || KindOf(event) == ItemCompleted {
      ItemStepMarks(event, responseId, reasoningId, open);
    } else if KindOf(event) == SummaryTextDelta {
      var content := ReasoningContent(reasoningId, GetOr(Params(event), "delta", Str("")));
      MarksOfPlain([content]);
      assert step.events == if open then [content] else [ReasoningStart(reasoningId)] + [content];
    } else {
      PlainStepMarks(event, responseId, reasoningId, open);
    }
  }

  /** Apply a step function to each notification in order, threading the reasoning flag. */
  function Run(step: (Json, bool) -> Step, events: seq<Json>, open: bool): Step
  {
    if events == [] then Step([], open)
    else
      var first := step(events[0], open);
      var rest := Run(step, events[1..], first.open);
      Step(first.events + rest.events, rest.open)
  }

  /** Translate a turn's notifications in order, threading the reasoning flag. */
  function TranslateAll(events: seq<Json>, responseId: string, reasoningId: string, open: bool): Step
  {
    Run((event, before) => Translate(event, responseId, reasoningId, before), events, open)
  }

  /** `n` markers alternating, starting with the transition away from `open`. */
  function Alternating(n: nat, open: bool): seq<bool>
  {
    if n == 0 then [] else [!open] + Alternating(n - 1, !open)
  }

  /** A step emits a reasoning marker exactly when it flips the flag, and the marker names the new state. */
  predicate MarksFlip(open: bool, step: Step)
  {
    Marks(step.events) == if step.open == open then [] else [step.open]
  }

  /** The markers of a run alternate, and its final flag is the one the last marker set. */
  predicate Alternates(open: bool, r: Step)
  {
    var m := Marks(r.events);
    m == Alternating(|m|, open) && r.open == (if m == [] then open else m[|m| - 1])
  }

  /** Any step function whose every step flips the flag exactly when it emits a marker alternates over a run. */
  lemma {:induction false} RunAlternates(step: (Json, bool) -> Step, events: seq<Json>, open: bool)
    requires forall event, before :: MarksFlip(before, step(event, before))
    ensures Alternates(open, Run(step, events, open))
  {
    if events != [] {
      var first := step(events[0], open);
      RunAlternates(step, events[1..], first.open);
      AlternatesAfterStep(open, first, Run(step, events[1..], first.open));
    }
  }

  /**
   * Over a whole turn the REASONING_START and REASONING_END events strictly
   * alternate, beginning with the transition away from the initial state, and
   * the state after the turn is the one the last marker set (the initial one when
   * there is none). From a fresh (closed) state, every end is preceded by its
   * start and no start is repeated.
   */
  lemma ReasoningAlternates(events: seq<Json>, responseId: string, reasoningId: string, open: bool)
    ensures var r := TranslateAll(events, responseId, reasoningId, open);
      var m := Marks(r.events);
      && m == Alternating(|m|, open)
      && r.open == (if m == [] then open else m[|m| - 1])
  {
    var step := (event, before) => Translate(event, responseId, reasoningId, before);
    forall event, before ensures MarksFlip(before, step(event, before)) {
      StepMarks(event, responseId, reasoningId, before);
    }
    RunAlternates(step, events, open);
  }

  /** The inductive step of RunAlternates: one step followed by an alternating rest alternates. */
  lemma AlternatesAfterStep(open: bool, first: Step, rest: Step)
    requires MarksFlip(open, first)
    requires Alternates(first.open, rest)
    ensures Alternates(open, Step(first.events + rest.events, rest.open))
  {
    MarksAppend(first.events, rest.events);
    var m, mr := Marks(first.events + rest.events), Marks(rest.events);
    if first.open != open {
      assert m == [first.open] + mr;
      assert Alternating(|m|, open) == [!open] + Alternating(|mr|, !open);
    }
  }

  /** Two consecutive reasoning starts from a fresh turn yield exactly one REASONING_START. */
  lemma DuplicateReasoningStart(event: Json, responseId: string, reasoningId: string)
    requires KindOf(event) == ItemStarted && IsReasoningItem(event)
    ensures TranslateAll([event, event], responseId, reasoningId, false) == Step([ReasoningStart(reasoningId)], true)
  {
    ReasoningItemTransitions(event, responseId, reasoningId, false);
    ReasoningItemTransitions(event, responseId, reasoningId, true);
    assert [event, event][1..] == [event];
    assert [event][1..] == [];
    var second := TranslateAll([event], responseId, reasoningId, true);
    assert second == Step([] + TranslateAll([], responseId, reasoningId, true).events, true);
    assert TranslateAll([event, event], responseId, reasoningId, false) == Step([ReasoningStart(reasoningId)] + second.events, true);
  }
}
