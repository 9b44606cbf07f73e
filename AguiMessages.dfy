/**
 * The message builders of `agui_translate.py`: one agent thread item becomes no
 * message, one message, or a tool call followed by its result, in the AG-UI
 * form (`build_agui_message`) and in the OpenAI-style history form
 * (`build_openai_history_message`); and the two response builders that collect
 * them (`build_agui_response`, `build_history_response`).
 */
module AguiMessages {
  import opened Wrappers
  import opened Strings
  import opened Json
  import opened ToolItems

  /**
   * An AG-UI message. User and assistant messages carry the item's id (or a
   * fresh uuid) and text; their content is a `{type: "text", text}` object. A
   * tool item becomes an assistant message with one function call and empty
   * text, then a `tool` message with the result; both get fresh uuids as ids and
   * share the item's call id and tool name.
   */
  datatype AguiMessage =
    | AguiUser(id: ItemRef, text: string)
    | AguiAssistant(id: ItemRef, reply: Json)
    | AguiToolCall(callId: ItemRef, name: Json, arguments: Payload)
    | AguiToolResult(callId: ItemRef, name: Json, result: Payload)

  /** A history message: as above, without ids and with plain-string content. */
  datatype HistoryMessage =
    | HistoryUser(content: string)
    | HistoryAssistant(reply: Json)
    | HistoryToolCall(callId: ItemRef, name: Json, arguments: Payload)
    | HistoryToolResult(callId: ItemRef, name: Json, result: Payload)

  /** A builder's result: `None`, one message, or the list of a tool call and its result. */
  datatype Built<M> = Nothing | Single(message: M) | Pair(call: M, result: M)
  {
    /** What `extend`/`append` adds to the message list. */
    function Messages(): seq<M>
    {
      match this
      case Nothing => []
      case Single(m) => [m]
      case Pair(c, r) => [c, r]
    }
  }

  /** The elements of a JSON list; anything else is iterated as empty. */
  function Elements(j: Json): seq<Json>
  {
    if j.Arr? then j.items else []
  }

  /** The texts of the parts whose type is `text`, in order. */
  function TextParts(parts: seq<Json>): (texts: seq<string>)
    ensures |texts| <= |parts|
  {
    if parts == [] then []
    else
      var here := if Get(parts[0], "type") == Some(Str("text")) then [Show(GetOr(parts[0], "text", Str("")))] else [];
      here + TextParts(parts[1..])
  }

  /** A user message's text: its text parts joined by newlines. */
  function UserText(item: Json): string
  {
    Join("\n", TextParts(Elements(GetOr(item, "content", Arr([])))))
  }

  /**
   * `item.get("id", uuid4())`, the id of a user or agent message; it reads the
   * same field, with the same fallback, as a tool item's call id.
   */
  function ItemId(item: Json): ItemRef
  {
    ToolCallId(item)
  }

  /** `build_agui_message`. */
  function BuildAguiMessage(item: Json): Built<AguiMessage>
  {
    if HasType(item, "userMessage") then Single(AguiUser(ItemId(item), UserText(item)))
    else if HasType(item, "agentMessage") then Single(AguiAssistant(ItemId(item), GetOr(item, "text", Str(""))))
    else if HasType(item, "reasoning") then Nothing
    else if IsToolItem(item) then
      Pair(AguiToolCall(ToolCallId(item), NormalizeToolName(item), Encoded(ToolArgs(item))),
           AguiToolResult(ToolCallId(item), NormalizeToolName(item), ToolResult(item)))
    else Nothing
  }

  /** `build_openai_history_message`; reasoning items fall under the unknown types. */
  function BuildHistoryMessage(item: Json): Built<HistoryMessage>
  {
    if HasType(item, "userMessage") then Single(HistoryUser(UserText(item)))
    else if HasType(item, "agentMessage") then Single(HistoryAssistant(GetOr(item, "text", Str(""))))
    else if IsToolItem(item) then
      Pair(HistoryToolCall(ToolCallId(item), NormalizeToolName(item), Encoded(ToolArgs(item))),
           HistoryToolResult(ToolCallId(item), NormalizeToolName(item), ToolResult(item)))
    else Nothing
  }

  /** How many messages an item is worth: one for a user or agent message, two for a tool item, none otherwise. */
  function Weight(item: Json): nat
  {
    if HasType(item, "userMessage") || HasType(item, "agentMessage") then 1
    else if IsToolItem(item) then 2
    else 0
  }

  /** Both builders produce exactly `Weight(item)` messages. */
  lemma BuildersFollowWeight(item: Json)
    ensures |BuildAguiMessage(item).Messages()| == Weight(item)
    ensures |BuildHistoryMessage(item).Messages()| == Weight(item)
  {
    ToolItemIffToolType(item);
    if HasType(item, "userMessage") || HasType(item, "agentMessage") || HasType(item, "reasoning") {
      assert !IsToolItem(item);
    }
  }

  /**
   * An item becomes a call-and-result pair exactly when it is a tool item, and
   * in both forms the result answers the call: the item's call id and tool
   * name on both, the argument payload on the call and the result payload on
   * the result.
   */
  lemma ToolItemsBecomePairs(item: Json)
    ensures BuildAguiMessage(item).Pair? <==> IsToolItem(item)
    ensures BuildHistoryMessage(item).Pair? <==> IsToolItem(item)
    ensures var a := BuildAguiMessage(item);
      a.Pair? ==> (&& a.call.AguiToolCall? && a.result.AguiToolResult?
                   && a.call.callId == a.result.callId == ToolCallId(item)
                   && a.call.name == a.result.name == NormalizeToolName(item)
                   && a.call.arguments.Render() == Str(ExtractToolArgs(item))
                   && a.result.result.Render() == ExtractToolResult(item))
    ensures var b := BuildHistoryMessage(item);
      b.Pair? ==> (&& b.call.HistoryToolCall? && b.result.HistoryToolResult?
                   && b.call.callId == b.result.callId == ToolCallId(item)
                   && b.call.name == b.result.name == NormalizeToolName(item)
                   && b.call.arguments.Render() == Str(ExtractToolArgs(item))
                   && b.result.result.Render() == ExtractToolResult(item))
  {
    ToolItemIffToolType(item);
    if HasType(item, "userMessage") || HasType(item, "agentMessage") || HasType(item, "reasoning") {
      assert !IsToolItem(item);
    }
  }

  /** Reasoning and the dropped types produce no message in either form. */
  lemma NoMessageForReasoningOrDropped(item: Json, t: string)
    requires HasType(item, t) && (t == "reasoning" || t in DroppedItemTypes)
    ensures BuildAguiMessage(item) == Nothing
    ensures BuildHistoryMessage(item) == Nothing
  {
    ToolItemIffToolType(item);
    assert t !in ToolItemTypes;
    assert !HasType(item, "userMessage") && !HasType(item, "agentMessage");
  }

  // ---------------------------------------------------------------------------
  // History response
  // ---------------------------------------------------------------------------

  /** The items of all turns, in order. */
  function ThreadItems(turns: seq<Json>): seq<Json>
  {
    if turns == [] then []
    else ThreadItems(turns[..|turns| - 1]) + Elements(GetOr(turns[|turns| - 1], "items", Arr([])))
  }

  /** The history messages of a sequence of items, in order. */
  function HistoryOf(items: seq<Json>): seq<HistoryMessage>
  {
    if items == [] then []
    else HistoryOf(items[..|items| - 1]) + BuildHistoryMessage(items[|items| - 1]).Messages()
  }

  /** One more element of `b` extends `a + b[..j]` by that element. */
  lemma PrefixStep<T>(a: seq<T>, b: seq<T>, j: nat)
    requires j < |b|
    ensures a + b[..j + 1] == (a + b[..j]) + [b[j]]
  {
    assert b[..j + 1] == b[..j] + [b[j]];
  }

  /** Appending an item appends its messages. */
  lemma HistoryOfSnoc(items: seq<Json>, item: Json)
    ensures HistoryOf(items + [item]) == HistoryOf(items) + BuildHistoryMessage(item).Messages()
  {
    assert (items + [item])[..|items|] == items;
  }

  /** One more turn appends its items. */
  lemma ThreadItemsStep(turns: seq<Json>, i: nat)
    requires i < |turns|
    ensures ThreadItems(turns[..i + 1]) == ThreadItems(turns[..i]) + Elements(GetOr(turns[i], "items", Arr([])))
  {
    assert turns[..i + 1][..i] == turns[..i];
  }

  /** The summed weight of a sequence of items. */
  function TotalWeight(items: seq<Json>): nat
  {
    if items == [] then 0 else TotalWeight(items[..|items| - 1]) + Weight(items[|items| - 1])
  }

  /** The history holds two messages per tool item and one per user or agent message. */
  lemma {:induction false} HistoryCount(items: seq<Json>)
    ensures |HistoryOf(items)| == TotalWeight(items)
  {
    if items != [] {
      HistoryCount(items[..|items| - 1]);
      BuildersFollowWeight(items[|items| - 1]);
    }
  }

  /** A history response; the constant fields (`agent_type` and the nulls) are left out. */
  datatype HistoryResponse =
    HistoryResponse(messages: seq<HistoryMessage>, userId: string, threadId: string, messageCount: int, chatName: Json)

  /** The turns of a `thread/read` result. */
  function Turns(thread: Json): seq<Json>
  {
    Elements(GetOr(thread, "turns", Arr([])))
  }

  /** The inner loop of `build_history_response`: the messages of one turn's items, appended in order. */
  method AppendHistory(messages: seq<HistoryMessage>, ghost done: seq<Json>, items: seq<Json>)
    returns (extended: seq<HistoryMessage>)
    requires messages == HistoryOf(done)
    ensures extended == HistoryOf(done + items)
  {
    extended := messages;
    assert done + items[..0] == done;
    for j := 0 to |items|
      invariant extended == HistoryOf(done + items[..j])
    {
      var built := BuildHistoryMessage(items[j]);
      PrefixStep(done, items, j);
      HistoryOfSnoc(done + items[..j], items[j]);
      extended := extended + built.Messages();
    }
    assert items[..|items|] == items;
  }

  /** `build_history_response`: every item of every turn, in order, and their count. */
  method BuildHistoryResponse(thread: Json, threadId: string, userId: string) returns (response: HistoryResponse)
    ensures response.messages == HistoryOf(ThreadItems(Turns(thread)))
    ensures response.messageCount == |response.messages| == TotalWeight(ThreadItems(Turns(thread)))
    ensures response.userId == userId && response.threadId == threadId
    ensures response.chatName == GetOr(thread, "preview", Str("New Chat"))
  {
    var turns := Turns(thread);
    var messages: seq<HistoryMessage> := [];
    for i := 0 to |turns|
      invariant messages == HistoryOf(ThreadItems(turns[..i]))
    {
      var items := Elements(GetOr(turns[i], "items", Arr([])));
      messages := AppendHistory(messages, ThreadItems(turns[..i]), items);
      ThreadItemsStep(turns, i);
    }
    assert turns[..|turns|] == turns;
    HistoryCount(ThreadItems(turns));
    response := HistoryResponse(messages, userId, threadId, |messages|, GetOr(thread, "preview", Str("New Chat")));
  }

  // ---------------------------------------------------------------------------
  // AG-UI response
  // ---------------------------------------------------------------------------

  /** `event.get("params", {})`. */
  function EventParams(event: Json): Json
  {
    GetOr(event, "params", Empty)
  }

  /** The item of an `item/completed` event. */
  function CompletedItem(event: Json): Option<Json>
  {
    if Get(event, "method") == Some(Str("item/completed")) then Some(GetOr(EventParams(event), "item", Empty))
    else None
  }

  /** A `turn/completed` event whose turn has status `failed`. */
  predicate IsFailedTurn(event: Json)
  {
    Get(event, "method") == Some(Str("turn/completed"))
    && Get(GetOr(EventParams(event), "turn", Empty), "status") == Some(Str("failed"))
  }

  /** The messages one event contributes: those built from its completed item, if it has one. */
  function EventMessages(event: Json): seq<AguiMessage>
  {
    if CompletedItem(event).Some? then BuildAguiMessage(CompletedItem(event).value).Messages() else []
  }

  /** The messages of the completed items among the events, in order. */
  function AguiOf(events: seq<Json>): seq<AguiMessage>
  {
    if events == [] then []
    else AguiOf(events[..|events| - 1]) + EventMessages(events[|events| - 1])
  }

  /** Appending an event appends the messages of its completed item, if any. */
  lemma AguiOfSnoc(events: seq<Json>, event: Json)
    ensures AguiOf(events + [event]) == AguiOf(events) + EventMessages(event)
  {
    assert (events + [event])[..|events|] == events;
  }

  /** Whether some event is a failed turn. */
  predicate HasFailedTurn(events: seq<Json>)
  {
    exists i :: 0 <= i < |events| && IsFailedTurn(events[i])
  }

  /** Appending an event adds a failed turn exactly when that event is one. */
  lemma HasFailedTurnSnoc(events: seq<Json>, event: Json)
    ensures HasFailedTurn(events + [event]) <==> HasFailedTurn(events) || IsFailedTurn(event)
  {
    var all := events + [event];
    if HasFailedTurn(all) && !IsFailedTurn(event) {
      var i :| 0 <= i < |all| && IsFailedTurn(all[i]);
      assert i < |events| && events[i] == all[i];
    }
    if HasFailedTurn(events) {
      var i :| 0 <= i < |events| && IsFailedTurn(events[i]);
      assert all[i] == events[i];
    }
    if IsFailedTurn(event) {
      assert all[|events|] == event;
    }
  }

  /** The summed weight of the completed items among the events. */
  function CompletedWeight(events: seq<Json>): nat
  {
    if events == [] then 0
    else
      var last := events[|events| - 1];
      CompletedWeight(events[..|events| - 1]) + (if CompletedItem(last).Some? then Weight(CompletedItem(last).value) else 0)
  }

  /** The AG-UI response holds two messages per completed tool item and one per completed user or agent message. */
  lemma {:induction false} AguiCount(events: seq<Json>)
    ensures |AguiOf(events)| == CompletedWeight(events)
  {
    if events != [] {
      AguiCount(events[..|events| - 1]);
      var last := events[|events| - 1];
      if CompletedItem(last).Some? {
        BuildersFollowWeight(CompletedItem(last).value);
      }
    }
  }

  /** An AG-UI response; ids, timestamps and the constant metadata are left out. */
  datatype AguiResponse = AguiResponse(status: string, messages: seq<AguiMessage>, userId: string, threadId: string)

  /** `build_agui_response`: the completed items' messages, and status `error` exactly when some turn failed. */
  method BuildAguiResponse(events: seq<Json>, threadId: string, userId: string) returns (response: AguiResponse)
    ensures response.messages == AguiOf(events)
    ensures response.status == "error" <==> exists i :: 0 <= i < |events| && IsFailedTurn(events[i])
    ensures response.status == "ok" || response.status == "error"
    ensures response.userId == userId && response.threadId == threadId
  {
    var messages: seq<AguiMessage> := [];
    var status := "ok";
    for i := 0 to |events|
      invariant messages == AguiOf(events[..i])
      invariant status == "error" <==> HasFailedTurn(events[..i])
      invariant status == "ok" || status == "error"
    {
      var event := events[i];
      assert events[..i + 1] == events[..i] + [event];
      HasFailedTurnSnoc(events[..i], event);
      messages := AppendCompleted(messages, events[..i], event);
      if Get(event, "method") == Some(Str("turn/completed")) {
        var turn := GetOr(EventParams(event), "turn", Empty);
        if Get(turn, "status") == Some(Str("failed")) {
          status := "error";
        }
      }
    }
    assert events[..|events|] == events;
    response := AguiResponse(status, messages, userId, threadId);
  }

  /** One `item/completed` event of the loop in `build_agui_response`: its item's messages are appended. */
  method AppendCompleted(messages: seq<AguiMessage>, ghost seen: seq<Json>, event: Json) returns (extended: seq<AguiMessage>)
    requires messages == AguiOf(seen)
    ensures extended == AguiOf(seen + [event])
  {
    AguiOfSnoc(seen, event);
    extended := messages;
    if Get(event, "method") == Some(Str("item/completed")) {
      var item := GetOr(EventParams(event), "item", Empty);
      var built := BuildAguiMessage(item);
      extended := messages + built.Messages();
    }
  }
}
