/** The chat request model of the HTTP layer and the prompt it turns into. */
module Models {
  import opened Wrappers
  import opened Strings

  /** A chat message; the role defaults to "user". */
  datatype ChatMessage = ChatMessage(content: string, role: string := "user")

  /**
   * A chat request. A missing `threadId` asks for a new conversation; the
   * response is streamed unless `stream` is false.
   */
  datatype ChatRequest = ChatRequest(
    messages: seq<ChatMessage>,
    threadId: Option<string> := None,
    model: Option<string> := None,
    stream: bool := true)
  {
    /** The prompt sent to the agent: the non-empty message contents joined by newlines. */
    function GetPrompt(): (prompt: string)
      ensures NonEmptyContents(messages) == [] ==> prompt == ""
      ensures |NonEmptyContents(messages)| == 1 ==> prompt == NonEmptyContents(messages)[0]
    {
      Join("\n", NonEmptyContents(messages))
    }
  }

  /** The contents of the messages whose content is not empty, in their original order. */
  function NonEmptyContents(messages: seq<ChatMessage>): (contents: seq<string>)
    ensures |contents| <= |messages|
    ensures forall i :: 0 <= i < |contents| ==> contents[i] != ""
    ensures forall i :: 0 <= i < |contents| ==> exists j :: 0 <= j < |messages| && messages[j].content == contents[i]
  {
    if messages == [] then []
    else if messages[0].content == "" then NonEmptyContents(messages[1..])
    else [messages[0].content] + NonEmptyContents(messages[1..])
  }

  /** Filtering distributes over concatenation, so message order is kept. */
  lemma {:induction false} NonEmptyContentsAppend(a: seq<ChatMessage>, b: seq<ChatMessage>)
    ensures NonEmptyContents(a + b) == NonEmptyContents(a) + NonEmptyContents(b)
  {
    if a != [] {
      NonEmptyContentsAppend(a[1..], b);
      assert (a + b)[1..] == a[1..] + b;
    } else {
      assert a + b == b;
    }
  }

  /** `"\n".join` of two non-empty lists puts exactly one newline between them. */
  lemma {:induction false} JoinAppend(p: seq<string>, q: seq<string>)
    requires p != [] && q != []
    ensures Join("\n", p + q) == Join("\n", p) + "\n" + Join("\n", q)
  {
    if |p| == 1 {
      assert (p + q)[1..] == q;
    } else {
      JoinAppend(p[1..], q);
      assert (p + q)[1..] == p[1..] + q;
    }
  }

  /** The prompt of two message lists is their prompts joined by one newline, or whichever is non-empty. */
  lemma PromptAppend(a: seq<ChatMessage>, b: seq<ChatMessage>)
    ensures var pa, pb := ChatRequest(a).GetPrompt(), ChatRequest(b).GetPrompt();
      ChatRequest(a + b).GetPrompt() ==
        if NonEmptyContents(a) == [] then pb
        else if NonEmptyContents(b) == [] then pa
        else pa + "\n" + pb
  {
    NonEmptyContentsAppend(a, b);
    var p, q := NonEmptyContents(a), NonEmptyContents(b);
    if p == [] {
      assert p + q == q;
    } else if q == [] {
      assert p + q == p;
    } else {
      JoinAppend(p, q);
    }
  }

  /** A message with empty content contributes nothing, wherever it stands: no empty segment appears. */
  lemma EmptyMessageContributesNothing(a: seq<ChatMessage>, m: ChatMessage, b: seq<ChatMessage>)
    requires m.content == ""
    ensures ChatRequest(a + [m] + b).GetPrompt() == ChatRequest(a + b).GetPrompt()
  {
    assert NonEmptyContents([m]) == [] by {
      assert [m][1..] == [];
    }
    NonEmptyContentsAppend(a, [m]);
    assert NonEmptyContents(a + [m]) == NonEmptyContents(a);
    NonEmptyContentsAppend(a + [m], b);
    NonEmptyContentsAppend(a, b);
  }

  /**
   * When no content holds a newline, splitting the prompt on newlines gives back
   * exactly the non-empty contents, in order.
   */
  lemma PromptSplitsIntoContents(r: ChatRequest)
    requires forall i :: 0 <= i < |r.messages| ==> '\n' !in r.messages[i].content
    requires NonEmptyContents(r.messages) != []
    ensures Split(r.GetPrompt(), '\n') == NonEmptyContents(r.messages)
  {
    var parts := NonEmptyContents(r.messages);
    forall i | 0 <= i < |parts| ensures '\n' !in parts[i] {
      var j :| 0 <= j < |r.messages| && r.messages[j].content == parts[i];
    }
    SplitJoin(parts, '\n');
  }

  /** The declared defaults: role "user", a new conversation, no model override, streaming on. */
  lemma Defaults(content: string, messages: seq<ChatMessage>)
    ensures ChatMessage(content).role == "user"
    ensures ChatRequest(messages).threadId == None
    ensures ChatRequest(messages).model == None
    ensures ChatRequest(messages).stream
  {
  }
}
