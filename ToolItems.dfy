/**
 * Classification of agent thread items into tool calls, and the name, argument
 * payload and result payload the bridge reports for each kind of tool.
 */
module ToolItems {
  import opened Wrappers
  import opened Strings
  import opened Json

  /** Item types that are tool invocations. */
  const ToolItemTypes: set<string> :=
    {"mcpToolCall", "commandExecution", "fileChange", "collabToolCall", "collabAgentToolCall", "webSearch"}

  /** Reported names of the built-in tools; MCP tools report their own name. */
  const ToolNameMap: map<string, string> := map[
    "commandExecution" := "command_execution",
    "fileChange" := "file_change",
    "collabToolCall" := "collab_tool",
    "collabAgentToolCall" := "collab_tool",
    "webSearch" := "web_search"]

  /** Item types deliberately left out of message histories. */
  const DroppedItemTypes: set<string> :=
    {"contextCompaction", "plan", "imageView", "enteredReviewMode", "exitedReviewMode"}

  /**
   * An identifier taken from an item, or a uuid generated on the spot when the item has none.
   * Generated uuids are not modelled further: two `FreshUuid`s need not be the same uuid.
   */
  datatype ItemRef = Given(id: Json) | FreshUuid

  /** `item.get("type", "")`. */
  function ItemType(item: Json): Json
  {
    GetOr(item, "type", Str(""))
  }

  /** Whether the item's type is the string `t`. */
  predicate HasType(item: Json, t: string)
  {
    ItemType(item) == Str(t)
  }

  /** `item.get("type") in TOOL_ITEM_TYPES`. */
  predicate IsToolItem(item: Json)
  {
    match Get(item, "type")
    case Some(Str(t)) => t in ToolItemTypes
    case _ => false
  }

  /** `item.get("id", uuid4())`. */
  function ToolCallId(item: Json): (r: ItemRef)
    ensures r.FreshUuid? <==> !Has(item, "id")
    ensures forall id :: Get(item, "id") == Some(id) ==> r == Given(id)
  {
    match Get(item, "id")
    case Some(id) => Given(id)
    case None => FreshUuid
  }

  /** The tool name reported for an item. */
  function NormalizeToolName(item: Json): (name: Json)
    ensures HasType(item, "mcpToolCall") ==> name == GetOr(item, "tool", Str("unknown_mcp_tool"))
    ensures forall t :: t in ToolNameMap && HasType(item, t) ==> name == Str(ToolNameMap[t])
    ensures !(ItemType(item).Str? && (ItemType(item).s in ToolNameMap || ItemType(item).s == "mcpToolCall"))
            ==> name == ItemType(item)
  {
    var t := ItemType(item);
    if t == Str("mcpToolCall") then GetOr(item, "tool", Str("unknown_mcp_tool"))
    else if t.Str? && t.s in ToolNameMap then Str(ToolNameMap[t.s])
    else t
  }

  /**
   * The structured argument value of a tool item; the argument payload is its
   * `json.dumps`, and `json.loads` of that payload gives this value back.
   */
  function ToolArgs(item: Json): Json
  {
    if HasType(item, "commandExecution") then
      Obj([("command", GetOr(item, "command", Str(""))), ("cwd", GetOr(item, "cwd", Str("")))])
    else if HasType(item, "fileChange") then
      Obj([("changes", GetOr(item, "changes", Arr([])))])
    else if HasType(item, "mcpToolCall") then
      GetOr(item, "arguments", Empty)
    else if HasType(item, "webSearch") then
      Obj([("query", GetOr(item, "query", Str("")))])
    else if HasType(item, "collabToolCall") || HasType(item, "collabAgentToolCall") then
      Obj([("tool", GetOr(item, "tool", Str(""))), ("prompt", GetOr(item, "prompt", Str("")))])
    else
      Empty
  }

  /** The serialized argument payload of a tool item. */
  function ExtractToolArgs(item: Json): (payload: string)
    ensures HasType(item, "commandExecution") ==>
      payload == Dumps(Obj([("command", GetOr(item, "command", Str(""))), ("cwd", GetOr(item, "cwd", Str("")))]))
    ensures HasType(item, "fileChange") ==> payload == Dumps(Obj([("changes", GetOr(item, "changes", Arr([])))]))
    ensures HasType(item, "mcpToolCall") ==> payload == Dumps(GetOr(item, "arguments", Empty))
    ensures HasType(item, "webSearch") ==> payload == Dumps(Obj([("query", GetOr(item, "query", Str("")))]))
    ensures HasType(item, "collabToolCall") || HasType(item, "collabAgentToolCall") ==>
      payload == Dumps(Obj([("tool", GetOr(item, "tool", Str(""))), ("prompt", GetOr(item, "prompt", Str("")))]))
    ensures !IsToolItem(item) ==> payload == "{}"
  {
    Dumps(ToolArgs(item))
  }

  /**
   * A payload as the bridge reports it: a value passed on as it is, or a value
   * the bridge serializes with `json.dumps`. Keeping the value unserialized lets
   * the events say which value a payload string encodes.
   */
  datatype Payload = Raw(value: Json) | Encoded(value: Json)
  {
    /** The payload as it appears in the outgoing event. */
    function Render(): Json
    {
      match this
      case Raw(v) => v
      case Encoded(v) => Str(Dumps(v))
    }
  }

  /** The result payload of a completed tool item. */
  function ToolResult(item: Json): Payload
  {
    if HasType(item, "commandExecution") then
      var output := GetOr(item, "aggregatedOutput", Str(""));
      var exitCode := GetOrNull(item, "exitCode");
      if exitCode != Null then Raw(Str(Show(output) + "\n[exit code: " + Show(exitCode) + "]"))
      else Raw(output)
    else if HasType(item, "fileChange") then
      Encoded(Obj([("changes", GetOr(item, "changes", Arr([]))), ("status", GetOr(item, "status", Str("")))]))
    else if HasType(item, "mcpToolCall") then
      Raw(Or(GetOrNull(item, "result"), Or(GetOrNull(item, "error"), Str(""))))
    else if HasType(item, "webSearch") then
      Encoded(GetOr(item, "action", Str("")))
    else if HasType(item, "collabToolCall") || HasType(item, "collabAgentToolCall") then
      Encoded(Obj([("status", GetOr(item, "status", Str(""))),
                   ("agents_states", GetOr(item, "agentsStates", Arr([])))]))
    else
      Raw(Str(""))
  }

  /** The rendered result of a completed tool item. */
  function ExtractToolResult(item: Json): Json
  {
    ToolResult(item).Render()
  }

  /** Only the six tool types are tool items, and every one of them has a reported name other than "". */
  lemma ToolItemIffToolType(item: Json)
    ensures IsToolItem(item) <==> exists t :: t in ToolItemTypes && HasType(item, t)
    ensures IsToolItem(item) && !HasType(item, "mcpToolCall") ==> NormalizeToolName(item) != Str("")
  {
    if IsToolItem(item) {
      assert HasType(item, Get(item, "type").value.s);
    }
  }

  /**
   * A command's result is its output followed by the exit-code marker when an
   * exit code is reported, and the output unchanged otherwise.
   */
  lemma CommandResult(item: Json, output: string)
    requires HasType(item, "commandExecution")
    requires Get(item, "aggregatedOutput") == Some(Str(output))
    ensures forall code: int :: Get(item, "exitCode") == Some(Num(code)) ==>
      ExtractToolResult(item) == Str(output + "\n[exit code: " + IntToDecimal(code) + "]")
    ensures GetOrNull(item, "exitCode") == Null ==> ExtractToolResult(item) == Str(output)
  {
  }

  /** A result with an exit code ends in the marker `[exit code: N]`. */
  lemma CommandResultEndsWithMarker(item: Json, code: int)
    requires HasType(item, "commandExecution")
    requires Get(item, "exitCode") == Some(Num(code))
    ensures var r := ExtractToolResult(item);
      var marker := "[exit code: " + IntToDecimal(code) + "]";
      r.Str? && |r.s| >= |marker| && r.s[|r.s| - |marker|..] == marker
  {
    var r := ExtractToolResult(item);
    var digits := IntToDecimal(code);
    var marker := "[exit code: " + digits + "]";
    var out := Show(GetOr(item, "aggregatedOutput", Str("")));
    assert GetOrNull(item, "exitCode") == Num(code);
    assert Show(Num(code)) == digits;
    assert r.s == out + "\n[exit code: " + digits + "]";
    assert "\n[exit code: " == "\n" + "[exit code: ";
    assert r.s == (out + "\n") + marker;
  }

  /** An MCP tool's result is its `result` if truthy, else its `error` if truthy, else "". */
  lemma McpResult(item: Json)
    requires HasType(item, "mcpToolCall")
    ensures Truthy(GetOrNull(item, "result")) ==> ExtractToolResult(item) == GetOrNull(item, "result")
    ensures !Truthy(GetOrNull(item, "result")) && Truthy(GetOrNull(item, "error"))
            ==> ExtractToolResult(item) == GetOrNull(item, "error")
    ensures !Truthy(GetOrNull(item, "result")) && !Truthy(GetOrNull(item, "error"))
            ==> ExtractToolResult(item) == Str("")
  {
  }

  /** The command `ls` run in `/tmp`, with output "a.txt" and exit code 0. */
  function ExampleCommand(): Json
  {
    Obj([("type", Str("commandExecution")), ("command", Str("ls")), ("cwd", Str("/tmp")),
         ("aggregatedOutput", Str("a.txt")), ("exitCode", Num(0))])
  }

  lemma ExampleCommandArgFields()
    ensures var item := ExampleCommand();
      && HasType(item, "commandExecution")
      && GetOr(item, "command", Str("")) == Str("ls") && GetOr(item, "cwd", Str("")) == Str("/tmp")
  {
    var fields := ExampleCommand().fields;
    LookupSingle(fields, 0);
    LookupSingle(fields, 1);
    LookupSingle(fields, 2);
  }

  lemma ExampleCommandResultFields()
    ensures var item := ExampleCommand();
      && Get(item, "aggregatedOutput") == Some(Str("a.txt")) && Get(item, "exitCode") == Some(Num(0))
  {
    var fields := ExampleCommand().fields;
    LookupSingle(fields, 3);
    LookupSingle(fields, 4);
  }

  /**
   * For the example command, the argument payload is the dump of the object
   * {command: "ls", cwd: "/tmp"} and the result is the output followed by
   * "\n[exit code: 0]".
   */
  lemma CommandRoundTripExample()
    ensures ExtractToolArgs(ExampleCommand()) == Dumps(Obj([("command", Str("ls")), ("cwd", Str("/tmp"))]))
    ensures ExtractToolResult(ExampleCommand()) == Str("a.txt" + "\n[exit code: " + "0" + "]")
  {
    ExampleCommandArgFields();
    ExampleCommandResultFields();
    CommandResult(ExampleCommand(), "a.txt");
    assert IntToDecimal(0) == "0";
  }
}
