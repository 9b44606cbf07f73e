/**
 * The JSON-RPC client that talks to the `codex app-server` subprocess over its
 * standard streams (`app_server_client.py`).
 *
 * The subprocess is abstract: its stdout is the whole sequence of lines it will
 * ever write, already stripped and run through `json.loads`, and reading is a
 * cursor into that sequence; its stdin is the log of objects written to it, one
 * JSON line each. Spawning a process is a parameter of the operations that may
 * need one (`None` when the binary cannot be started).
 */
module AppServerClient {
  import opened Wrappers
  import opened Json

  /** One stdout line: empty after `strip()`, not JSON, or a parsed value. */
  datatype Line = Blank | Malformed | Parsed(value: Json)

  /** The ways an operation of the client fails (the exceptions it raises). */
  datatype Failure =
    | SpawnFailed                          // the subprocess could not be started
    | ProcessClosed                        // "App-server process closed"
    | NotAnObject                          // a parsed line that is not an object has no `.get`
    | InitializeFailed(error: Json)        // "Failed to initialize: ..."
    | AuthFailed(error: Json)              // "Failed to authenticate: ..."
    | RequestFailed(name: string, error: Json)  // "thread/... failed: ..."

  /** The app-server subprocess, seen through its pipes. */
  class Process {
    var returnCode: Option<int>
    const stdout: seq<Line>
    var cursor: nat
    var stdin: seq<Json>

    constructor (stdout: seq<Line>)
      ensures this.stdout == stdout && returnCode == None && cursor == 0 && stdin == []
    {
      this.stdout := stdout;
      returnCode := None;
      cursor := 0;
      stdin := [];
    }

    /** The cursor never passes the end of the output. */
    predicate Valid()
      reads this
    {
      cursor <= |stdout|
    }

    /** `stdout.readline()`: the next line, or `None` at end of stream. */
    method ReadLine() returns (line: Option<Line>)
      requires Valid()
      modifies this
      ensures Valid() && stdin == old(stdin) && returnCode == old(returnCode)
      ensures old(cursor) == |stdout| ==> line == None && cursor == old(cursor)
      ensures old(cursor) < |stdout| ==> line == Some(stdout[old(cursor)]) && cursor == old(cursor) + 1
    {
      if cursor == |stdout| {
        line := None;
      } else {
        line := Some(stdout[cursor]);
        cursor := cursor + 1;
      }
    }

    /** `stdin.write(json.dumps(message) + "\n")` followed by `drain()`. */
    method Write(message: Json)
      modifies this
      ensures stdin == old(stdin) + [message]
      ensures cursor == old(cursor) && returnCode == old(returnCode)
    {
      stdin := stdin + [message];
    }
  }

  /** The spawned process, if any, as a frame. */
  function Spawned(spawn: Option<Process>): set<object>
  {
    if spawn.Some? then {spawn.value} else {}
  }

  // ---------------------------------------------------------------------------
  // Messages written to stdin
  // ---------------------------------------------------------------------------

  /** A request `{"method", "id"}`, with `"params"` only when params is truthy. */
  function RequestObject(name: string, id: int, params: Json): Json
  {
    var head := [("method", Str(name)), ("id", Num(id))];
    if Truthy(params) then Obj(head + [("params", params)]) else Obj(head)
  }

  /** A notification `{"method"}`, with `"params"` only when params is truthy. */
  function NotificationObject(name: string, params: Json): Json
  {
    var head := [("method", Str(name))];
    if Truthy(params) then Obj(head + [("params", params)]) else Obj(head)
  }

  /** A request carries its method and id, and carries params exactly when they are non-empty. */
  lemma RequestObjectShape(name: string, id: int, params: Json)
    ensures var r := RequestObject(name, id, params);
      && Get(r, "method") == Some(Str(name))
      && Get(r, "id") == Some(Num(id))
      && (Has(r, "params") <==> Truthy(params))
      && (Truthy(params) ==> Get(r, "params") == Some(params))
  {
    var r := RequestObject(name, id, params);
    LookupSingle(r.fields, 0);
    LookupSingle(r.fields, 1);
    if Truthy(params) {
      LookupSingle(r.fields, 2);
    }
  }

  /** A notification carries its method, never an id, and params exactly when they are non-empty. */
  lemma NotificationObjectShape(name: string, params: Json)
    ensures var r := NotificationObject(name, params);
      && Get(r, "method") == Some(Str(name))
      && !Has(r, "id")
      && (Has(r, "params") <==> Truthy(params))
      && (Truthy(params) ==> Get(r, "params") == Some(params))
  {
    var r := NotificationObject(name, params);
    LookupSingle(r.fields, 0);
    if Truthy(params) {
      LookupSingle(r.fields, 1);
    }
  }

  /** The `clientInfo` sent with `initialize`. */
  const InitializeParams: Json :=
    Obj([("clientInfo", Obj([("name", Str("codex_api_bridge")),
                             ("title", Str("Codex API Bridge")),
                             ("version", Str("0.1.0"))]))])

  /** The parameters of `account/login/start`. */
  function LoginParams(apiKey: string): Json
  {
    Obj([("type", Str("apiKey")), ("apiKey", Str(apiKey))])
  }

  /** An API key is configured when it is set and non-empty. */
  predicate KeySet(apiKey: Option<string>)
  {
    apiKey.Some? && apiKey.value != ""
  }

  /** `thread/start`: auto-approval, and the model when one is given. */
  function ThreadStartParams(model: Option<string>): Json
  {
    var base := [("approvalPolicy", Str("never"))];
    if model.Some? && model.value != "" then Obj(base + [("model", Str(model.value))]) else Obj(base)
  }

  /** `thread/resume`. */
  function ThreadResumeParams(threadId: string): Json
  {
    Obj([("threadId", Str(threadId))])
  }

  /** `thread/list`: a page size, the creation-time sort and the cursor when one is given. */
  function ThreadListParams(limit: int, cursor: Option<string>): Json
  {
    var base := [("limit", Num(limit)), ("sortKey", Str("created_at"))];
    if cursor.Some? && cursor.value != "" then Obj(base + [("cursor", Str(cursor.value))]) else Obj(base)
  }

  /** `thread/read`, asking for the turns. */
  function ThreadReadParams(threadId: string): Json
  {
    Obj([("threadId", Str(threadId)), ("includeTurns", Bool(true))])
  }

  /** `turn/start`: the thread, the prompt as one text input, and the model when one is given. */
  function TurnStartParams(threadId: string, prompt: string, model: Option<string>): Json
  {
    var base := [("threadId", Str(threadId)),
                 ("input", Arr([Obj([("type", Str("text")), ("text", Str(prompt))])]))];
    if model.Some? && model.value != "" then Obj(base + [("model", Str(model.value))]) else Obj(base)
  }

  /** `thread/start` always asks for auto-approval and names the model exactly when one is given. */
  lemma ThreadStartParamsShape(model: Option<string>)
    ensures var p := ThreadStartParams(model);
      && Get(p, "approvalPolicy") == Some(Str("never"))
      && (Has(p, "model") <==> model.Some? && model.value != "")
      && (Has(p, "model") ==> Get(p, "model") == Some(Str(model.value)))
  {
    var p := ThreadStartParams(model);
    LookupSingle(p.fields, 0);
    if |p.fields| == 2 {
      LookupSingle(p.fields, 1);
    }
  }

  /** `thread/list` always sends the limit and passes the cursor exactly when one is given. */
  lemma ThreadListParamsShape(limit: int, cursor: Option<string>)
    ensures var p := ThreadListParams(limit, cursor);
      && Get(p, "limit") == Some(Num(limit))
      && Get(p, "sortKey") == Some(Str("created_at"))
      && (Has(p, "cursor") <==> cursor.Some? && cursor.value != "")
  {
    var p := ThreadListParams(limit, cursor);
    LookupSingle(p.fields, 0);
    LookupSingle(p.fields, 1);
    if |p.fields| == 3 {
      LookupSingle(p.fields, 2);
    }
  }

  /** `turn/start` sends the prompt as a single text input and names the model exactly when one is given. */
  lemma TurnStartParamsShape(threadId: string, prompt: string, model: Option<string>)
    ensures var p := TurnStartParams(threadId, prompt, model);
      && Get(p, "threadId") == Some(Str(threadId))
      && Get(p, "input") == Some(Arr([Obj([("type", Str("text")), ("text", Str(prompt))])]))
      && (Has(p, "model") <==> model.Some? && model.value != "")
  {
    var p := TurnStartParams(threadId, prompt, model);
    LookupSingle(p.fields, 0);
    LookupSingle(p.fields, 1);
    if |p.fields| == 3 {
      LookupSingle(p.fields, 2);
    }
  }

  // ---------------------------------------------------------------------------
  // Reading responses
  // ---------------------------------------------------------------------------

  /** Python's `value == request_id` for a JSON value: `True` equals 1 and `False` equals 0. */
  predicate IdMatches(value: Json, id: int)
  {
    match value
    case Num(n) => n == id
    case Bool(b) => (if b then 1 else 0) == id
    case _ => false
  }

  /** A line the response loop passes over: blank, malformed, or an object with another id. */
  predicate Skipped(line: Line, id: int)
  {
    line.Blank? || line.Malformed?
    || (line.Parsed? && line.value.Obj? && !IdMatches(GetOrNull(line.value, "id"), id))
  }

  /** Where the search for a response stops; `next` is the index of the first unread line. */
  datatype ScanEnd = Response(response: Json, next: nat) | EndOfStream(next: nat) | NonObject(next: nat)

  /** The response loop of `_send_request`, read from line `from`, for the request `id`. */
  function Scan(lines: seq<Line>, from: nat, id: int): (s: ScanEnd)
    requires from <= |lines|
    ensures from <= s.next <= |lines|
    decreases |lines| - from
  {
    if from == |lines| then EndOfStream(from)
    else match lines[from]
      case Blank => Scan(lines, from + 1, id)
      case Malformed => Scan(lines, from + 1, id)
      case Parsed(data) =>
        if !data.Obj? then NonObject(from + 1)
        else if IdMatches(GetOrNull(data, "id"), id) then Response(data, from + 1)
        else Scan(lines, from + 1, id)
  }

  /**
   * The search returns the first object whose id equals the request id, having
   * skipped every earlier line; it fails at the end of the output only when every
   * remaining line is skipped, and at a non-object line only when every earlier
   * one is.
   */
  lemma {:induction false} ScanFindsFirst(lines: seq<Line>, from: nat, id: int)
    requires from <= |lines|
    ensures var s := Scan(lines, from, id);
      && (s.EndOfStream? <==> s.next == |lines| && forall k | from <= k < |lines| :: Skipped(lines[k], id))
      && (!s.EndOfStream? ==> from < s.next && forall k | from <= k < s.next - 1 :: Skipped(lines[k], id))
      && (s.Response? ==> lines[s.next - 1] == Parsed(s.response) && s.response.Obj?
                          && IdMatches(GetOrNull(s.response, "id"), id))
      && (s.NonObject? ==> lines[s.next - 1].Parsed? && !lines[s.next - 1].value.Obj?)
    decreases |lines| - from
  {
    if from < |lines| && Skipped(lines[from], id) {
      ScanFindsFirst(lines, from + 1, id);
    }
  }

  /** The outcome of a search: the response, or the failure that ends it. */
  function Reply(s: ScanEnd): Result<Json, Failure>
  {
    match s
    case Response(response, _) => Ok(response)
    case EndOfStream(_) => Err(ProcessClosed)
    case NonObject(_) => Err(NotAnObject)
  }

  /** What a sequence of exchanges did: the outcome, what it wrote, where it left the cursor, the last id used. */
  datatype Exchange = Exchange(outcome: Result<Json, Failure>, written: seq<Json>, next: nat, lastId: int)

  /** One `_send_request`: take the next id, write the request, read up to its response. */
  function RequestRun(name: string, params: Json, lines: seq<Line>, from: nat, id0: int): (x: Exchange)
    requires from <= |lines|
    ensures from <= x.next <= |lines| && x.lastId == id0 + 1
    ensures x.written == [RequestObject(name, id0 + 1, params)]
  {
    var s := Scan(lines, from, id0 + 1);
    Exchange(Reply(s), [RequestObject(name, id0 + 1, params)], s.next, id0 + 1)
  }

  /**
   * `_initialize`: the `initialize` request; on success the `initialized`
   * notification; then, when a key is configured, the login request.
   * The outcome `Ok(Null)` stands for returning normally.
   */
  function Handshake(lines: seq<Line>, from: nat, id0: int, apiKey: Option<string>): (h: Exchange)
    requires from <= |lines|
    ensures from <= h.next <= |lines|
  {
    var init := RequestRun("initialize", InitializeParams, lines, from, id0);
    if init.outcome.Err? then init
    else if Has(init.outcome.value, "error") then
      init.(outcome := Err(InitializeFailed(GetOrNull(init.outcome.value, "error"))))
    else
      var written := init.written + [NotificationObject("initialized", Empty)];
      if !KeySet(apiKey) then Exchange(Ok(Null), written, init.next, init.lastId)
      else
        var auth := RequestRun("account/login/start", LoginParams(apiKey.value), lines, init.next, init.lastId);
        var outcome :=
          if auth.outcome.Err? then auth.outcome
          else if Has(auth.outcome.value, "error") then Err(AuthFailed(GetOrNull(auth.outcome.value, "error")))
          else Ok(Null);
        Exchange(outcome, written + auth.written, auth.next, auth.lastId)
  }

  /** The requests a handshake writes, in order, and the ids they use. */
  lemma HandshakeWrites(lines: seq<Line>, from: nat, id0: int, apiKey: Option<string>)
    requires from <= |lines|
    ensures var h := Handshake(lines, from, id0, apiKey);
      && 1 <= |h.written| <= 3
      && h.written[0] == RequestObject("initialize", id0 + 1, InitializeParams)
      && (|h.written| >= 2 ==> h.written[1] == NotificationObject("initialized", Empty))
      && (|h.written| == 3 <==> KeySet(apiKey) && |h.written| >= 2)
      && (|h.written| == 3 ==> h.written[2] == RequestObject("account/login/start", id0 + 2, LoginParams(apiKey.value)))
      && h.lastId == (if |h.written| == 3 then id0 + 2 else id0 + 1)
  {
  }

  /**
   * The handshake succeeds exactly when the initialize response has no error and,
   * with a key configured, the login response has none either; an initialize
   * error stops it before the notification is sent.
   */
  lemma HandshakeOutcome(lines: seq<Line>, from: nat, id0: int, apiKey: Option<string>)
    requires from <= |lines|
    ensures var h := Handshake(lines, from, id0, apiKey);
      var init := Scan(lines, from, id0 + 1);
      && (init.Response? && Has(init.response, "error") ==>
            h.outcome == Err(InitializeFailed(GetOrNull(init.response, "error"))) && |h.written| == 1)
      && (!init.Response? ==> h.outcome == Reply(init) && |h.written| == 1)
      && (h.outcome.Ok? <==>
            init.Response? && !Has(init.response, "error")
            && (KeySet(apiKey) ==>
                  var auth := Scan(lines, init.next, id0 + 2);
                  auth.Response? && !Has(auth.response, "error")))
  {
  }

  /** The `thread_*` error mapping: an `error` member fails, otherwise the `result` (default `{}`). */
  function RpcResult(name: string, reply: Result<Json, Failure>): (r: Result<Json, Failure>)
    ensures r.Ok? <==> reply.Ok? && !Has(reply.value, "error")
    ensures reply.Err? ==> r == reply
    ensures reply.Ok? && Has(reply.value, "error") ==> r == Err(RequestFailed(name, GetOrNull(reply.value, "error")))
    ensures r.Ok? ==> r.value == GetOr(reply.value, "result", Empty)
  {
    if reply.Err? then reply
    else if Has(reply.value, "error") then Err(RequestFailed(name, GetOrNull(reply.value, "error")))
    else Ok(GetOr(reply.value, "result", Empty))
  }

  /**
   * A `thread_*` operation on a connected client (`connect` false) or on one
   * that first performs the handshake (`connect` true).
   */
  function CallRun(name: string, params: Json, lines: seq<Line>, from: nat, id0: int,
                   connect: bool, apiKey: Option<string>): (x: Exchange)
    requires from <= |lines|
    ensures from <= x.next <= |lines|
  {
    if !connect then
      var run := RequestRun(name, params, lines, from, id0);
      run.(outcome := RpcResult(name, run.outcome))
    else
      var h := Handshake(lines, from, id0, apiKey);
      if h.outcome.Err? then h
      else
        var run := RequestRun(name, params, lines, h.next, h.lastId);
        Exchange(RpcResult(name, run.outcome), h.written + run.written, run.next, run.lastId)
  }

  // ---------------------------------------------------------------------------
  // The turn stream
  // ---------------------------------------------------------------------------

  /** Why the turn stream stopped. */
  datatype StreamEnd =
    | Completed                   // after yielding a `turn/completed` notification
    | StartFailed                 // the turn/start response carried an error
    | Closed                      // end of stream
    | BadLine                     // a parsed line that is not an object
    | ConnectFailed(failure: Failure)

  /** What the stream yielded, why it stopped, and the first unread line. */
  datatype TurnRun = TurnRun(yielded: seq<Json>, end: StreamEnd, next: nat)
  {
    function Prepend(event: Json): TurnRun
    {
      TurnRun([event] + yielded, end, next)
    }

    function PrependAll(events: seq<Json>): TurnRun
    {
      TurnRun(events + yielded, end, next)
    }
  }

  lemma PrependAllTwice(run: TurnRun, first: seq<Json>, second: seq<Json>)
    ensures run.PrependAll(first).PrependAll(second) == run.PrependAll(second + first)
  {
    assert second + (first + run.yielded) == (second + first) + run.yielded;
  }

  /** The event yielded when the output ends during a turn. */
  const ClosedEvent: Json := Obj([("type", Str("error")), ("message", Str("App-server closed"))])

  /** The event yielded when the turn/start response carries an error. */
  function StartErrorEvent(error: Json): Json
  {
    Obj([("type", Str("error")), ("error", error)])
  }

  /** The event yielded for the turn/start response: its `result.turn` (default `{}`). */
  function TurnStartedEvent(response: Json): Json
  {
    Obj([("type", Str("turn.started")), ("turn", GetOr(GetOr(response, "result", Empty), "turn", Empty))])
  }

  predicate IsTurnCompleted(data: Json)
  {
    GetOr(data, "method", Str("")) == Str("turn/completed")
  }

  /** The read loop of `turn_start_stream` from line `from`, for the request `id`. */
  function TurnStream(lines: seq<Line>, from: nat, id: int): (run: TurnRun)
    requires from <= |lines|
    ensures from <= run.next <= |lines|
    decreases |lines| - from
  {
    if from == |lines| then TurnRun([ClosedEvent], Closed, from)
    else match lines[from]
      case Blank => TurnStream(lines, from + 1, id)
      case Malformed => TurnStream(lines, from + 1, id)
      case Parsed(data) =>
        if !data.Obj? then TurnRun([], BadLine, from + 1)
        else if IdMatches(GetOrNull(data, "id"), id) then
          if Has(data, "error") then TurnRun([StartErrorEvent(GetOrNull(data, "error"))], StartFailed, from + 1)
          else TurnStream(lines, from + 1, id).Prepend(TurnStartedEvent(data))
        else if IsTurnCompleted(data) then TurnRun([data], Completed, from + 1)
        else TurnStream(lines, from + 1, id).Prepend(data)
  }

  /** The events one line contributes to the stream. */
  function LineEvents(line: Line, id: int): seq<Json>
  {
    match line
    case Parsed(data) =>
      if !data.Obj? then []
      else if IdMatches(GetOrNull(data, "id"), id) then
        if Has(data, "error") then [StartErrorEvent(GetOrNull(data, "error"))] else [TurnStartedEvent(data)]
      else [data]
    case _ => []
  }

  /** Whether, and why, the stream stops at one line. */
  function LineEnd(line: Line, id: int): Option<StreamEnd>
  {
    match line
    case Parsed(data) =>
      if !data.Obj? then Some(BadLine)
      else if IdMatches(GetOrNull(data, "id"), id) then
        if Has(data, "error") then Some(StartFailed) else None
      else if IsTurnCompleted(data) then Some(Completed)
      else None
    case _ => None
  }

  /** The events of consecutive lines, in order. */
  function AllLineEvents(lines: seq<Line>, id: int): seq<Json>
  {
    if lines == [] then [] else LineEvents(lines[0], id) + AllLineEvents(lines[1..], id)
  }

  lemma {:induction false} AllLineEventsAppend(a: seq<Line>, b: seq<Line>, id: int)
    ensures AllLineEvents(a + b, id) == AllLineEvents(a, id) + AllLineEvents(b, id)
  {
    if a == [] {
      assert a + b == b;
    } else {
      assert (a + b)[1..] == a[1..] + b;
      AllLineEventsAppend(a[1..], b, id);
    }
  }

  /** One step of the stream: a line either stops it, with its own events, or adds its events in front of the rest. */
  lemma TurnStreamStep(lines: seq<Line>, from: nat, id: int)
    requires from < |lines|
    ensures var line := lines[from];
      && (LineEnd(line, id).Some? ==>
            TurnStream(lines, from, id) == TurnRun(LineEvents(line, id), LineEnd(line, id).value, from + 1))
      && (LineEnd(line, id).None? ==>
            TurnStream(lines, from, id) == TurnStream(lines, from + 1, id).PrependAll(LineEvents(line, id)))
  {
    match lines[from]
    case Blank =>
      assert LineEvents(Blank, id) == [];
    case Malformed =>
      assert LineEvents(Malformed, id) == [];
    case Parsed(data) =>
  }

  /**
   * `run` is the stream from `from` told line by line: the concatenation of what
   * each line yields, up to the first line that stops it; if no line stops it,
   * the output runs out and it adds exactly one "App-server closed" event.
   */
  predicate ByLines(lines: seq<Line>, from: nat, id: int, run: TurnRun)
    requires from <= |lines|
  {
    && (run.end == Closed ==>
          run.next == |lines| && run.yielded == AllLineEvents(lines[from..], id) + [ClosedEvent]
          && forall k {:trigger LineEnd(lines[k], id)} | from <= k < |lines| :: LineEnd(lines[k], id) == None)
    && (run.end != Closed ==>
          from < run.next <= |lines| && run.yielded == AllLineEvents(lines[from..run.next], id)
          && LineEnd(lines[run.next - 1], id) == Some(run.end)
          && forall k {:trigger LineEnd(lines[k], id)} | from <= k < run.next - 1 :: LineEnd(lines[k], id) == None)
  }

  /** The stream is accounted for line by line, from any starting line. */
  lemma {:induction false} TurnStreamLineByLine(lines: seq<Line>, from: nat, id: int)
    requires from <= |lines|
    ensures ByLines(lines, from, id, TurnStream(lines, from, id))
    decreases |lines| - from
  {
    if from < |lines| {
      TurnStreamStep(lines, from, id);
      var line := lines[from];
      if LineEnd(line, id).None? {
        TurnStreamLineByLine(lines, from + 1, id);
        PassingLineByLines(lines, from, id, TurnStream(lines, from + 1, id));
      } else {
        assert lines[from..from + 1] == [line];
        assert AllLineEvents([line], id) == LineEvents(line, id);
      }
    }
  }

  /** A line that does not stop the stream adds its events in front of the rest. */
  lemma PassingLineByLines(lines: seq<Line>, from: nat, id: int, rest: TurnRun)
    requires from < |lines| && LineEnd(lines[from], id).None?
    requires ByLines(lines, from + 1, id, rest)
    ensures ByLines(lines, from, id, rest.PrependAll(LineEvents(lines[from], id)))
  {
    var last := if rest.end == Closed then |lines| else rest.next - 1;
    NoStopBefore(lines, from, id, last);
    if rest.end == Closed {
      PassingToClosed(lines, from, id, rest);
    } else {
      PassingToStop(lines, from, id, rest);
    }
  }

  lemma NoStopBefore(lines: seq<Line>, from: nat, id: int, last: nat)
    requires from < |lines| && last <= |lines| && LineEnd(lines[from], id).None?
    requires forall k {:trigger LineEnd(lines[k], id)} | from + 1 <= k < last :: LineEnd(lines[k], id) == None
    ensures forall k {:trigger LineEnd(lines[k], id)} | from <= k < last :: LineEnd(lines[k], id) == None
  {
  }

  lemma PassingToClosed(lines: seq<Line>, from: nat, id: int, rest: TurnRun)
    requires from < |lines| && rest.end == Closed
    requires rest.yielded == AllLineEvents(lines[from + 1..], id) + [ClosedEvent]
    ensures LineEvents(lines[from], id) + rest.yielded == AllLineEvents(lines[from..], id) + [ClosedEvent]
  {
    var line := lines[from];
    assert lines[from..] == [line] + lines[from + 1..];
    AllLineEventsAppend([line], lines[from + 1..], id);
    assert AllLineEvents([line], id) == LineEvents(line, id);
  }

  lemma PassingToStop(lines: seq<Line>, from: nat, id: int, rest: TurnRun)
    requires from < rest.next <= |lines|
    requires rest.yielded == AllLineEvents(lines[from + 1..rest.next], id)
    ensures LineEvents(lines[from], id) + rest.yielded == AllLineEvents(lines[from..rest.next], id)
  {
    var line := lines[from];
    assert lines[from..rest.next] == [line] + lines[from + 1..rest.next];
    AllLineEventsAppend([line], lines[from + 1..rest.next], id);
    assert AllLineEvents([line], id) == LineEvents(line, id);
  }

  /** A stream that a line stopped ends with that line's events. */
  lemma StoppedRunEndsWithLastLine(lines: seq<Line>, from: nat, id: int, run: TurnRun)
    requires from <= |lines| && ByLines(lines, from, id, run) && run.end != Closed
    ensures from < run.next <= |lines|
    ensures run.yielded == AllLineEvents(lines[from..run.next - 1], id) + LineEvents(lines[run.next - 1], id)
  {
    var last := lines[run.next - 1];
    assert lines[from..run.next] == lines[from..run.next - 1] + [last];
    AllLineEventsAppend(lines[from..run.next - 1], [last], id);
    assert AllLineEvents([last], id) == LineEvents(last, id);
  }

  /** A stream that a line stopped ends at that line, and its last event is that line's single event when it has one. */
  lemma StreamEndsAtStoppingLine(lines: seq<Line>, from: nat, id: int)
    requires from <= |lines|
    ensures var run := TurnStream(lines, from, id);
      run.end != Closed ==>
        && from < run.next <= |lines|
        && var last := lines[run.next - 1];
        && LineEnd(last, id) == Some(run.end)
        && (|LineEvents(last, id)| == 1 ==>
              |run.yielded| >= 1 && run.yielded[|run.yielded| - 1] == LineEvents(last, id)[0])
  {
    var run := TurnStream(lines, from, id);
    TurnStreamLineByLine(lines, from, id);
    if run.end != Closed {
      StoppedRunEndsWithLastLine(lines, from, id, run);
    }
  }

  /** The stream stops right after yielding a `turn/completed` notification. */
  lemma StopsAfterTurnCompleted(lines: seq<Line>, from: nat, id: int)
    requires from <= |lines|
    ensures var run := TurnStream(lines, from, id);
      run.end == Completed ==> |run.yielded| >= 1 && IsTurnCompleted(run.yielded[|run.yielded| - 1])
  {
    var run := TurnStream(lines, from, id);
    StreamEndsAtStoppingLine(lines, from, id);
    if run.end == Completed {
      CompletedLine(lines[run.next - 1], id);
    }
  }

  /** The only line that completes the turn is a turn/completed notification, which is yielded. */
  lemma CompletedLine(line: Line, id: int)
    requires LineEnd(line, id) == Some(Completed)
    ensures line.Parsed? && IsTurnCompleted(line.value) && LineEvents(line, id) == [line.value]
  {
  }

  /** The stream fails to start only at the response to its own request, and then ends with that response's error. */
  lemma StartErrorEndsStream(lines: seq<Line>, from: nat, id: int)
    requires from <= |lines|
    ensures var run := TurnStream(lines, from, id);
      run.end == StartFailed ==>
        && from < run.next && lines[run.next - 1].Parsed?
        && var data := lines[run.next - 1].value;
        && IdMatches(GetOrNull(data, "id"), id) && Has(data, "error")
        && |run.yielded| >= 1 && run.yielded[|run.yielded| - 1] == StartErrorEvent(GetOrNull(data, "error"))
  {
    var run := TurnStream(lines, from, id);
    StreamEndsAtStoppingLine(lines, from, id);
    if run.end == StartFailed {
      StartFailedLine(lines[run.next - 1], id);
    }
  }

  /** The only line that fails the start is the response to the request, carrying an error. */
  lemma StartFailedLine(line: Line, id: int)
    requires LineEnd(line, id) == Some(StartFailed)
    ensures line.Parsed? && IdMatches(GetOrNull(line.value, "id"), id) && Has(line.value, "error")
    ensures LineEvents(line, id) == [StartErrorEvent(GetOrNull(line.value, "error"))]
  {
  }

  /** The turn/start request with the given id. */
  function TurnStartRequest(id: int, threadId: string, prompt: string, model: Option<string>): Json
  {
    RequestObject("turn/start", id, TurnStartParams(threadId, prompt, model))
  }

  /** `_ensure_connected` as the output sees it: nothing for a live client, the handshake for a new process. */
  function Connect(lines: seq<Line>, from: nat, id0: int, connect: bool, apiKey: Option<string>): (c: Exchange)
    requires from <= |lines|
    ensures from <= c.next <= |lines|
  {
    if connect then Handshake(lines, from, id0, apiKey) else Exchange(Ok(Null), [], from, id0)
  }

  // ---------------------------------------------------------------------------
  // The client
  // ---------------------------------------------------------------------------

  class Client {
    var process: Process?
    var requestId: int
    var initialized: bool
    const env: Option<map<string, string>>
    const workingDir: Option<string>

    constructor (env: Option<map<string, string>>, workingDir: Option<string>)
      ensures process == null && requestId == 0 && !initialized
      ensures this.env == env && this.workingDir == workingDir
    {
      process := null;
      requestId := 0;
      initialized := false;
      this.env := env;
      this.workingDir := workingDir;
    }

    /** `is_alive()`: a process is present and has not exited. */
    predicate IsAlive()
      reads this, process
    {
      process != null && process.returnCode.None?
    }

    /** `_send_request`. */
    method SendRequest(name: string, params: Json) returns (r: Result<Json, Failure>)
      requires process != null && process.Valid()
      modifies this, process
      ensures process == old(process) && process.Valid() && process.returnCode == old(process.returnCode)
      ensures initialized == old(initialized)
      ensures var run := RequestRun(name, params, process.stdout, old(process.cursor), old(requestId));
        && r == run.outcome && requestId == run.lastId
        && process.stdin == old(process.stdin) + run.written && process.cursor == run.next
    {
      requestId := requestId + 1;
      var id := requestId;
      process.Write(RequestObject(name, id, params));
      ghost var start := process.cursor;
      while true
        invariant process.Valid() && start <= process.cursor
        invariant Scan(process.stdout, process.cursor, id) == Scan(process.stdout, start, id)
        invariant process.stdin == old(process.stdin) + [RequestObject(name, id, params)]
        invariant process.returnCode == old(process.returnCode)
        modifies process
        decreases |process.stdout| - process.cursor
      {
        var line := process.ReadLine();
        match line {
          case None =>
            return Err(ProcessClosed);
          case Some(Blank) =>
          case Some(Malformed) =>
          case Some(Parsed(data)) =>
            if !data.Obj? {
              return Err(NotAnObject);
            }
            if IdMatches(GetOrNull(data, "id"), id) {
              return Ok(data);
            }
        }
      }
    }

    /** `_send_notification`. */
    method SendNotification(name: string, params: Json)
      requires process != null
      modifies process
      ensures process.stdin == old(process.stdin) + [NotificationObject(name, params)]
      ensures process.cursor == old(process.cursor) && process.returnCode == old(process.returnCode)
    {
      process.Write(NotificationObject(name, params));
    }

    /** `_initialize`: `initialized` is set only once the whole handshake succeeded. */
    method Initialize(apiKey: Option<string>) returns (r: Result<Json, Failure>)
      requires process != null && process.Valid()
      modifies this, process
      ensures process == old(process) && process.Valid() && process.returnCode == old(process.returnCode)
      ensures var h := Handshake(process.stdout, old(process.cursor), old(requestId), apiKey);
        && r == h.outcome && requestId == h.lastId
        && process.stdin == old(process.stdin) + h.written && process.cursor == h.next
        && initialized == (r.Ok? || old(initialized))
    {
      var response := SendRequest("initialize", InitializeParams);
      if response.Err? {
        return response;
      }
      if Has(response.value, "error") {
        return Err(InitializeFailed(GetOrNull(response.value, "error")));
      }
      SendNotification("initialized", Empty);
      if KeySet(apiKey) {
        var auth := SendRequest("account/login/start", LoginParams(apiKey.value));
        if auth.Err? {
          return auth;
        }
        if Has(auth.value, "error") {
          return Err(AuthFailed(GetOrNull(auth.value, "error")));
        }
      }
      initialized := true;
      return Ok(Null);
    }

    /**
     * `_ensure_connected`: nothing when the process is alive; otherwise the
     * spawned process replaces it (even if the handshake then fails).
     */
    method EnsureConnected(spawn: Option<Process>, apiKey: Option<string>) returns (r: Result<Json, Failure>)
      requires process != null ==> process.Valid()
      requires spawn.Some? ==> spawn.value.Valid()
      modifies this, Spawned(spawn)
      ensures old(IsAlive()) ==> r == Ok(Null) && unchanged(this) && unchanged(Spawned(spawn))
      ensures !old(IsAlive()) && spawn.None? ==> r == Err(SpawnFailed) && unchanged(this)
      ensures !old(IsAlive()) && spawn.Some? ==>
        var p := spawn.value;
        var h := Handshake(p.stdout, old(p.cursor), old(requestId), apiKey);
        && process == p && p.Valid() && p.returnCode == old(p.returnCode)
        && r == h.outcome && requestId == h.lastId
        && p.stdin == old(p.stdin) + h.written && p.cursor == h.next
        && initialized == (r.Ok? || old(initialized))
    {
      if process != null && process.returnCode.None? {
        return Ok(Null);
      }
      if spawn.None? {
        return Err(SpawnFailed);
      }
      process := spawn.value;
      r := Initialize(apiKey);
    }

    /** The shared body of the `thread_*` operations. */
    method Call(name: string, params: Json, spawn: Option<Process>, apiKey: Option<string>)
      returns (r: Result<Json, Failure>)
      requires process != null ==> process.Valid()
      requires spawn.Some? ==> spawn.value.Valid()
      modifies this, process, Spawned(spawn)
      ensures !old(IsAlive()) && spawn.None? ==> r == Err(SpawnFailed) && unchanged(this)
      ensures old(IsAlive()) || spawn.Some? ==>
        var p := if old(IsAlive()) then old(process) else spawn.value;
        var x := CallRun(name, params, p.stdout, old(p.cursor), old(requestId), !old(IsAlive()), apiKey);
        && process == p && p.Valid() && p.returnCode == old(p.returnCode)
        && r == x.outcome && requestId == x.lastId
        && p.stdin == old(p.stdin) + x.written && p.cursor == x.next
        && initialized == (old(initialized)
                           || (!old(IsAlive()) && Handshake(p.stdout, old(p.cursor), old(requestId), apiKey).outcome.Ok?))
    {
      var connected := EnsureConnected(spawn, apiKey);
      if connected.Err? {
        return connected;
      }
      var reply := SendRequest(name, params);
      r := RpcResult(name, reply);
    }

    /** `thread_start`. */
    method ThreadStart(model: Option<string>, spawn: Option<Process>, apiKey: Option<string>)
      returns (r: Result<Json, Failure>)
      requires process != null ==> process.Valid()
      requires spawn.Some? ==> spawn.value.Valid()
      modifies this, process, Spawned(spawn)
      ensures !old(IsAlive()) && spawn.None? ==> r == Err(SpawnFailed) && unchanged(this)
      ensures old(IsAlive()) || spawn.Some? ==>
        var p := if old(IsAlive()) then old(process) else spawn.value;
        var x := CallRun("thread/start", ThreadStartParams(model), p.stdout, old(p.cursor), old(requestId),
                         !old(IsAlive()), apiKey);
        && process == p && p.Valid() && p.returnCode == old(p.returnCode)
        && r == x.outcome && requestId == x.lastId
        && p.stdin == old(p.stdin) + x.written && p.cursor == x.next
        && initialized == (old(initialized)
                           || (!old(IsAlive()) && Handshake(p.stdout, old(p.cursor), old(requestId), apiKey).outcome.Ok?))
    {
      r := Call("thread/start", ThreadStartParams(model), spawn, apiKey);
    }

    /** `thread_resume`. */
    method ThreadResume(threadId: string, spawn: Option<Process>, apiKey: Option<string>)
      returns (r: Result<Json, Failure>)
      requires process != null ==> process.Valid()
      requires spawn.Some? ==> spawn.value.Valid()
      modifies this, process, Spawned(spawn)
      ensures !old(IsAlive()) && spawn.None? ==> r == Err(SpawnFailed) && unchanged(this)
      ensures old(IsAlive()) || spawn.Some? ==>
        var p := if old(IsAlive()) then old(process) else spawn.value;
        var x := CallRun("thread/resume", ThreadResumeParams(threadId), p.stdout, old(p.cursor), old(requestId),
                         !old(IsAlive()), apiKey);
        && process == p && p.Valid() && p.returnCode == old(p.returnCode)
        && r == x.outcome && requestId == x.lastId
        && p.stdin == old(p.stdin) + x.written && p.cursor == x.next
        && initialized == (old(initialized)
                           || (!old(IsAlive()) && Handshake(p.stdout, old(p.cursor), old(requestId), apiKey).outcome.Ok?))
    {
      r := Call("thread/resume", ThreadResumeParams(threadId), spawn, apiKey);
    }

    /** `thread_list`; the page size defaults to 50 and there is no cursor unless one is given. */
    method ThreadList(spawn: Option<Process>, apiKey: Option<string>, limit: int := 50, cursor: Option<string> := None)
      returns (r: Result<Json, Failure>)
      requires process != null ==> process.Valid()
      requires spawn.Some? ==> spawn.value.Valid()
      modifies this, process, Spawned(spawn)
      ensures !old(IsAlive()) && spawn.None? ==> r == Err(SpawnFailed) && unchanged(this)
      ensures old(IsAlive()) || spawn.Some? ==>
        var p := if old(IsAlive()) then old(process) else spawn.value;
        var x := CallRun("thread/list", ThreadListParams(limit, cursor), p.stdout, old(p.cursor), old(requestId),
                         !old(IsAlive()), apiKey);
        && process == p && p.Valid() && p.returnCode == old(p.returnCode)
        && r == x.outcome && requestId == x.lastId
        && p.stdin == old(p.stdin) + x.written && p.cursor == x.next
        && initialized == (old(initialized)
                           || (!old(IsAlive()) && Handshake(p.stdout, old(p.cursor), old(requestId), apiKey).outcome.Ok?))
    {
      r := Call("thread/list", ThreadListParams(limit, cursor), spawn, apiKey);
    }

    /** `thread_read`. */
    method ThreadRead(threadId: string, spawn: Option<Process>, apiKey: Option<string>)
      returns (r: Result<Json, Failure>)
      requires process != null ==> process.Valid()
      requires spawn.Some? ==> spawn.value.Valid()
      modifies this, process, Spawned(spawn)
      ensures !old(IsAlive()) && spawn.None? ==> r == Err(SpawnFailed) && unchanged(this)
      ensures old(IsAlive()) || spawn.Some? ==>
        var p := if old(IsAlive()) then old(process) else spawn.value;
        var x := CallRun("thread/read", ThreadReadParams(threadId), p.stdout, old(p.cursor), old(requestId),
                         !old(IsAlive()), apiKey);
        && process == p && p.Valid() && p.returnCode == old(p.returnCode)
        && r == x.outcome && requestId == x.lastId
        && p.stdin == old(p.stdin) + x.written && p.cursor == x.next
        && initialized == (old(initialized)
                           || (!old(IsAlive()) && Handshake(p.stdout, old(p.cursor), old(requestId), apiKey).outcome.Ok?))
    {
      r := Call("thread/read", ThreadReadParams(threadId), spawn, apiKey);
    }

    /**
     * `turn_start_stream`, run until the stream stops: everything it yields, in
     * order, and why it stopped. The request id is taken without the lock.
     */
    method TurnStartStream(threadId: string, prompt: string, model: Option<string>,
                           spawn: Option<Process>, apiKey: Option<string>)
      returns (events: seq<Json>, end: StreamEnd)
      requires process != null ==> process.Valid()
      requires spawn.Some? ==> spawn.value.Valid()
      modifies this, process, Spawned(spawn)
      ensures !old(IsAlive()) && spawn.None? ==> events == [] && end == ConnectFailed(SpawnFailed) && unchanged(this)
      ensures old(IsAlive()) || spawn.Some? ==>
        var p := if old(IsAlive()) then old(process) else spawn.value;
        var c := Connect(p.stdout, old(p.cursor), old(requestId), !old(IsAlive()), apiKey);
        && process == p && p.Valid() && p.returnCode == old(p.returnCode)
        && initialized == (old(initialized) || (!old(IsAlive()) && c.outcome.Ok?))
        && (c.outcome.Err? ==>
              && events == [] && end == ConnectFailed(c.outcome.error)
              && p.cursor == c.next && p.stdin == old(p.stdin) + c.written && requestId == c.lastId)
        && (c.outcome.Ok? ==>
              var run := TurnStream(p.stdout, c.next, c.lastId + 1);
              && events == run.yielded && end == run.end && p.cursor == run.next
              && p.stdin == old(p.stdin) + c.written + [TurnStartRequest(c.lastId + 1, threadId, prompt, model)]
              && requestId == c.lastId + 1)
    {
      var connected := EnsureConnected(spawn, apiKey);
      if connected.Err? {
        return [], ConnectFailed(connected.error);
      }
      events, end := StreamTurn(threadId, prompt, model);
    }

    /** The part of `turn_start_stream` after connecting: write the request, then read the turn. */
    method StreamTurn(threadId: string, prompt: string, model: Option<string>)
      returns (events: seq<Json>, end: StreamEnd)
      requires process != null && process.Valid()
      modifies this, process
      ensures process == old(process) && process.Valid() && process.returnCode == old(process.returnCode)
      ensures requestId == old(requestId) + 1 && initialized == old(initialized)
      ensures process.stdin == old(process.stdin) + [TurnStartRequest(requestId, threadId, prompt, model)]
      ensures var run := TurnStream(process.stdout, old(process.cursor), requestId);
        events == run.yielded && end == run.end && process.cursor == run.next
    {
      requestId := requestId + 1;
      var id := requestId;
      process.Write(TurnStartRequest(id, threadId, prompt, model));
      ghost var start := process.cursor;
      ghost var written := process.stdin;
      events := [];
      while true
        invariant process.Valid() && start <= process.cursor
        invariant TurnStream(process.stdout, process.cursor, id).PrependAll(events) == TurnStream(process.stdout, start, id)
        invariant process.stdin == written && process.returnCode == old(process.returnCode)
        modifies process
        decreases |process.stdout| - process.cursor
      {
        var stop;
        events, stop := NextLine(id, events, start);
        if stop.Some? {
          return events, stop.value;
        }
      }
    }

    /**
     * One iteration of the read loop of `turn_start_stream`: read a line and
     * either stop, with the whole stream from `start` accounted for, or go on
     * with a later cursor.
     */
    method NextLine(id: int, events: seq<Json>, ghost start: nat) returns (extended: seq<Json>, stop: Option<StreamEnd>)
      requires process != null && process.Valid() && start <= process.cursor
      requires TurnStream(process.stdout, process.cursor, id).PrependAll(events) == TurnStream(process.stdout, start, id)
      modifies process
      ensures process.Valid() && process.stdin == old(process.stdin) && process.returnCode == old(process.returnCode)
      ensures stop.None? ==>
        && old(process.cursor) < process.cursor
        && TurnStream(process.stdout, process.cursor, id).PrependAll(extended) == TurnStream(process.stdout, start, id)
      ensures stop.Some? ==> TurnStream(process.stdout, start, id) == TurnRun(extended, stop.value, process.cursor)
    {
      ghost var at := process.cursor;
      var line := process.ReadLine();
      if line.None? {
        return events + [ClosedEvent], Some(Closed);
      }
      TurnStreamStep(process.stdout, at, id);
      PrependAllTwice(TurnStream(process.stdout, process.cursor, id), LineEvents(line.value, id), events);
      extended, stop := HandleLine(line.value, id, events);
    }

    /** One line of the turn stream: what it yields, and whether the stream stops there. */
    method HandleLine(line: Line, id: int, events: seq<Json>) returns (extended: seq<Json>, stop: Option<StreamEnd>)
      ensures extended == events + LineEvents(line, id) && stop == LineEnd(line, id)
    {
      extended := events;
      stop := None;
      match line {
        case Blank =>
        case Malformed =>
        case Parsed(data) =>
          if !data.Obj? {
            return events, Some(BadLine);
          }
          if IdMatches(GetOrNull(data, "id"), id) {
            if Has(data, "error") {
              return events + [StartErrorEvent(GetOrNull(data, "error"))], Some(StartFailed);
            }
            extended := events + [TurnStartedEvent(data)];
          } else {
            extended := events + [data];
            if IsTurnCompleted(data) {
              return extended, Some(Completed);
            }
          }
      }
    }

    /** `close()`: a live process is dropped and the client marked uninitialized; otherwise nothing changes. */
    method Close()
      modifies this
      ensures !IsAlive()
      ensures requestId == old(requestId)
      ensures old(IsAlive()) ==> process == null && !initialized
      ensures !old(IsAlive()) ==> process == old(process) && initialized == old(initialized)
    {
      if process != null && process.returnCode.None? {
        process := null;
        initialized := false;
      }
    }
  }
}
