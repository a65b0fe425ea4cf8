/**
 * The stdio JSON-RPC client (`DebugStdioMCPClient` in client.py): request id
 * stamping, the handshake, and the decoding of one response line into a
 * result or a failure.
 *
 * The server process is an oracle: what one `readline()` yields is a function
 * of everything the client has written to the server's stdin so far.
 */
module Rpc {
  import opened Wrappers
  import opened Json

  /** What one `readline()` under the 30-second `wait_for` produced, already decoded. */
  datatype ReadOutcome =
    | Timeout(exitCode: Option<int>)  // the wait expired; `exitCode` is the process's `returncode` then
    | Eof                             // an empty read: the server closed its stdout
    | Garbled(raw: string)            // a line that `json.loads` rejects
    | Line(message: Json)             // a line that decodes to `message`

  /** Why a request, or the code around it, raised. */
  datatype RpcError =
    | TimedOut                 // "Timeout waiting for MCP response"
    | EmptyResponse            // "Empty response from MCP server"
    | Undecodable(raw: string) // the `json.JSONDecodeError`, re-raised
    | RemoteError(payload: Json) // "MCP Error: ..." for a response carrying `error`
    | WrongShape(value: Json)  // Python's TypeError/AttributeError on a value that is not a dict
    | MissingKey(key: string)  // Python's KeyError

  /** A line written to the server: a request carries an id, a notification does not. */
  datatype WireMessage =
    | Request(id: int, verb: string, params: Json)
    | Notification(verb: string)

  /** The server process, as seen through its stdout. */
  type Server = seq<WireMessage> -> ReadOutcome

  /** The client's state: the `message_id` counter and everything written so far. */
  datatype Conn = Conn(messageId: int, outbox: seq<WireMessage>)

  /** The state after an operation, and what the operation returned or raised. */
  datatype Sent<T> = Sent(conn: Conn, result: Result<T, RpcError>)

  const InitializeMethod := "initialize"
  const InitializedNotification := "notifications/initialized"
  const ListToolsMethod := "tools/list"
  const CallToolMethod := "tools/call"

  /** The `initialize` parameters: protocol version, capabilities and client identity. */
  const InitParams: Json := Obj(map[
    "protocolVersion" := Str("2024-11-05"),
    "capabilities" := Obj(map["tools" := EmptyObject]),
    "clientInfo" := Obj(map["name" := Str("claude-playwright-agent"), "version" := Str("1.0.0")])
  ])

  /**
   * The decision rule of `_send_request`: what one read outcome makes of the
   * request. Only a decoded object without an `error` key succeeds.
   */
  function Classify(o: ReadOutcome): (r: Result<Json, RpcError>)
    ensures r.Success? <==> o.Line? && o.message.Obj? && "error" !in o.message.fields
  {
    match o
    case Timeout(_) => Failure(TimedOut)
    case Eof => Failure(EmptyResponse)
    case Garbled(raw) => Failure(Undecodable(raw))
    case Line(m) =>
      if !m.Obj? then Failure(WrongShape(m))
      else if "error" in m.fields then Failure(RemoteError(m.fields["error"]))
      else Success(Get(m.fields, "result", EmptyObject))
  }

  /** `_send_request`: stamp the next id, write the request, classify the reply. */
  function SendStep(c: Conn, verb: string, params: Json, server: Server): Sent<Json> {
    var id := c.messageId + 1;
    var outbox := c.outbox + [Request(id, verb, Or(params, EmptyObject))];
    Sent(Conn(id, outbox), Classify(server(outbox)))
  }

  /**
   * `_initialize`: `next_id()` is called for a request dict that is never
   * sent, then `initialize` goes out through `_send_request`; on success the
   * `notifications/initialized` notification follows, without an id.
   */
  function InitializeStep(c: Conn, server: Server): Sent<Json> {
    var s := SendStep(Conn(c.messageId + 1, c.outbox), InitializeMethod, InitParams, server);
    if s.result.Failure? then s
    else Sent(Conn(s.conn.messageId, s.conn.outbox + [Notification(InitializedNotification)]), s.result)
  }

  /** Python's `len()` accepts the value: a string, a list or a dict. */
  predicate Sized(v: Json) {
    v.Str? || v.Arr? || v.Obj?
  }

  /**
   * The tools a `tools/list` result yields: its `tools` field, `[]` when
   * absent. The log line takes `len(tools)`, which raises on a value
   * without a length.
   */
  function ToolsOf(v: Json): Result<Json, RpcError> {
    if !v.Obj? then Failure(WrongShape(v))
    else
      var tools := Get(v.fields, "tools", Arr([]));
      if Sized(tools) then Success(tools) else Failure(WrongShape(tools))
  }

  /** `list_tools`: send `tools/list` without parameters, then take the tools out of the result. */
  function ListToolsStep(c: Conn, server: Server): Sent<Json> {
    var s := SendStep(c, ListToolsMethod, Null, server);
    match s.result
    case Failure(f) => Sent(s.conn, Failure(f))
    case Success(v) => Sent(s.conn, ToolsOf(v))
  }

  /**
   * The content extraction of `call_tool`: from a non-empty `content` list,
   * the first element's `text` (or the element itself); otherwise `content`
   * as it is, `[]` when absent.
   */
  function ExtractContent(v: Json): Result<Json, RpcError> {
    if !v.Obj? then Failure(WrongShape(v))
    else
      var content := Get(v.fields, "content", Arr([]));
      if content.Arr? && content.items != [] then
        var first := content.items[0];
        if first.Obj? then Success(Get(first.fields, "text", first)) else Failure(WrongShape(first))
      else Success(content)
  }

  /** `call_tool`: send `tools/call` with the name and arguments, extract the content. */
  function CallToolStep(c: Conn, name: string, arguments: Json, server: Server): Sent<Json> {
    var s := SendStep(c, CallToolMethod, Obj(map["name" := Str(name), "arguments" := arguments]), server);
    match s.result
    case Failure(f) => Sent(s.conn, Failure(f))
    case Success(v) => Sent(s.conn, ExtractContent(v))
  }

  /**
   * Ids on the wire are never reused: the requests written so far carry
   * strictly increasing ids, none above the counter.
   */
  predicate Stamped(c: Conn) {
    (forall i :: 0 <= i < |c.outbox| && c.outbox[i].Request? ==> c.outbox[i].id <= c.messageId)
    && (forall i, j :: 0 <= i < j < |c.outbox| && c.outbox[i].Request? && c.outbox[j].Request? ==>
          c.outbox[i].id < c.outbox[j].id)
  }

  /**
   * Each request moves the counter up by exactly one and goes out stamped with
   * the new value, which is above every id used before.
   */
  lemma SendStamps(c: Conn, verb: string, params: Json, server: Server)
    requires Stamped(c)
    ensures var s := SendStep(c, verb, params, server);
      && s.conn.messageId == c.messageId + 1
      && s.conn.outbox == c.outbox + [Request(s.conn.messageId, verb, Or(params, EmptyObject))]
      && (forall i :: 0 <= i < |c.outbox| && c.outbox[i].Request? ==> c.outbox[i].id < s.conn.messageId)
      && Stamped(s.conn)
  {
  }

  /** A notification carries no id, so appending one keeps the ids fresh. */
  lemma NotificationStamps(c: Conn, verb: string)
    requires Stamped(c)
    ensures Stamped(Conn(c.messageId, c.outbox + [Notification(verb)]))
  {
    var o := c.outbox + [Notification(verb)];
    assert forall i :: 0 <= i < |c.outbox| ==> o[i] == c.outbox[i];
  }

  /**
   * The handshake sends one `initialize` request stamped with the second id
   * drawn, followed on success by the notification, which consumes no id.
   */
  lemma InitializeStamps(c: Conn, server: Server)
    requires Stamped(c)
    ensures var s := InitializeStep(c, server);
      && Stamped(s.conn)
      && s.conn.messageId == c.messageId + 2
      && s.conn.outbox == c.outbox + [Request(c.messageId + 2, InitializeMethod, InitParams)]
           + (if s.result.Success? then [Notification(InitializedNotification)] else [])
  {
    var burnt := Conn(c.messageId + 1, c.outbox);
    assert "protocolVersion" in InitParams.fields;
    SendStamps(burnt, InitializeMethod, InitParams, server);
    var s := SendStep(burnt, InitializeMethod, InitParams, server);
    if s.result.Success? {
      NotificationStamps(s.conn, InitializedNotification);
    }
  }

  /** `list_tools` sends exactly one `tools/list` request, with `{}` as parameters. */
  lemma ListToolsStamps(c: Conn, server: Server)
    requires Stamped(c)
    ensures var s := ListToolsStep(c, server);
      && Stamped(s.conn)
      && s.conn == Conn(c.messageId + 1, c.outbox + [Request(c.messageId + 1, ListToolsMethod, EmptyObject)])
  {
    SendStamps(c, ListToolsMethod, Null, server);
  }

  /** `call_tool` writes one `tools/call` request, stamped with the next id, whatever the reply. */
  lemma CallToolSends(c: Conn, name: string, arguments: Json, server: Server)
    ensures CallToolStep(c, name, arguments, server).conn
      == Conn(c.messageId + 1, c.outbox + [Request(c.messageId + 1, CallToolMethod,
                                                   Obj(map["name" := Str(name), "arguments" := arguments]))])
  {
  }

  /** `call_tool` sends exactly one `tools/call` request whose parameters are exactly `{name, arguments}`. */
  lemma CallToolStamps(c: Conn, name: string, arguments: Json, server: Server)
    requires Stamped(c)
    ensures var s := CallToolStep(c, name, arguments, server);
      && Stamped(s.conn)
      && s.conn == Conn(c.messageId + 1, c.outbox + [Request(c.messageId + 1, CallToolMethod,
                          Obj(map["name" := Str(name), "arguments" := arguments]))])
  {
    SendStamps(c, CallToolMethod, Obj(map["name" := Str(name), "arguments" := arguments]), server);
  }

  /**
   * On a fresh client, id 1 is burnt, `initialize` goes out with id 2, the
   * notification carries no id, and `tools/list` then goes out with id 3.
   */
  lemma FreshHandshake(server: Server)
    ensures var init := InitializeStep(Conn(0, []), server);
      && init.conn.messageId == 2
      && init.conn.outbox[0] == Request(2, InitializeMethod, InitParams)
      && (init.result.Failure? ==> init.conn.outbox == [Request(2, InitializeMethod, InitParams)])
      && (init.result.Success? ==>
            && init.conn.outbox == [Request(2, InitializeMethod, InitParams), Notification(InitializedNotification)]
            && ListToolsStep(init.conn, server).conn.outbox[2] == Request(3, ListToolsMethod, EmptyObject))
  {
  }

  /** A timeout fails the same way whether or not the process has exited; the exit code is not reported. */
  lemma TimeoutIgnoresExitCode(code: Option<int>)
    ensures Classify(Timeout(code)) == Classify(Timeout(None)) == Failure(TimedOut)
  {
  }

  /** A decoded object carrying `error` fails with that payload, even when `result` is present too. */
  lemma ErrorKeyWins(fields: map<string, Json>)
    requires "error" in fields
    ensures Classify(Line(Obj(fields))) == Failure(RemoteError(fields["error"]))
  {
  }

  /** Without `error`, the reply's `result` is returned, or `{}` when it has none. */
  lemma ResultOrEmpty(fields: map<string, Json>)
    requires "error" !in fields
    ensures "result" in fields ==> Classify(Line(Obj(fields))) == Success(fields["result"])
    ensures "result" !in fields ==> Classify(Line(Obj(fields))) == Success(EmptyObject)
  {
  }

  /** The reply's `id` field plays no part: there is no correlation with the request id. */
  lemma ResponseIdIgnored(fields: map<string, Json>, id: Json)
    ensures Classify(Line(Obj(fields["id" := id]))) == Classify(Line(Obj(fields - {"id"})))
  {
    var with := fields["id" := id];
    var without := fields - {"id"};
    assert ("error" in with) == ("error" in without);
    assert ("result" in with) == ("result" in without);
  }

  /**
   * `list_tools` returns the reply's `tools` when it has a length, `[]` when
   * the field is absent, and raises on `null`, a boolean or a number; a
   * `result` that is not an object makes `response.get` raise.
   */
  lemma ListToolsResult(c: Conn, server: Server, fields: map<string, Json>)
    requires server(c.outbox + [Request(c.messageId + 1, ListToolsMethod, EmptyObject)]) == Line(Obj(fields))
    requires "error" !in fields
    ensures var r := ListToolsStep(c, server).result;
      && ("result" !in fields ==> r == Success(Arr([])))
      && ("result" in fields && !fields["result"].Obj? ==> r == Failure(WrongShape(fields["result"])))
      && ("result" in fields && fields["result"].Obj? ==>
            var result := fields["result"].fields;
            && ("tools" !in result ==> r == Success(Arr([])))
            && ("tools" in result && Sized(result["tools"]) ==> r == Success(result["tools"]))
            && ("tools" in result && !Sized(result["tools"]) ==> r == Failure(WrongShape(result["tools"]))))
  {
  }

  /**
   * `_send_request` returns exactly what the reply to its own request
   * classifies as: it raises on a timeout, an empty or undecodable line,
   * a non-object and an `error` reply, and otherwise returns `result` or `{}`.
   */
  lemma SendReply(c: Conn, verb: string, params: Json, server: Server)
    ensures var reply := server(c.outbox + [Request(c.messageId + 1, verb, Or(params, EmptyObject))]);
      SendStep(c, verb, params, server).result == Classify(reply)
  {
  }

  /**
   * The handshake succeeds or fails as the reply to `initialize` (sent with
   * the second id drawn) does, and with that reply's result or failure.
   */
  lemma InitializeReply(c: Conn, server: Server)
    ensures var reply := server(c.outbox + [Request(c.messageId + 2, InitializeMethod, InitParams)]);
      InitializeStep(c, server).result == Classify(reply)
  {
    assert "protocolVersion" in InitParams.fields;
  }

  /** A failed `tools/list` read or an `error` reply makes `list_tools` raise with that failure. */
  lemma ListToolsReply(c: Conn, server: Server)
    ensures var reply := Classify(server(c.outbox + [Request(c.messageId + 1, ListToolsMethod, EmptyObject)]));
      && (reply.Failure? ==> ListToolsStep(c, server).result == Failure(reply.error))
      && (reply.Success? ==> ListToolsStep(c, server).result == ToolsOf(reply.value))
  {
  }

  /**
   * `call_tool` raises with the reply's failure, and otherwise returns the
   * content extracted from the reply's `result` (`{}` when absent).
   */
  lemma CallToolReply(c: Conn, name: string, arguments: Json, server: Server)
    ensures var reply := server(c.outbox + [Request(c.messageId + 1, CallToolMethod,
                                                   Obj(map["name" := Str(name), "arguments" := arguments]))]);
      var r := CallToolStep(c, name, arguments, server).result;
      && (Classify(reply).Failure? ==> r == Failure(Classify(reply).error))
      && (reply.Line? && reply.message.Obj? && "error" !in reply.message.fields ==>
            r == ExtractContent(Get(reply.message.fields, "result", EmptyObject)))
  {
  }

  /** A non-empty `content` list yields its first element's `text`, or that element when it has none. */
  lemma ContentFirstElement(fields: map<string, Json>, first: map<string, Json>, rest: seq<Json>)
    requires "content" in fields && fields["content"] == Arr([Obj(first)] + rest)
    ensures "text" in first ==> ExtractContent(Obj(fields)) == Success(first["text"])
    ensures "text" !in first ==> ExtractContent(Obj(fields)) == Success(Obj(first))
  {
  }

  /** Anything but a non-empty list comes back unchanged, `[]` when `content` is absent. */
  lemma ContentPassedThrough(fields: map<string, Json>)
    requires "content" !in fields || !fields["content"].Arr? || fields["content"].items == []
    ensures ExtractContent(Obj(fields)) == Success(if "content" in fields then fields["content"] else Arr([]))
  {
  }

  /**
   * The client object: the `message_id` counter, the lines written to the
   * server's stdin, and the arguments the server is launched with.
   */
  class Client {
    var messageId: int
    var outbox: seq<WireMessage>
    var browserArgs: seq<string>

    function State(): Conn
      reads this
    {
      Conn(messageId, outbox)
    }

    /** `__init__`: a counter at 0, nothing written, `browser_args or []`. */
    constructor (browserArgs: Option<seq<string>>)
      ensures State() == Conn(0, []) && Stamped(State())
      ensures this.browserArgs == if browserArgs.Some? then browserArgs.value else []
    {
      messageId := 0;
      outbox := [];
      this.browserArgs := if browserArgs.Some? then browserArgs.value else [];
    }

    /** `next_id`: move the counter up by one and return it. */
    method NextId() returns (id: int)
      modifies this`messageId
      ensures messageId == old(messageId) + 1 && id == messageId
    {
      messageId := messageId + 1;
      id := messageId;
    }

    /** `_send_request`. */
    method SendRequest(verb: string, params: Json, server: Server) returns (r: Result<Json, RpcError>)
      requires Stamped(State())
      modifies this`messageId, this`outbox
      ensures Sent(State(), r) == SendStep(old(State()), verb, params, server)
      ensures Stamped(State())
    {
      SendStamps(State(), verb, params, server);
      messageId := messageId + 1;
      outbox := outbox + [Request(messageId, verb, Or(params, EmptyObject))];
      r := Classify(server(outbox));
    }

    /** `_initialize`. */
    method Initialize(server: Server) returns (r: Result<Json, RpcError>)
      requires Stamped(State())
      modifies this`messageId, this`outbox
      ensures Sent(State(), r) == InitializeStep(old(State()), server)
      ensures Stamped(State())
    {
      InitializeStamps(State(), server);
      var _ := NextId();
      r := SendRequest(InitializeMethod, InitParams, server);
      if r.Success? {
        outbox := outbox + [Notification(InitializedNotification)];
      }
    }

    /** `list_tools`. */
    method ListTools(server: Server) returns (r: Result<Json, RpcError>)
      requires Stamped(State())
      modifies this`messageId, this`outbox
      ensures Sent(State(), r) == ListToolsStep(old(State()), server)
      ensures Stamped(State())
    {
      var response := SendRequest(ListToolsMethod, Null, server);
      match response
      case Failure(f) =>
        r := Failure(f);
      case Success(v) =>
        r := ToolsOf(v);
    }

    /** `call_tool`. */
    method CallTool(name: string, arguments: Json, server: Server) returns (r: Result<Json, RpcError>)
      requires Stamped(State())
      modifies this`messageId, this`outbox
      ensures Sent(State(), r) == CallToolStep(old(State()), name, arguments, server)
      ensures Stamped(State())
    {
      var response := SendRequest(CallToolMethod, Obj(map["name" := Str(name), "arguments" := arguments]), server);
      match response
      case Failure(f) =>
        r := Failure(f);
      case Success(v) =>
        r := ExtractContent(v);
    }
  }
}
