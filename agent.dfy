/**
 * The browsing agent (`ClaudePlaywrightAgent.browse` in client.py): the tool
 * catalog conversion and the conversation loop with its 30-turn ceiling.
 */
module Agent {
  import opened Wrappers
  import opened Json
  import opened Text
  import opened Conversation
  import opened Rpc

  /** The loop's ceiling on model calls. */
  const MaxIterations: nat := 30

  /** Python's `str()` on a value that is not a string; its formatting is not modelled. */
  type Render = Json -> string

  /** The world outside one browsing task: the model, the server process, and `str()`. */
  datatype World = World(model: Model, server: Server, render: Render)

  /** The schema a tool gets when it has no `inputSchema`. */
  const DefaultInputSchema: Json :=
    Obj(map["type" := Str("object"), "properties" := EmptyObject, "required" := Arr([])])

  /**
   * What `for tool in tools` goes through. A list yields its elements; an
   * empty dict or string yields nothing; a non-empty dict or string yields
   * strings, on which `tool["name"]` raises. `list_tools` lets nothing else
   * through.
   */
  function CatalogItems(tools: Json): (r: Result<seq<Json>, RpcError>)
    ensures r.Success? <==> tools.Arr? || tools == EmptyObject || tools == Str("")
    ensures tools.Arr? ==> r == Success(tools.items)
    ensures r.Success? && !tools.Arr? ==> r.value == []
  {
    match tools
    case Arr(items) => Success(items)
    case Obj(fields) => if fields == map[] then Success([]) else Failure(WrongShape(tools))
    case Str(s) => if s == "" then Success([]) else Failure(WrongShape(tools))
    case _ => Failure(WrongShape(tools))
  }

  /** One tool in the model's format: `name` copied, `description` and `input_schema` defaulted when absent. */
  function ClaudeToolOf(tool: Json): Result<ToolSchema, RpcError> {
    if !tool.Obj? then Failure(WrongShape(tool))
    else if "name" !in tool.fields then Failure(MissingKey("name"))
    else Success(ToolSchema(tool.fields["name"],
                            Get(tool.fields, "description", Str("")),
                            Get(tool.fields, "inputSchema", DefaultInputSchema)))
  }

  /** The catalog converted tool by tool; the first tool that raises stops the conversion. */
  function ConvertAll(items: seq<Json>): Result<seq<ToolSchema>, RpcError> {
    if items == [] then Success([])
    else
      match ConvertAll(items[..|items| - 1])
      case Failure(f) => Failure(f)
      case Success(done) =>
        match ClaudeToolOf(items[|items| - 1])
        case Failure(f) => Failure(f)
        case Success(t) => Success(done + [t])
  }

  /**
   * The conversion is total on well-formed descriptors and order-preserving:
   * it succeeds exactly when every tool converts, and then yields one entry
   * per tool, in the catalog's order.
   */
  lemma {:induction false} ConvertAllTotal(items: seq<Json>)
    ensures ConvertAll(items).Success? <==> forall i :: 0 <= i < |items| ==> ClaudeToolOf(items[i]).Success?
    ensures ConvertAll(items).Success? ==>
      && |ConvertAll(items).value| == |items|
      && forall i :: 0 <= i < |items| ==> ConvertAll(items).value[i] == ClaudeToolOf(items[i]).value
    decreases |items|
  {
    if items != [] {
      var init := items[..|items| - 1];
      ConvertAllTotal(init);
      assert forall i :: 0 <= i < |init| ==> init[i] == items[i];
    }
  }

  /** Once a prefix of the catalog fails to convert, the whole catalog fails the same way. */
  lemma {:induction false} ConvertAllStopsAtFailure(items: seq<Json>, k: nat)
    requires k <= |items| && ConvertAll(items[..k]).Failure?
    ensures ConvertAll(items) == ConvertAll(items[..k])
    decreases |items| - k
  {
    if k < |items| {
      assert items[..|items| - 1][..k] == items[..k];
      ConvertAllStopsAtFailure(items[..|items| - 1], k);
    } else {
      assert items[..k] == items;
    }
  }

  /**
   * A descriptor with a name converts: the description and the schema are
   * copied when present (whatever their value), `""` and the default schema
   * when absent. A descriptor without a name raises `KeyError`.
   */
  lemma ClaudeToolDefaults(fields: map<string, Json>)
    ensures "name" !in fields ==> ClaudeToolOf(Obj(fields)) == Failure(MissingKey("name"))
    ensures "name" in fields ==>
      var t := ClaudeToolOf(Obj(fields));
      && t.Success?
      && t.value.name == fields["name"]
      && ("description" in fields ==> t.value.description == fields["description"])
      && ("description" !in fields ==> t.value.description == Str(""))
      && ("inputSchema" in fields ==> t.value.inputSchema == fields["inputSchema"])
      && ("inputSchema" !in fields ==> t.value.inputSchema == DefaultInputSchema)
  {
  }

  /** The conversion loop of `browse`, appending to `claude_tools`. */
  method ConvertTools(items: seq<Json>) returns (r: Result<seq<ToolSchema>, RpcError>)
    ensures r == ConvertAll(items)
  {
    var claudeTools: seq<ToolSchema> := [];
    for i := 0 to |items|
      invariant ConvertAll(items[..i]) == Success(claudeTools)
    {
      assert items[..i + 1][..i] == items[..i];
      var t := ClaudeToolOf(items[i]);
      if t.Failure? {
        ConvertAllStopsAtFailure(items, i + 1);
        return Failure(t.error);
      }
      claudeTools := claudeTools + [t.value];
    }
    assert items[..|items|] == items;
    r := Success(claudeTools);
  }

  /** The scan of one reply: `text_content` gathers the text blocks, `tool_calls` the tool uses. */
  method ScanReply(blocks: seq<Block>) returns (text: string, calls: seq<ToolCall>)
    ensures text == Concat(Texts(blocks))
    ensures calls == ToolUses(blocks)
  {
    text, calls := "", [];
    for i := 0 to |blocks|
      invariant text == Concat(Texts(blocks[..i]))
      invariant calls == ToolUses(blocks[..i])
    {
      assert blocks[..i + 1][..i] == blocks[..i];
      var block := blocks[i];
      if block.Text? {
        ghost var before := Texts(blocks[..i]);
        assert Texts(blocks[..i + 1]) == before + [block.text];
        assert (before + [block.text])[..|before|] == before;
        text := text + block.text;
        assert ToolUses(blocks[..i + 1]) == ToolUses(blocks[..i]);
      } else if block.ToolUse? {
        calls := calls + [block.call];
        assert Texts(blocks[..i + 1]) == Texts(blocks[..i]);
      } else {
        assert Texts(blocks[..i + 1]) == Texts(blocks[..i]);
        assert ToolUses(blocks[..i + 1]) == ToolUses(blocks[..i]);
      }
    }
    assert blocks[..|blocks|] == blocks;
  }

  /** `str(v)`: a string is itself, anything else goes through `render`. */
  function PyStr(v: Json, render: Render): string {
    if v.Str? then v.s else render(v)
  }

  /** The texts of the client's exceptions, and the prefix that flags a failed call's result. */
  const TimeoutText := "Timeout waiting for MCP response"
  const EmptyResponseText := "Empty response from MCP server"
  const RemoteErrorPrefix := "MCP Error: "
  const UndecodablePrefix := "invalid JSON: "
  const WrongShapePrefix := "unexpected value: "
  const ErrorPrefix := "Error: "

  /** `str(e)` for a failed tool call. */
  function Describe(f: RpcError, render: Render): string {
    match f
    case TimedOut => TimeoutText
    case EmptyResponse => EmptyResponseText
    case RemoteError(payload) => RemoteErrorPrefix + PyStr(payload, render)
    case Undecodable(raw) => UndecodablePrefix + raw
    case WrongShape(v) => WrongShapePrefix + PyStr(v, render)
    case MissingKey(key) => "'" + key + "'"
  }

  /** The user message carrying one call's `tool_result`: the result as a string, or the error flagged. */
  function ResultMessage(call: ToolCall, r: Result<Json, RpcError>, render: Render): Message {
    match r
    case Success(v) => Message(User, Blocks([ToolResult(call.id, Plain(PyStr(v, render)), false)]))
    case Failure(f) => Message(User, Blocks([ToolResult(call.id, Plain(ErrorPrefix + Describe(f, render)), true)]))
  }

  /** A failing call is reported to the model as an error-flagged result prefixed with `Error: `. */
  lemma FailedCallReported(call: ToolCall, f: RpcError, render: Render)
    ensures ResultMessage(call, Failure(f), render)
      == Message(User, Blocks([ToolResult(call.id, Plain(ErrorPrefix + Describe(f, render)), true)]))
  {
  }

  /** A succeeding call's string result (the usual `text`) is passed on as it is, not flagged. */
  lemma SucceededCallReported(call: ToolCall, s: string, render: Render)
    ensures ResultMessage(call, Success(Str(s)), render) == Message(User, Blocks([ToolResult(call.id, Plain(s), false)]))
  {
  }

  /** The client state after a turn's tool calls, and the messages they appended. */
  datatype Answered = Answered(conn: Conn, messages: seq<Message>)

  /** The turn's tool calls, executed one after another through `call_tool`. */
  function AnswerCalls(c: Conn, calls: seq<ToolCall>, w: World): Answered
    decreases |calls|, 1
  {
    if calls == [] then Answered(c, []) else AnswerFirst(c, calls, w)
  }

  /** The first call is executed and answered, then the rest. */
  function AnswerFirst(c: Conn, calls: seq<ToolCall>, w: World): Answered
    requires calls != []
    decreases |calls|, 0
  {
    var s := CallToolStep(c, calls[0].name, calls[0].input, w.server);
    var rest := AnswerCalls(s.conn, calls[1..], w);
    Answered(rest.conn, [ResultMessage(calls[0], s.result, w.render)] + rest.messages)
  }

  /** `m` is a user message holding a single `tool_result` for `call`. */
  predicate AnswerTo(call: ToolCall, m: Message) {
    && m.role == User && m.content.Blocks? && |m.content.blocks| == 1
    && m.content.blocks[0].ToolResult? && m.content.blocks[0].toolUseId == call.id
  }

  /** The `tools/call` requests that calls made one after another, from counter value `base`, put on the wire. */
  function CallRequests(base: int, calls: seq<ToolCall>): seq<WireMessage> {
    seq(|calls|, i requires 0 <= i < |calls| =>
      Request(base + 1 + i, CallToolMethod, Obj(map["name" := Str(calls[i].name), "arguments" := calls[i].input])))
  }

  /** The requests of a run of calls: the first call's, then the rest's from the next counter value. */
  lemma CallRequestsFirst(base: int, calls: seq<ToolCall>)
    requires calls != []
    ensures CallRequests(base, calls)
      == [Request(base + 1, CallToolMethod, Obj(map["name" := Str(calls[0].name), "arguments" := calls[0].input]))]
         + CallRequests(base + 1, calls[1..])
  {
    var head := Request(base + 1, CallToolMethod, Obj(map["name" := Str(calls[0].name), "arguments" := calls[0].input]));
    var tail := CallRequests(base + 1, calls[1..]);
    assert |CallRequests(base, calls)| == |[head] + tail|;
    forall i | 0 <= i < |calls|
      ensures CallRequests(base, calls)[i] == ([head] + tail)[i]
    {
      if i > 0 {
        assert calls[1..][i - 1] == calls[i];
      }
    }
  }

  /**
   * Every call gets exactly one answer, with its id, in emission order, a
   * failing call included.
   */
  lemma {:induction false} AnswerCallsAnswerEach(c: Conn, calls: seq<ToolCall>, w: World)
    ensures var a := AnswerCalls(c, calls, w);
      && |a.messages| == |calls|
      && forall i :: 0 <= i < |calls| ==> AnswerTo(calls[i], a.messages[i])
    decreases |calls|
  {
    if calls != [] {
      var s := CallToolStep(c, calls[0].name, calls[0].input, w.server);
      AnswerCallsAnswerEach(s.conn, calls[1..], w);
      var a := AnswerCalls(c, calls, w);
      var rest := AnswerCalls(s.conn, calls[1..], w);
      assert a == AnswerFirst(c, calls, w);
      assert a.messages == [ResultMessage(calls[0], s.result, w.render)] + rest.messages;
      forall i | 0 <= i < |calls|
        ensures AnswerTo(calls[i], a.messages[i])
      {
        if i > 0 {
          assert a.messages[i] == rest.messages[i - 1];
          assert calls[1..][i - 1] == calls[i];
        }
      }
    }
  }

  /** What a turn's calls append are user messages only. */
  lemma AnswersFromUser(c: Conn, calls: seq<ToolCall>, w: World)
    ensures var a := AnswerCalls(c, calls, w);
      forall i :: 0 <= i < |a.messages| ==> a.messages[i].role == User
  {
    AnswerCallsAnswerEach(c, calls, w);
  }

  /**
   * The calls go out one after another as `tools/call` requests, in emission
   * order, each with the next id.
   */
  lemma {:induction false} AnswerCallsRequests(c: Conn, calls: seq<ToolCall>, w: World)
    ensures var a := AnswerCalls(c, calls, w);
      && a.conn.messageId == c.messageId + |calls|
      && a.conn.outbox == c.outbox + CallRequests(c.messageId, calls)
    decreases |calls|
  {
    if calls != [] {
      var call := calls[0];
      var s := CallToolStep(c, call.name, call.input, w.server);
      CallToolSends(c, call.name, call.input, w.server);
      AnswerCallsRequests(s.conn, calls[1..], w);
      CallRequestsFirst(c.messageId, calls);
      assert AnswerCalls(c, calls, w) == AnswerFirst(c, calls, w);
      AppendShifted(c.outbox, s.conn.outbox[|c.outbox|], CallRequests(s.conn.messageId, calls[1..]),
                    CallRequests(c.messageId, calls));
    }
  }

  /** Moving one element from the end of a prefix to the front of what follows it. */
  lemma AppendShifted<T>(prefix: seq<T>, x: T, rest: seq<T>, all: seq<T>)
    requires all == [x] + rest
    ensures (prefix + [x]) + rest == prefix + all
  {
  }

  /** The client state just before the `i`-th call of a turn: `i` ids drawn, `i` requests written. */
  function Before(c: Conn, calls: seq<ToolCall>, i: nat): Conn
    requires i <= |calls|
  {
    Conn(c.messageId + i, c.outbox + CallRequests(c.messageId, calls[..i]))
  }

  /** After the first call, the state before the `i`-th call is the state before the rest's `i - 1`-th. */
  lemma BeforeShift(c: Conn, calls: seq<ToolCall>, i: nat, w: World)
    requires 0 < i <= |calls|
    ensures Before(c, calls, i) == Before(CallToolStep(c, calls[0].name, calls[0].input, w.server).conn, calls[1..], i - 1)
  {
    CallToolSends(c, calls[0].name, calls[0].input, w.server);
    assert calls[..i][1..] == calls[1..][..i - 1];
    CallRequestsFirst(c.messageId, calls[..i]);
  }

  /**
   * The `i`-th answer of a turn reports the outcome of the `i`-th call, made
   * on the state the earlier calls left: its result as a string, or
   * `Error: ` and the failure, flagged. A failing call does not stop the
   * calls after it.
   */
  lemma {:induction false} AnswerCallsResults(c: Conn, calls: seq<ToolCall>, w: World)
    ensures var a := AnswerCalls(c, calls, w);
      && |a.messages| == |calls|
      && forall i :: 0 <= i < |calls| ==>
           a.messages[i] == ResultMessage(calls[i], CallToolStep(Before(c, calls, i), calls[i].name, calls[i].input, w.server).result, w.render)
    decreases |calls|
  {
    if calls != [] {
      var s := CallToolStep(c, calls[0].name, calls[0].input, w.server);
      CallToolSends(c, calls[0].name, calls[0].input, w.server);
      AnswerCallsResults(s.conn, calls[1..], w);
      var a := AnswerCalls(c, calls, w);
      var rest := AnswerCalls(s.conn, calls[1..], w);
      assert a == AnswerFirst(c, calls, w);
      assert a.messages == [ResultMessage(calls[0], s.result, w.render)] + rest.messages;
      forall i | 0 <= i < |calls|
        ensures a.messages[i] == ResultMessage(calls[i], CallToolStep(Before(c, calls, i), calls[i].name, calls[i].input, w.server).result, w.render)
      {
        if i == 0 {
          assert calls[..0] == [];
          assert Before(c, calls, 0) == c;
        } else {
          assert a.messages[i] == rest.messages[i - 1];
          assert calls[1..][i - 1] == calls[i];
          BeforeShift(c, calls, i, w);
        }
      }
    }
  }

  /** A turn's calls only add to the wire and move the counter up. */
  lemma AnswerCallsAppend(c: Conn, calls: seq<ToolCall>, w: World)
    ensures var a := AnswerCalls(c, calls, w);
      c.outbox <= a.conn.outbox && c.messageId <= a.conn.messageId
  {
    AnswerCallsRequests(c, calls, w);
  }

  /** The ids on the wire stay fresh across a turn's calls. */
  lemma {:induction false} AnswerCallsStamped(c: Conn, calls: seq<ToolCall>, w: World)
    requires Stamped(c)
    ensures Stamped(AnswerCalls(c, calls, w).conn)
    decreases |calls|
  {
    if calls != [] {
      CallToolStamps(c, calls[0].name, calls[0].input, w.server);
      AnswerCallsStamped(CallToolStep(c, calls[0].name, calls[0].input, w.server).conn, calls[1..], w);
    }
  }

  /** The tool-execution loop of one turn, appending one user message per call. */
  method ExecuteToolCalls(mcp: Client, calls: seq<ToolCall>, w: World) returns (answers: seq<Message>)
    requires Stamped(mcp.State())
    modifies mcp`messageId, mcp`outbox
    ensures Answered(mcp.State(), answers) == AnswerCalls(old(mcp.State()), calls, w)
    ensures Stamped(mcp.State())
  {
    ghost var whole := AnswerCalls(mcp.State(), calls, w);
    answers := [];
    for i := 0 to |calls|
      invariant Stamped(mcp.State())
      invariant AnswerCalls(mcp.State(), calls[i..], w).conn == whole.conn
      invariant answers + AnswerCalls(mcp.State(), calls[i..], w).messages == whole.messages
    {
      ghost var before := mcp.State();
      assert calls[i..][0] == calls[i] && calls[i..][1..] == calls[i + 1..];
      var result := mcp.CallTool(calls[i].name, calls[i].input, w.server);
      var message := ResultMessage(calls[i], result, w.render);
      assert AnswerCalls(before, calls[i..], w).messages
        == [message] + AnswerCalls(mcp.State(), calls[i + 1..], w).messages;
      answers := answers + [message];
    }
  }

  /** How a run of the loop ended. */
  datatype Run = Run(text: string, lastReply: seq<Block>, conn: Conn, messages: seq<Message>, modelCalls: nat)

  /**
   * The `while iteration < max_iterations` loop from iteration `iteration`
   * on. Below the ceiling the model is called on the whole history and its
   * reply appended; `Answer` finishes the turn. At the ceiling the loop ends
   * with the text of the last reply.
   */
  function Turns(tools: seq<ToolSchema>, w: World, c: Conn, messages: seq<Message>,
                 iteration: nat, lastReply: seq<Block>): Run
    decreases MaxIterations - iteration, 1
  {
    if iteration >= MaxIterations then Run(Concat(Texts(lastReply)), lastReply, c, messages, iteration)
    else
      var reply := w.model(tools, messages);
      Answer(tools, w, c, messages + [Message(Assistant, Blocks(reply))], iteration, reply)
  }

  /**
   * The rest of a turn, once `reply` is in the history: without tool calls the
   * loop returns the reply's text; otherwise each call is answered in order
   * and the next iteration starts.
   */
  function Answer(tools: seq<ToolSchema>, w: World, c: Conn, history: seq<Message>,
                  iteration: nat, reply: seq<Block>): Run
    requires iteration < MaxIterations
    decreases MaxIterations - iteration, 0
  {
    var calls := ToolUses(reply);
    if calls == [] then Run(Concat(Texts(reply)), reply, c, history, iteration + 1)
    else
      var a := AnswerCalls(c, calls, w);
      Turns(tools, w, a.conn, history + a.messages, iteration + 1, reply)
  }

  /** The loop started on the task alone. */
  function Session(tools: seq<ToolSchema>, w: World, c: Conn, task: string): Run {
    Turns(tools, w, c, [Message(User, Prompt(task))], 0, [])
  }

  /** The whole of `browse`: handshake, catalog, conversion, then the loop. */
  function BrowseRun(task: string, w: World): Result<Run, RpcError> {
    var init := InitializeStep(Conn(0, []), w.server);
    if init.result.Failure? then Failure(init.result.error)
    else
      var listed := ListToolsStep(init.conn, w.server);
      if listed.result.Failure? then Failure(listed.result.error)
      else
        match CatalogItems(listed.result.value)
        case Failure(f) => Failure(f)
        case Success(items) =>
          match ConvertAll(items)
          case Failure(f) => Failure(f)
          case Success(tools) => Success(Session(tools, w, listed.conn, task))
  }

  /**
   * The loop never calls the model more than `max_iterations` times, calls it
   * at least once when it starts below the ceiling, and always returns the
   * text of the last reply. It ends below the ceiling only on a reply without
   * tool calls.
   */
  lemma {:induction false} TurnsEnd(tools: seq<ToolSchema>, w: World, c: Conn, messages: seq<Message>,
                                    iteration: nat, lastReply: seq<Block>)
    requires iteration <= MaxIterations
    ensures var r := Turns(tools, w, c, messages, iteration, lastReply);
      && iteration <= r.modelCalls <= MaxIterations
      && (iteration < MaxIterations ==> iteration < r.modelCalls)
      && r.text == Concat(Texts(r.lastReply))
      && (r.modelCalls < MaxIterations ==> ToolUses(r.lastReply) == [])
    decreases MaxIterations - iteration
  {
    if iteration < MaxIterations {
      var reply := w.model(tools, messages);
      var history := messages + [Message(Assistant, Blocks(reply))];
      assert Turns(tools, w, c, messages, iteration, lastReply) == Answer(tools, w, c, history, iteration, reply);
      var calls := ToolUses(reply);
      if calls != [] {
        var a := AnswerCalls(c, calls, w);
        TurnsEnd(tools, w, a.conn, history + a.messages, iteration + 1, reply);
      }
    }
  }

  /** From `lo` on, the history holds the reply `reply` followed only by user messages. */
  predicate EndsWithReply(ms: seq<Message>, lo: nat, reply: seq<Block>) {
    exists k :: lo <= k < |ms| && ms[k] == Message(Assistant, Blocks(reply))
      && forall j :: k < j < |ms| ==> ms[j].role == User
  }

  /** A history that ends with the reply ends with it from its last position on. */
  lemma FinalReply(ms: seq<Message>, reply: seq<Block>)
    requires ms != [] && ms[|ms| - 1] == Message(Assistant, Blocks(reply))
    ensures EndsWithReply(ms, |ms| - 1, reply)
  {
  }

  /**
   * The text returned is that of the model's last reply: when the loop calls
   * the model at all, `lastReply` is the last assistant message of the
   * history, and only user messages follow it.
   */
  lemma {:induction false} TurnsLastReply(tools: seq<ToolSchema>, w: World, c: Conn, messages: seq<Message>,
                                          iteration: nat, lastReply: seq<Block>)
    requires iteration < MaxIterations
    ensures var r := Turns(tools, w, c, messages, iteration, lastReply);
      EndsWithReply(r.messages, |messages|, r.lastReply)
    decreases MaxIterations - iteration
  {
    var r := Turns(tools, w, c, messages, iteration, lastReply);
    var reply := w.model(tools, messages);
    var history := messages + [Message(Assistant, Blocks(reply))];
    assert r == Answer(tools, w, c, history, iteration, reply);
    var calls := ToolUses(reply);
    if calls == [] {
      assert r == Run(Concat(Texts(reply)), reply, c, history, iteration + 1);
      assert r.messages == messages + [Message(Assistant, Blocks(r.lastReply))];
      FinalReply(r.messages, r.lastReply);
    } else {
      var a := AnswerCalls(c, calls, w);
      var next := history + a.messages;
      assert r == Turns(tools, w, a.conn, next, iteration + 1, reply);
      if iteration + 1 < MaxIterations {
        TurnsLastReply(tools, w, a.conn, next, iteration + 1, reply);
      } else {
        assert r == Run(Concat(Texts(reply)), reply, a.conn, next, iteration + 1);
        AnswerCallsAnswerEach(c, calls, w);
        assert r.messages[|messages|] == Message(Assistant, Blocks(r.lastReply));
        forall j | |messages| < j < |r.messages|
          ensures r.messages[j].role == User
        {
          assert r.messages[j] == a.messages[j - |history|];
          assert AnswerTo(calls[j - |history|], a.messages[j - |history|]);
        }
        assert |messages| <= |messages| < |r.messages|;
      }
    }
  }

  /** From `start` on, every assistant message is the model's reply to exactly the history before it. */
  predicate RepliesFromModel(tools: seq<ToolSchema>, w: World, ms: seq<Message>, start: nat) {
    forall k :: start <= k < |ms| && ms[k].role == Assistant ==> ms[k].content == Blocks(w.model(tools, ms[..k]))
  }

  /**
   * One turn of the transcript: the model's reply to `messages` followed by
   * user messages only, then whatever later turns append.
   */
  lemma TranscriptStep(tools: seq<ToolSchema>, w: World, messages: seq<Message>, answers: seq<Message>, ms: seq<Message>)
    requires forall i :: 0 <= i < |answers| ==> answers[i].role == User
    requires messages + [Message(Assistant, Blocks(w.model(tools, messages)))] + answers <= ms
    requires RepliesFromModel(tools, w, ms, |messages| + 1 + |answers|)
    ensures messages <= ms
    ensures RepliesFromModel(tools, w, ms, |messages|)
    ensures Replies(ms[|messages|..]) == 1 + Replies(ms[|messages| + 1 + |answers|..])
  {
    var turn := Message(Assistant, Blocks(w.model(tools, messages)));
    var next := messages + [turn] + answers;
    assert ms[..|messages|] == next[..|messages|] == messages;
    forall k | |messages| <= k < |ms| && ms[k].role == Assistant
      ensures ms[k].content == Blocks(w.model(tools, ms[..k]))
    {
      if k < |next| {
        assert ms[k] == next[k];
      }
    }
    NoReplies(answers);
    assert ms[|messages|..] == [turn] + answers + ms[|next|..];
    RepliesAppend([turn] + answers, ms[|next|..]);
    RepliesAppend([turn], answers);
    assert [turn][..0] == [];
  }

  /**
   * The loop only appends to the history: one assistant message per model
   * call, each the reply to the history before it, and otherwise the user
   * messages answering tool calls.
   */
  lemma {:induction false} TurnsTranscript(tools: seq<ToolSchema>, w: World, c: Conn, messages: seq<Message>,
                                           iteration: nat, lastReply: seq<Block>)
    requires iteration <= MaxIterations
    ensures var r := Turns(tools, w, c, messages, iteration, lastReply);
      && messages <= r.messages
      && RepliesFromModel(tools, w, r.messages, |messages|)
      && iteration + Replies(r.messages[|messages|..]) == r.modelCalls
    decreases MaxIterations - iteration
  {
    var r := Turns(tools, w, c, messages, iteration, lastReply);
    if iteration < MaxIterations {
      var reply := w.model(tools, messages);
      var history := messages + [Message(Assistant, Blocks(reply))];
      assert r == Answer(tools, w, c, history, iteration, reply);
      var calls := ToolUses(reply);
      if calls == [] {
        assert r == Run(Concat(Texts(reply)), reply, c, history, iteration + 1);
        TranscriptStep(tools, w, messages, [], r.messages);
        assert r.messages[|messages| + 1..] == [];
      } else {
        var a := AnswerCalls(c, calls, w);
        var next := history + a.messages;
        TurnsNext(tools, w, c, messages, iteration, lastReply);
        TurnsTranscript(tools, w, a.conn, next, iteration + 1, reply);
        AnswersFromUser(c, calls, w);
        TranscriptStep(tools, w, messages, a.messages, r.messages);
      }
    } else {
      assert r.messages == messages;
      assert r.messages[|messages|..] == [];
    }
  }

  /** One iteration that asks for tools hands over to the next with the calls answered. */
  lemma TurnsNext(tools: seq<ToolSchema>, w: World, c: Conn, messages: seq<Message>,
                  iteration: nat, lastReply: seq<Block>)
    requires iteration < MaxIterations
    requires ToolUses(w.model(tools, messages)) != []
    ensures var reply := w.model(tools, messages);
      var a := AnswerCalls(c, ToolUses(reply), w);
      Turns(tools, w, c, messages, iteration, lastReply)
        == Turns(tools, w, a.conn, messages + [Message(Assistant, Blocks(reply))] + a.messages, iteration + 1, reply)
  {
    var reply := w.model(tools, messages);
    assert Turns(tools, w, c, messages, iteration, lastReply)
        == Answer(tools, w, c, messages + [Message(Assistant, Blocks(reply))], iteration, reply);
  }

  /** Being a prefix is transitive. */
  lemma PrefixChain<T>(a: seq<T>, b: seq<T>, d: seq<T>)
    requires a <= b && b <= d
    ensures a <= d
  {
    assert a == d[..|a|] by { assert b == d[..|b|]; }
  }

  /** The loop only appends to the wire, and its counter never goes down. */
  lemma {:induction false} TurnsGrows(tools: seq<ToolSchema>, w: World, c: Conn, messages: seq<Message>,
                                      iteration: nat, lastReply: seq<Block>)
    ensures var r := Turns(tools, w, c, messages, iteration, lastReply);
      c.outbox <= r.conn.outbox && c.messageId <= r.conn.messageId
    decreases MaxIterations - iteration
  {
    if iteration < MaxIterations {
      var reply := w.model(tools, messages);
      var calls := ToolUses(reply);
      if calls == [] {
        assert Turns(tools, w, c, messages, iteration, lastReply).conn == c;
      } else {
        var a := AnswerCalls(c, calls, w);
        TurnsNext(tools, w, c, messages, iteration, lastReply);
        var next := messages + [Message(Assistant, Blocks(reply))] + a.messages;
        var r := Turns(tools, w, a.conn, next, iteration + 1, reply);
        AnswerCallsAppend(c, calls, w);
        TurnsGrows(tools, w, a.conn, next, iteration + 1, reply);
        PrefixChain(c.outbox, a.conn.outbox, r.conn.outbox);
        assert Turns(tools, w, c, messages, iteration, lastReply).conn == r.conn;
      }
    }
  }

  /** The ids on the wire stay fresh over the whole loop. */
  lemma {:induction false} TurnsFresh(tools: seq<ToolSchema>, w: World, c: Conn, messages: seq<Message>,
                                      iteration: nat, lastReply: seq<Block>)
    requires Stamped(c)
    ensures Stamped(Turns(tools, w, c, messages, iteration, lastReply).conn)
    decreases MaxIterations - iteration
  {
    if iteration < MaxIterations {
      var reply := w.model(tools, messages);
      var calls := ToolUses(reply);
      if calls == [] {
        assert Turns(tools, w, c, messages, iteration, lastReply).conn == c;
      } else {
        var a := AnswerCalls(c, calls, w);
        TurnsNext(tools, w, c, messages, iteration, lastReply);
        AnswerCallsStamped(c, calls, w);
        TurnsFresh(tools, w, a.conn, messages + [Message(Assistant, Blocks(reply))] + a.messages, iteration + 1, reply);
      }
    }
  }

  /** The wire keeps fresh ids over the whole loop, and the loop only appends to it. */
  lemma TurnsStamped(tools: seq<ToolSchema>, w: World, c: Conn, messages: seq<Message>,
                     iteration: nat, lastReply: seq<Block>)
    requires Stamped(c)
    ensures var r := Turns(tools, w, c, messages, iteration, lastReply);
      Stamped(r.conn) && c.outbox <= r.conn.outbox && c.messageId <= r.conn.messageId
  {
    TurnsGrows(tools, w, c, messages, iteration, lastReply);
    TurnsFresh(tools, w, c, messages, iteration, lastReply);
  }

  /**
   * A model that asks for a tool in every reply is stopped by the ceiling
   * alone: the loop then calls it exactly `max_iterations` times.
   */
  lemma {:induction false} CeilingWhenAlwaysTools(tools: seq<ToolSchema>, w: World, c: Conn, messages: seq<Message>,
                                                  iteration: nat, lastReply: seq<Block>)
    requires iteration <= MaxIterations
    requires forall h :: ToolUses(w.model(tools, h)) != []
    ensures Turns(tools, w, c, messages, iteration, lastReply).modelCalls == MaxIterations
    decreases MaxIterations - iteration
  {
    if iteration < MaxIterations {
      var reply := w.model(tools, messages);
      var history := messages + [Message(Assistant, Blocks(reply))];
      assert Turns(tools, w, c, messages, iteration, lastReply) == Answer(tools, w, c, history, iteration, reply);
      var a := AnswerCalls(c, ToolUses(reply), w);
      CeilingWhenAlwaysTools(tools, w, a.conn, history + a.messages, iteration + 1, reply);
    }
  }

  /** A session started on the task calls the model between once and `max_iterations` times. */
  lemma SessionBounded(tools: seq<ToolSchema>, w: World, c: Conn, task: string)
    ensures var r := Session(tools, w, c, task);
      && 1 <= r.modelCalls <= MaxIterations
      && r.text == Concat(Texts(r.lastReply))
      && [Message(User, Prompt(task))] <= r.messages
  {
    TurnsEnd(tools, w, c, [Message(User, Prompt(task))], 0, []);
    TurnsTranscript(tools, w, c, [Message(User, Prompt(task))], 0, []);
  }

  /**
   * One pass of the loop body: call the model, scan its reply, append it and
   * run its tool calls. The pass either ends the loop with the run the
   * specification predicts, or leaves a state from which the rest of the loop
   * produces the same run.
   */
  method TakeTurn(mcp: Client, tools: seq<ToolSchema>, w: World, messages: seq<Message>,
                  ghost iteration: nat, ghost lastReply: seq<Block>)
      returns (text: string, calls: seq<ToolCall>, history: seq<Message>, reply: seq<Block>)
    requires Stamped(mcp.State())
    requires iteration < MaxIterations
    modifies mcp`messageId, mcp`outbox
    ensures reply == w.model(tools, messages) && text == Concat(Texts(reply)) && calls == ToolUses(reply)
    ensures calls == [] ==>
      Turns(tools, w, old(mcp.State()), messages, iteration, lastReply)
        == Run(text, reply, mcp.State(), history, iteration + 1)
    ensures calls != [] ==>
      Turns(tools, w, old(mcp.State()), messages, iteration, lastReply)
        == Turns(tools, w, mcp.State(), history, iteration + 1, reply)
    ensures Stamped(mcp.State())
  {
    ghost var before := mcp.State();
    reply := w.model(tools, messages);
    text, calls := ScanReply(reply);
    history := messages + [Message(Assistant, Blocks(reply))];
    assert Turns(tools, w, before, messages, iteration, lastReply)
      == Answer(tools, w, before, history, iteration, reply);
    if calls != [] {
      var answers := ExecuteToolCalls(mcp, calls, w);
      history := history + answers;
    }
  }

  /** The conversation loop of `browse`, run on a connected client. */
  method Converse(mcp: Client, tools: seq<ToolSchema>, task: string, w: World) returns (text: string)
    requires Stamped(mcp.State())
    modifies mcp`messageId, mcp`outbox
    ensures text == Session(tools, w, old(mcp.State()), task).text
    ensures mcp.State() == Session(tools, w, old(mcp.State()), task).conn
    ensures Stamped(mcp.State())
  {
    var messages := [Message(User, Prompt(task))];
    var iteration: nat := 0;
    var textContent := "";
    ghost var lastReply: seq<Block> := [];
    ghost var run := Session(tools, w, mcp.State(), task);
    while iteration < MaxIterations
      invariant iteration <= MaxIterations
      invariant Stamped(mcp.State())
      invariant textContent == Concat(Texts(lastReply))
      invariant Turns(tools, w, mcp.State(), messages, iteration, lastReply) == run
      decreases MaxIterations - iteration
    {
      var text, calls, reply;
      text, calls, messages, reply := TakeTurn(mcp, tools, w, messages, iteration, lastReply);
      iteration := iteration + 1;
      if calls == [] {
        return text;
      }
      textContent, lastReply := text, reply;
    }
    return textContent;
  }

  /** `browse`: connect, fetch and convert the catalog, then converse. */
  method Browse(task: string, browserArgs: Option<seq<string>>, w: World) returns (r: Result<string, RpcError>)
    ensures r == match BrowseRun(task, w) case Success(run) => Success(run.text) case Failure(f) => Failure(f)
  {
    var mcp := new Client(browserArgs);
    var init := mcp.Initialize(w.server);
    if init.Failure? {
      return Failure(init.error);
    }
    var listed := mcp.ListTools(w.server);
    if listed.Failure? {
      return Failure(listed.error);
    }
    var items := CatalogItems(listed.value);
    if items.Failure? {
      return Failure(items.error);
    }
    var converted := ConvertTools(items.value);
    if converted.Failure? {
      return Failure(converted.error);
    }
    var text := Converse(mcp, converted.value, task, w);
    r := Success(text);
  }
}
