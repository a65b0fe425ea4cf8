/**
 * The command-line bridge (`test.py`): the catalog conversion
 * `mcp_tool_to_anthropic`, the text assembly of `call_mcp_tool`, the
 * round-trip loop of `run_cli` and the argument handling of `main`.
 *
 * The MCP SDK session and the model API are oracles: the session answers a
 * `call_tool` as a function of every invocation made so far, and the model
 * answers with the content blocks of a reply to the catalog and the history.
 * The `while True` loop has no bound of its own, so the loop is specified
 * with a `fuel` budget of extra model calls.
 */
module Bridge {
  import opened Wrappers
  import opened Json
  import opened Text
  import opened Conversation

  // ---------- mcp_tool_to_anthropic ----------

  /** A tool as the MCP SDK lists it: `name`, optional `description`, `inputSchema`. */
  datatype McpTool = McpTool(name: string, description: Option<string>, inputSchema: map<string, Json>)

  /** The schema used when a tool publishes none: any object at all. */
  const PermissiveSchema: Json :=
    Obj(map["type" := Str("object"), "properties" := EmptyObject, "additionalProperties" := Bool(true)])

  /**
   * `mcp_tool_to_anthropic`: the name as it is, the description or `""`, the
   * schema or the permissive one. The model never sees an empty schema, and
   * nothing the tool does publish is lost.
   */
  function ToAnthropic(t: McpTool): (r: ToolSchema)
    ensures r.name == Str(t.name)
    ensures r.description.Str?
    ensures t.description.Some? ==> r.description == Str(t.description.value)
    ensures t.description.None? ==> r.description == Str("")
    ensures r.inputSchema.Obj? && !Falsy(r.inputSchema)
    ensures t.inputSchema != map[] ==> r.inputSchema == Obj(t.inputSchema)
    ensures t.inputSchema == map[] ==> r.inputSchema == PermissiveSchema
  {
    var schema := Or(Obj(t.inputSchema), PermissiveSchema);
    assert "type" in PermissiveSchema.fields;
    ToolSchema(Str(t.name), Or(Str(if t.description.Some? then t.description.value else ""), Str("")), schema)
  }

  /** `[mcp_tool_to_anthropic(t) for t in mcp_tools]`: one entry per tool, in the listed order. */
  function Catalog(tools: seq<McpTool>): (r: seq<ToolSchema>)
    ensures |r| == |tools|
    ensures forall i :: 0 <= i < |tools| ==> r[i] == ToAnthropic(tools[i])
    ensures forall i :: 0 <= i < |tools| ==> r[i].name == Str(tools[i].name) && !Falsy(r[i].inputSchema)
  {
    seq(|tools|, i requires 0 <= i < |tools| => ToAnthropic(tools[i]))
  }

  // ---------- call_mcp_tool ----------

  /** An item of a tool result's `content`: text, or anything else (images, resources). */
  datatype ContentItem = TextContent(text: string) | OtherContent

  /** What `session.call_tool` returns: `content` (possibly `None`) and `structuredContent`. */
  datatype CallToolResult = CallToolResult(content: Option<seq<ContentItem>>, structured: Option<Json>)

  /** A call either returns a result or raises; the message is `str(e)`. */
  datatype ToolOutcome = Returned(result: CallToolResult) | Raised(message: string)

  /** One `call_tool(name, arguments=...)` made on the session. */
  datatype Invocation = Invocation(name: string, arguments: Json)

  /** The MCP server behind the session: the outcome of the latest of all invocations so far. */
  type ToolServer = seq<Invocation> -> ToolOutcome

  /** The text of each text item, in order. */
  function TextParts(items: seq<ContentItem>): seq<string> {
    if items == [] then []
    else
      var last := items[|items| - 1];
      TextParts(items[..|items| - 1]) + (if last.TextContent? then [last.text] else [])
  }

  /** Only text items contribute, one part each. */
  lemma {:induction false} TextPartsExactly(items: seq<ContentItem>)
    ensures |TextParts(items)| <= |items|
    ensures TextParts(items) == [] <==> forall i :: 0 <= i < |items| ==> items[i].OtherContent?
    decreases |items|
  {
    if items != [] {
      TextPartsExactly(items[..|items| - 1]);
      var init := items[..|items| - 1];
      assert forall i :: 0 <= i < |init| ==> init[i] == items[i];
    }
  }

  /** `result.content or []`. */
  function Items(r: CallToolResult): seq<ContentItem> {
    if r.content.Some? then r.content.value else []
  }

  /** `"\n".join(text_parts).strip()`. */
  function Unstructured(r: CallToolResult): string {
    Strip(Join(TextParts(Items(r)), "\n"))
  }

  /** The pair `call_mcp_tool` returns. */
  datatype ToolText = ToolText(text: string, structured: Option<Json>)

  /** The result of `call_mcp_tool` for one session outcome: the exception's message, or the pair. */
  function Fetched(o: ToolOutcome): Result<ToolText, string> {
    match o
    case Raised(message) => Failure(message)
    case Returned(result) => Success(ToolText(Unstructured(result), result.structured))
  }

  /**
   * The unstructured text never starts or ends with whitespace, is empty
   * when no item is text, and is the stripped text when only one item is.
   */
  lemma UnstructuredText(r: CallToolResult)
    ensures Trimmed(Unstructured(r))
    ensures (forall i :: 0 <= i < |Items(r)| ==> Items(r)[i].OtherContent?) ==> Unstructured(r) == ""
    ensures forall t :: Items(r) == [TextContent(t)] ==> Unstructured(r) == Strip(t)
  {
    TextPartsExactly(Items(r));
    forall t | Items(r) == [TextContent(t)] ensures Unstructured(r) == Strip(t) {
      assert Items(r)[..0] == [];
    }
  }

  /**
   * `call_mcp_tool`: one `call_tool` on the session, then the text items
   * collected in a loop, joined with newlines and stripped; the structured
   * content is passed on as it is.
   */
  method CallMcpTool(server: ToolServer, log: seq<Invocation>, name: string, arguments: Json)
      returns (r: Result<ToolText, string>, newLog: seq<Invocation>)
    ensures newLog == log + [Invocation(name, arguments)]
    ensures r == Fetched(server(newLog))
  {
    newLog := log + [Invocation(name, arguments)];
    var outcome := server(newLog);
    if outcome.Raised? {
      return Failure(outcome.message), newLog;
    }
    var result := outcome.result;
    var items := Items(result);
    var textParts: seq<string> := [];
    for i := 0 to |items|
      invariant textParts == TextParts(items[..i])
    {
      assert items[..i + 1][..i] == items[..i];
      if items[i].TextContent? {
        textParts := textParts + [items[i].text];
      }
    }
    assert items[..|items|] == items;
    var unstructuredText := Strip(Join(textParts, "\n"));
    r := Success(ToolText(unstructuredText, result.structured));
  }

  // ---------- run_cli: one turn's tool calls ----------

  /** The `content` of a successful `tool_result`: the text if non-empty, then the JSON if present. */
  function ResultParts(text: string, structured: Option<Json>): (parts: seq<Part>)
    ensures |parts| == (if text != "" then 1 else 0) + (if structured.Some? then 1 else 0)
    ensures TextPart(text) in parts <==> text != ""
    ensures text != "" ==> parts[0] == TextPart(text)
    ensures structured.Some? ==> parts[|parts| - 1] == JsonPart(structured.value)
  {
    (if text != "" then [TextPart(text)] else []) + (if structured.Some? then [JsonPart(structured.value)] else [])
  }

  /** What a failed call's `tool_result` text starts with. */
  const ToolErrorPrefix := "Tool error: "

  /** The `tool_result` block for one call: its parts, or `Tool error: ` and the message, flagged. */
  function ResultBlock(call: ToolCall, r: Result<ToolText, string>): Block {
    match r
    case Success(t) => ToolResult(call.id, Parts(ResultParts(t.text, t.structured)), false)
    case Failure(message) => ToolResult(call.id, Parts([TextPart(ToolErrorPrefix + message)]), true)
  }

  /** A call that raised is answered by one flagged text part: `Tool error: ` and the message. */
  lemma FailedToolBlock(call: ToolCall, message: string)
    ensures ResultBlock(call, Failure(message)) == ToolResult(call.id, Parts([TextPart("Tool error: " + message)]), true)
  {
  }

  /**
   * A call that returned is answered, unflagged, by its non-empty text and
   * then its structured content, each only when present.
   */
  lemma ReturnedToolBlock(call: ToolCall, t: ToolText)
    ensures var b := ResultBlock(call, Success(t));
      && b.ToolResult? && b.toolUseId == call.id && !b.isError && b.body.Parts?
      && (t.text != "" <==> TextPart(t.text) in b.body.parts)
      && (t.text != "" ==> b.body.parts[0] == TextPart(t.text))
      && |b.body.parts| == (if t.text != "" then 1 else 0) + (if t.structured.Some? then 1 else 0)
      && (t.structured.Some? ==> b.body.parts[|b.body.parts| - 1] == JsonPart(t.structured.value))
  {
  }

  /** The result blocks of a turn and the session's invocation log after it. */
  datatype Executed = Executed(blocks: seq<Block>, log: seq<Invocation>)

  /** The `for tu in tool_uses` loop: each call made with `tu.input or {}`, in order. */
  function RunTools(uses: seq<ToolCall>, server: ToolServer, log: seq<Invocation>): Executed
    decreases |uses|, 1
  {
    if uses == [] then Executed([], log) else RunLast(uses, server, log)
  }

  /** The calls before the last one, then the last one. */
  function RunLast(uses: seq<ToolCall>, server: ToolServer, log: seq<Invocation>): Executed
    requires uses != []
    decreases |uses|, 0
  {
    var prev := RunTools(uses[..|uses| - 1], server, log);
    var call := uses[|uses| - 1];
    var newLog := prev.log + [Invocation(call.name, Or(call.input, EmptyObject))];
    Executed(prev.blocks + [ResultBlock(call, Fetched(server(newLog)))], newLog)
  }

  /** The invocations a turn makes, in order: one per tool use, with `{}` for a missing input. */
  function Invocations(uses: seq<ToolCall>): seq<Invocation> {
    seq(|uses|, i requires 0 <= i < |uses| => Invocation(uses[i].name, Or(uses[i].input, EmptyObject)))
  }

  /** The invocations of the first `n` uses are the first `n` invocations. */
  lemma InvocationsPrefix(uses: seq<ToolCall>, n: nat)
    requires n <= |uses|
    ensures Invocations(uses)[..n] == Invocations(uses[..n])
  {
  }

  /** `blocks` answer `uses` one for one: a `tool_result` with the matching id, in order. */
  predicate Answers(uses: seq<ToolCall>, blocks: seq<Block>) {
    |blocks| == |uses| && forall k :: 0 <= k < |uses| ==> blocks[k].ToolResult? && blocks[k].toolUseId == uses[k].id
  }

  /** Each tool use is invoked exactly once, in order, with `{}` standing in for a missing input. */
  lemma {:induction false} RunToolsLog(uses: seq<ToolCall>, server: ToolServer, log: seq<Invocation>)
    ensures RunTools(uses, server, log).log == log + Invocations(uses)
    decreases |uses|
  {
    if uses != [] {
      var init := uses[..|uses| - 1];
      RunToolsLog(init, server, log);
      assert RunTools(uses, server, log) == RunLast(uses, server, log);
      var last := Invocation(uses[|uses| - 1].name, Or(uses[|uses| - 1].input, EmptyObject));
      assert Invocations(uses) == Invocations(init) + [last];
    }
  }

  /** Each tool use is answered by one `tool_result` with its id, in order. */
  lemma {:induction false} RunToolsAnswers(uses: seq<ToolCall>, server: ToolServer, log: seq<Invocation>)
    ensures Answers(uses, RunTools(uses, server, log).blocks)
    decreases |uses|
  {
    if uses != [] {
      var init := uses[..|uses| - 1];
      var e := RunTools(uses, server, log);
      RunToolsAnswers(init, server, log);
      assert e == RunLast(uses, server, log);
      AnswersLast(uses, RunTools(init, server, log).blocks, ResultBlock(uses[|uses| - 1], Fetched(server(e.log))));
    }
  }

  /** Answering one more use with a `tool_result` carrying its id keeps the answers one for one. */
  lemma AnswersLast(uses: seq<ToolCall>, prev: seq<Block>, b: Block)
    requires uses != [] && Answers(uses[..|uses| - 1], prev)
    requires b.ToolResult? && b.toolUseId == uses[|uses| - 1].id
    ensures Answers(uses, prev + [b])
  {
    var blocks := prev + [b];
    forall k | 0 <= k < |uses|
      ensures blocks[k].ToolResult? && blocks[k].toolUseId == uses[k].id
    {
      if k < |prev| {
        assert blocks[k] == prev[k];
      }
    }
  }

  /** `blocks` answer `uses`, and the `k`-th is flagged exactly when the `k`-th invocation raised. */
  predicate FlaggedAsRaised(uses: seq<ToolCall>, server: ToolServer, log: seq<Invocation>, blocks: seq<Block>) {
    && Answers(uses, blocks)
    && forall k :: 0 <= k < |uses| ==> (blocks[k].isError <==> server(log + Invocations(uses)[..k + 1]).Raised?)
  }

  /** A result is flagged as an error exactly when its invocation raised. */
  lemma {:induction false} RunToolsErrors(uses: seq<ToolCall>, server: ToolServer, log: seq<Invocation>)
    ensures FlaggedAsRaised(uses, server, log, RunTools(uses, server, log).blocks)
    decreases |uses|
  {
    if uses != [] {
      var init := uses[..|uses| - 1];
      RunToolsErrors(init, server, log);
      RunToolsLog(uses, server, log);
      assert RunTools(uses, server, log) == RunLast(uses, server, log);
      FlagLast(uses, server, log, RunTools(init, server, log).blocks, RunTools(uses, server, log).blocks);
    }
  }

  /** Answering one more use keeps every earlier flag and flags the new result by its own outcome. */
  lemma FlagLast(uses: seq<ToolCall>, server: ToolServer, log: seq<Invocation>, prev: seq<Block>, blocks: seq<Block>)
    requires uses != []
    requires FlaggedAsRaised(uses[..|uses| - 1], server, log, prev)
    requires blocks == prev + [ResultBlock(uses[|uses| - 1], Fetched(server(log + Invocations(uses))))]
    ensures FlaggedAsRaised(uses, server, log, blocks)
  {
    var last := |uses| - 1;
    var b := ResultBlock(uses[last], Fetched(server(log + Invocations(uses))));
    AnswersLast(uses, prev, b);
    forall k | 0 <= k < last
      ensures blocks[k].isError <==> server(log + Invocations(uses)[..k + 1]).Raised?
    {
      FlagEarlier(uses, server, log, prev, k);
      assert blocks[k] == prev[k];
    }
    assert blocks[last] == b;
    assert Invocations(uses)[..last + 1] == Invocations(uses);
  }

  /** An earlier use's flag still matches its invocation once the last use is counted in. */
  lemma FlagEarlier(uses: seq<ToolCall>, server: ToolServer, log: seq<Invocation>, prev: seq<Block>, k: nat)
    requires k + 1 < |uses|
    requires FlaggedAsRaised(uses[..|uses| - 1], server, log, prev)
    ensures k < |prev| && prev[k].ToolResult?
    ensures prev[k].isError <==> server(log + Invocations(uses)[..k + 1]).Raised?
  {
    EarlierInvocations(uses, k);
  }

  /** `blocks` are, one for one, the `tool_result`s of the uses' outcomes, each call seeing every invocation up to its own. */
  predicate ResultsOf(uses: seq<ToolCall>, server: ToolServer, log: seq<Invocation>, blocks: seq<Block>) {
    && |blocks| == |uses|
    && forall k :: 0 <= k < |uses| ==>
         blocks[k] == ResultBlock(uses[k], Fetched(server(log + Invocations(uses)[..k + 1])))
  }

  /** The `k`-th result block is the `tool_result` of the `k`-th call's own outcome. */
  lemma {:induction false} RunToolsBlocks(uses: seq<ToolCall>, server: ToolServer, log: seq<Invocation>)
    ensures ResultsOf(uses, server, log, RunTools(uses, server, log).blocks)
    decreases |uses|
  {
    if uses != [] {
      var init := uses[..|uses| - 1];
      RunToolsBlocks(init, server, log);
      RunToolsLog(uses, server, log);
      assert RunTools(uses, server, log) == RunLast(uses, server, log);
      ResultsLast(uses, server, log, RunTools(init, server, log).blocks, RunTools(uses, server, log).blocks);
    }
  }

  /** Answering one more use keeps the earlier blocks and adds the block of the new outcome. */
  lemma ResultsLast(uses: seq<ToolCall>, server: ToolServer, log: seq<Invocation>, prev: seq<Block>, blocks: seq<Block>)
    requires uses != []
    requires ResultsOf(uses[..|uses| - 1], server, log, prev)
    requires blocks == prev + [ResultBlock(uses[|uses| - 1], Fetched(server(log + Invocations(uses))))]
    ensures ResultsOf(uses, server, log, blocks)
  {
    var last := |uses| - 1;
    forall k | 0 <= k < last
      ensures blocks[k] == ResultBlock(uses[k], Fetched(server(log + Invocations(uses)[..k + 1])))
    {
      EarlierInvocations(uses, k);
      assert blocks[k] == prev[k];
      assert uses[..last][k] == uses[k];
    }
    assert Invocations(uses)[..last + 1] == Invocations(uses);
  }

  /** Before the last use, the invocations made are those of the earlier uses alone. */
  lemma EarlierInvocations(uses: seq<ToolCall>, k: nat)
    requires k + 1 < |uses|
    ensures Invocations(uses)[..k + 1] == Invocations(uses[..|uses| - 1])[..k + 1]
  {
    var init := uses[..|uses| - 1];
    InvocationsPrefix(uses, k + 1);
    InvocationsPrefix(init, k + 1);
    assert uses[..k + 1] == init[..k + 1];
  }

  /** The tool loop of `run_cli`: call each tool in turn, catching what it raises. */
  method ExecuteTools(uses: seq<ToolCall>, server: ToolServer, log: seq<Invocation>)
      returns (blocks: seq<Block>, newLog: seq<Invocation>)
    ensures Executed(blocks, newLog) == RunTools(uses, server, log)
  {
    blocks, newLog := [], log;
    for i := 0 to |uses|
      invariant Executed(blocks, newLog) == RunTools(uses[..i], server, log)
    {
      assert uses[..i + 1][..i] == uses[..i];
      var tu := uses[i];
      var r;
      r, newLog := CallMcpTool(server, newLog, tu.name, Or(tu.input, EmptyObject));
      blocks := blocks + [ResultBlock(tu, r)];
    }
    assert uses[..|uses|] == uses;
  }

  /** The `for block in last_msg.content` scan collecting the `tool_use` blocks. */
  method CollectToolUses(reply: seq<Block>) returns (uses: seq<ToolCall>)
    ensures uses == ToolUses(reply)
  {
    uses := [];
    for i := 0 to |reply|
      invariant uses == ToolUses(reply[..i])
    {
      assert reply[..i + 1][..i] == reply[..i];
      if reply[i].ToolUse? {
        uses := uses + [reply[i].call];
      }
    }
    assert reply[..|reply|] == reply;
  }

  /** The `for block in last_msg.content` scan collecting the text blocks' text. */
  method CollectTexts(reply: seq<Block>) returns (texts: seq<string>)
    ensures texts == Texts(reply)
  {
    texts := [];
    for i := 0 to |reply|
      invariant texts == Texts(reply[..i])
    {
      assert reply[..i + 1][..i] == reply[..i];
      if reply[i].Text? {
        texts := texts + [reply[i].text];
      }
    }
    assert reply[..|reply|] == reply;
  }

  // ---------- run_cli: the round-trip loop ----------

  const Banner := "\n=== Assistant ===\n"

  /** What `run_cli` prints for the final reply: the banner, then its texts or `(no text)`. */
  function Output(texts: seq<string>): string {
    Banner + (if texts != [] then Join(texts, "\n") else "(no text)")
  }

  /** The printed answer: `(no text)` stands in when the reply has no text block, one text is printed as it is. */
  lemma OutputShape(texts: seq<string>)
    ensures Output(texts)[..|Banner|] == Banner
    ensures texts == [] ==> Output(texts)[|Banner|..] == "(no text)"
    ensures forall t :: texts == [t] ==> Output(texts)[|Banner|..] == t
  {
  }

  /** Everything `run_cli` talks to: the key, the server's catalog, the model and the tool server. */
  datatype CliEnv = CliEnv(apiKey: Option<string>, catalog: seq<McpTool>, model: Model, server: ToolServer)

  /**
   * How the loop ended: the printed output, or the budget ran out while the
   * model was still asking for tools. Either way, the history, the session's
   * invocations and the number of model calls.
   */
  datatype CliRun =
    | Printed(output: string, messages: seq<Message>, log: seq<Invocation>, modelCalls: nat)
    | OutOfFuel(messages: seq<Message>, log: seq<Invocation>, modelCalls: nat)

  /**
   * The `while True` loop from a response `reply` on, with `fuel` more model
   * calls allowed: stop and print on a reply without tool uses; otherwise
   * `Answer` runs the tools and asks again.
   */
  function CliLoop(tools: seq<ToolSchema>, env: CliEnv, messages: seq<Message>, log: seq<Invocation>,
                   reply: seq<Block>, modelCalls: nat, fuel: nat): CliRun
    decreases fuel, 1
  {
    if ToolUses(reply) == [] then Printed(Output(Texts(reply)), messages, log, modelCalls)
    else if fuel == 0 then OutOfFuel(messages, log, modelCalls)
    else CliAnswer(tools, env, messages, log, reply, modelCalls, fuel)
  }

  /**
   * The rest of a tool turn: run the tools, append the assistant message and
   * one user message holding every result, and call the model again.
   */
  function CliAnswer(tools: seq<ToolSchema>, env: CliEnv, messages: seq<Message>, log: seq<Invocation>,
                     reply: seq<Block>, modelCalls: nat, fuel: nat): CliRun
    requires fuel > 0
    decreases fuel, 0
  {
    var e := RunTools(ToolUses(reply), env.server, log);
    var next := messages + [Message(Assistant, Blocks(reply)), Message(User, Blocks(e.blocks))];
    CliLoop(tools, env, next, e.log, env.model(tools, next), modelCalls + 1, fuel - 1)
  }

  /** `run_cli`'s result: refused for want of a key, or the server arguments and the run. */
  datatype CliResult = Refused(message: string) | Ran(serverArgs: seq<string>, run: CliRun)

  const MissingKeyMessage := "Please set ANTHROPIC_API_KEY in your environment."

  /** The launch arguments for `npx`: the package, `--headless`, `--caps` with the list, then the extras. */
  function ServerArgList(headless: bool, caps: seq<string>, extra: seq<string>): seq<string> {
    ["@playwright/mcp@latest"] + (if headless then ["--headless"] else [])
    + (if caps != [] then ["--caps", Join(caps, ",")] else []) + extra
  }

  /** The whole of `run_cli`. */
  function CliSession(prompt: string, headless: bool, caps: seq<string>, extra: seq<string>,
                      env: CliEnv, fuel: nat): CliResult {
    if env.apiKey.None? || env.apiKey.value == "" then Refused(MissingKeyMessage)
    else
      var tools := Catalog(env.catalog);
      var messages := [Message(User, Prompt(prompt))];
      Ran(ServerArgList(headless, caps, extra), CliLoop(tools, env, messages, [], env.model(tools, messages), 1, fuel))
  }

  /** The `args` list of `run_cli`, built by appending. */
  method ServerArgs(headless: bool, caps: seq<string>, extra: seq<string>) returns (args: seq<string>)
    ensures args == ServerArgList(headless, caps, extra)
  {
    args := ["@playwright/mcp@latest"];
    if headless {
      args := args + ["--headless"];
    }
    if caps != [] {
      args := args + ["--caps", Join(caps, ",")];
    }
    args := args + extra;
  }

  /**
   * `run_cli`: check the key, build the server arguments, convert the
   * catalog, ask the model, then answer its tool calls until it stops asking
   * or the budget runs out.
   */
  method RunCli(prompt: string, headless: bool, caps: seq<string>, extra: seq<string>, env: CliEnv, fuel: nat)
      returns (r: CliResult)
    ensures r == CliSession(prompt, headless, caps, extra, env, fuel)
  {
    if env.apiKey.None? || env.apiKey.value == "" {
      return Refused(MissingKeyMessage);
    }
    var args := ServerArgs(headless, caps, extra);
    var tools := Catalog(env.catalog);
    var messages := [Message(User, Prompt(prompt))];
    var response := env.model(tools, messages);
    var log: seq<Invocation> := [];
    var modelCalls: nat := 1;
    var budget := fuel;
    ghost var run := CliLoop(tools, env, messages, log, response, modelCalls, budget);
    while true
      invariant CliLoop(tools, env, messages, log, response, modelCalls, budget) == run
      invariant run == CliSession(prompt, headless, caps, extra, env, fuel).run
      invariant args == ServerArgList(headless, caps, extra)
      decreases budget
    {
      var toolUses := CollectToolUses(response);
      if toolUses == [] {
        var finalText := CollectTexts(response);
        return Ran(args, Printed(Output(finalText), messages, log, modelCalls));
      }
      if budget == 0 {
        return Ran(args, OutOfFuel(messages, log, modelCalls));
      }
      assert run == CliAnswer(tools, env, messages, log, response, modelCalls, budget);
      var results;
      results, log := ExecuteTools(toolUses, env.server, log);
      messages := messages + [Message(Assistant, Blocks(response)), Message(User, Blocks(results))];
      response := env.model(tools, messages);
      modelCalls := modelCalls + 1;
      budget := budget - 1;
    }
  }

  // ---------- run_cli: properties of the loop ----------

  /** A tool turn of the transcript: the model's reply asking for tools, then one user message answering all of them. */
  predicate ToolTurn(a: Message, u: Message) {
    && a.role == Assistant && a.content.Blocks? && ToolUses(a.content.blocks) != []
    && u.role == User && u.content.Blocks? && Answers(ToolUses(a.content.blocks), u.content.blocks)
  }

  /** The messages are a run of tool turns. */
  predicate Paired(ms: seq<Message>)
    decreases |ms|
  {
    ms == [] || (|ms| >= 2 && ToolTurn(ms[0], ms[1]) && Paired(ms[2..]))
  }

  /**
   * The loop appends two messages per tool turn and nothing else: the
   * assistant's reply and a single user message answering every tool use of
   * it. The final reply is printed, never appended.
   */
  lemma {:induction false} CliTranscript(tools: seq<ToolSchema>, env: CliEnv, messages: seq<Message>,
                                         log: seq<Invocation>, reply: seq<Block>, modelCalls: nat, fuel: nat)
    ensures var r := CliLoop(tools, env, messages, log, reply, modelCalls, fuel);
      && modelCalls <= r.modelCalls <= modelCalls + fuel
      && messages <= r.messages
      && |r.messages| == |messages| + 2 * (r.modelCalls - modelCalls)
      && Paired(r.messages[|messages|..])
    decreases fuel
  {
    var r := CliLoop(tools, env, messages, log, reply, modelCalls, fuel);
    if ToolUses(reply) != [] && fuel > 0 {
      var e := RunTools(ToolUses(reply), env.server, log);
      var turn := [Message(Assistant, Blocks(reply)), Message(User, Blocks(e.blocks))];
      var next := messages + turn;
      assert r == CliAnswer(tools, env, messages, log, reply, modelCalls, fuel);
      assert r == CliLoop(tools, env, next, e.log, env.model(tools, next), modelCalls + 1, fuel - 1);
      CliTranscript(tools, env, next, e.log, env.model(tools, next), modelCalls + 1, fuel - 1);
      RunToolsAnswers(ToolUses(reply), env.server, log);
      assert ToolTurn(turn[0], turn[1]);
      assert r.messages[|messages|..] == turn + r.messages[|next|..];
      assert (turn + r.messages[|next|..])[2..] == r.messages[|next|..];
    } else {
      assert r.messages[|messages|..] == [];
    }
  }

  /**
   * Each reply in the history is the model's answer to exactly the messages
   * before it: the loop passes the whole history on every call.
   */
  lemma {:induction false} CliModelDriven(tools: seq<ToolSchema>, env: CliEnv, messages: seq<Message>,
                                          log: seq<Invocation>, reply: seq<Block>, modelCalls: nat, fuel: nat)
    requires reply == env.model(tools, messages)
    ensures var r := CliLoop(tools, env, messages, log, reply, modelCalls, fuel);
      forall k :: |messages| <= k < |r.messages| && r.messages[k].role == Assistant ==>
        r.messages[k].content == Blocks(env.model(tools, r.messages[..k]))
    decreases fuel
  {
    var r := CliLoop(tools, env, messages, log, reply, modelCalls, fuel);
    if ToolUses(reply) != [] && fuel > 0 {
      var e := RunTools(ToolUses(reply), env.server, log);
      var next := messages + [Message(Assistant, Blocks(reply)), Message(User, Blocks(e.blocks))];
      assert r == CliAnswer(tools, env, messages, log, reply, modelCalls, fuel);
      assert r == CliLoop(tools, env, next, e.log, env.model(tools, next), modelCalls + 1, fuel - 1);
      CliModelDriven(tools, env, next, e.log, env.model(tools, next), modelCalls + 1, fuel - 1);
      CliTranscript(tools, env, next, e.log, env.model(tools, next), modelCalls + 1, fuel - 1);
      forall k | |messages| <= k < |r.messages| && r.messages[k].role == Assistant
        ensures r.messages[k].content == Blocks(env.model(tools, r.messages[..k]))
      {
        if k < |next| {
          assert r.messages[k] == next[k];
          assert k == |messages|;
          assert r.messages[..k] == messages;
        }
      }
    } else {
      assert r.messages == messages;
    }
  }

  /**
   * What is printed is the model's last reply: the reply to the final
   * history, which asks for no tool, rendered as the banner and its texts.
   */
  lemma {:induction false} CliPrinted(tools: seq<ToolSchema>, env: CliEnv, messages: seq<Message>,
                                      log: seq<Invocation>, reply: seq<Block>, modelCalls: nat, fuel: nat)
    requires reply == env.model(tools, messages)
    ensures var r := CliLoop(tools, env, messages, log, reply, modelCalls, fuel);
      r.Printed? ==>
        && ToolUses(env.model(tools, r.messages)) == []
        && r.output == Output(Texts(env.model(tools, r.messages)))
    decreases fuel
  {
    var r := CliLoop(tools, env, messages, log, reply, modelCalls, fuel);
    if ToolUses(reply) != [] && fuel > 0 {
      var e := RunTools(ToolUses(reply), env.server, log);
      var next := messages + [Message(Assistant, Blocks(reply)), Message(User, Blocks(e.blocks))];
      assert r == CliAnswer(tools, env, messages, log, reply, modelCalls, fuel);
      assert r == CliLoop(tools, env, next, e.log, env.model(tools, next), modelCalls + 1, fuel - 1);
      CliPrinted(tools, env, next, e.log, env.model(tools, next), modelCalls + 1, fuel - 1);
    }
  }

  /**
   * `run_cli` has no iteration ceiling: against a model that asks for a tool
   * in every reply, the loop is still running whatever the budget, having
   * called the model once more per unit of budget.
   */
  lemma {:induction false} NoIterationCeiling(tools: seq<ToolSchema>, env: CliEnv, messages: seq<Message>,
                                              log: seq<Invocation>, reply: seq<Block>, modelCalls: nat, fuel: nat)
    requires ToolUses(reply) != []
    requires forall h :: ToolUses(env.model(tools, h)) != []
    ensures var r := CliLoop(tools, env, messages, log, reply, modelCalls, fuel);
      r.OutOfFuel? && r.modelCalls == modelCalls + fuel
    decreases fuel
  {
    if fuel > 0 {
      var e := RunTools(ToolUses(reply), env.server, log);
      var next := messages + [Message(Assistant, Blocks(reply)), Message(User, Blocks(e.blocks))];
      assert CliLoop(tools, env, messages, log, reply, modelCalls, fuel)
        == CliLoop(tools, env, next, e.log, env.model(tools, next), modelCalls + 1, fuel - 1);
      NoIterationCeiling(tools, env, next, e.log, env.model(tools, next), modelCalls + 1, fuel - 1);
    }
  }

  /**
   * With a key set, the session runs; its transcript is the prompt followed
   * by tool turns, one per model call after the first.
   */
  lemma CliSessionTranscript(prompt: string, headless: bool, caps: seq<string>, extra: seq<string>,
                             env: CliEnv, fuel: nat)
    requires env.apiKey.Some? && env.apiKey.value != ""
    ensures var s := CliSession(prompt, headless, caps, extra, env, fuel);
      && s.Ran?
      && 1 <= s.run.modelCalls <= 1 + fuel
      && |s.run.messages| == 2 * s.run.modelCalls - 1
      && s.run.messages[0] == Message(User, Prompt(prompt))
      && Paired(s.run.messages[1..])
  {
    var tools := Catalog(env.catalog);
    var messages := [Message(User, Prompt(prompt))];
    CliTranscript(tools, env, messages, [], env.model(tools, messages), 1, fuel);
  }

  // ---------- main: the command line ----------

  /** What one piece contributes to the caps: itself stripped, or nothing when that is empty. */
  function Kept(piece: string): seq<string> {
    if Strip(piece) != "" then [Strip(piece)] else []
  }

  /** `[c.strip() for c in parts if c.strip()]`. */
  function CleanCaps(parts: seq<string>): seq<string> {
    if parts == [] then [] else Kept(parts[0]) + CleanCaps(parts[1..])
  }

  /** The `--caps` flag parsed as `main` does: split on commas, strip, drop the empty pieces. */
  function ParseCaps(flag: string): seq<string> {
    CleanCaps(Split(flag, ','))
  }

  /** A cap as `main` keeps it: non-empty, stripped, and free of the separator. */
  predicate CleanCap(cap: string, sep: char) {
    cap != "" && Trimmed(cap) && sep !in cap
  }

  /** Every cap in the list is clean. */
  predicate CleanList(caps: seq<string>, sep: char) {
    forall i :: 0 <= i < |caps| ==> CleanCap(caps[i], sep)
  }

  /** Cleaning separator-free pieces leaves only clean caps. */
  lemma {:induction false} CleanCapsWellFormed(parts: seq<string>, sep: char)
    requires forall i :: 0 <= i < |parts| ==> sep !in parts[i]
    ensures CleanList(CleanCaps(parts), sep)
    decreases |parts|
  {
    if parts != [] {
      CleanCapsWellFormed(parts[1..], sep);
      var head := Kept(parts[0]);
      var rest := CleanCaps(parts[1..]);
      assert CleanList(head, sep) by {
        assert sep !in parts[0];
      }
      assert CleanCaps(parts) == head + rest;
    }
  }

  /** Pieces that are already clean pass through unchanged. */
  lemma {:induction false} CleanCapsFixed(parts: seq<string>)
    requires forall i :: 0 <= i < |parts| ==> parts[i] != "" && Trimmed(parts[i])
    ensures CleanCaps(parts) == parts
    decreases |parts|
  {
    if parts != [] {
      StripTrimmed(parts[0]);
      CleanCapsFixed(parts[1..]);
    }
  }

  /** Cleaning works piece by piece: cleaning a concatenation is concatenating the cleaned parts. */
  lemma {:induction false} CleanCapsAppend(a: seq<string>, b: seq<string>)
    ensures CleanCaps(a + b) == CleanCaps(a) + CleanCaps(b)
    decreases |a|
  {
    if a == [] {
      assert a + b == b;
    } else {
      assert (a + b)[0] == a[0];
      assert (a + b)[1..] == a[1..] + b;
      CleanCapsAppend(a[1..], b);
    }
  }

  /** One piece is kept stripped when it has content, and dropped otherwise. */
  lemma CleanCapsOne(piece: string)
    ensures CleanCaps([piece]) == if Strip(piece) != "" then [Strip(piece)] else []
  {
    assert [piece][1..] == [];
    assert CleanCaps([piece]) == Kept(piece) + CleanCaps([]);
  }

  /** `cap` is one of the pieces, stripped. */
  predicate StrippedPiece(cap: string, parts: seq<string>) {
    exists i :: 0 <= i < |parts| && cap == Strip(parts[i])
  }

  /** Each piece with content appears stripped among the caps. */
  lemma {:induction false} CleanCapsKeeps(parts: seq<string>)
    ensures forall i :: 0 <= i < |parts| && Strip(parts[i]) != "" ==> Strip(parts[i]) in CleanCaps(parts)
    decreases |parts|
  {
    if parts != [] {
      var rest := parts[1..];
      CleanCapsKeeps(rest);
      assert CleanCaps(parts) == Kept(parts[0]) + CleanCaps(rest);
      forall i | 0 <= i < |parts| && Strip(parts[i]) != ""
        ensures Strip(parts[i]) in CleanCaps(parts)
      {
        if i > 0 {
          assert parts[i] == rest[i - 1];
        }
      }
    }
  }

  /** Every cap is a non-empty stripped piece. */
  lemma {:induction false} CleanCapsDrawn(parts: seq<string>)
    ensures forall c :: c in CleanCaps(parts) ==> c != "" && StrippedPiece(c, parts)
    decreases |parts|
  {
    if parts != [] {
      var rest := parts[1..];
      CleanCapsDrawn(rest);
      assert CleanCaps(parts) == Kept(parts[0]) + CleanCaps(rest);
      forall c | c in CleanCaps(parts)
        ensures c != "" && StrippedPiece(c, parts)
      {
        if c in Kept(parts[0]) {
          assert c == Strip(parts[0]);
        } else {
          assert c in CleanCaps(rest);
          var j :| 0 <= j < |rest| && c == Strip(rest[j]);
          assert parts[j + 1] == rest[j];
        }
      }
    }
  }

  /** Each piece with content appears stripped among the caps, and every cap is such a stripped piece. */
  lemma CleanCapsMembers(parts: seq<string>)
    ensures forall i :: 0 <= i < |parts| && Strip(parts[i]) != "" ==> Strip(parts[i]) in CleanCaps(parts)
    ensures forall c :: c in CleanCaps(parts) ==> c != "" && StrippedPiece(c, parts)
  {
    CleanCapsKeeps(parts);
    CleanCapsDrawn(parts);
  }

  /** The parsed caps are exactly the stripped comma-separated pieces of the flag that have content. */
  lemma ParseCapsPieces(flag: string)
    ensures forall c :: c in ParseCaps(flag) <==> c != "" && StrippedPiece(c, Split(flag, ','))
  {
    var pieces := Split(flag, ',');
    CleanCapsMembers(pieces);
    forall c | c != "" && StrippedPiece(c, pieces)
      ensures c in ParseCaps(flag)
    {
      var i :| 0 <= i < |pieces| && c == Strip(pieces[i]);
    }
  }

  /** Every parsed cap is a non-empty, stripped name without a comma. */
  lemma ParseCapsWellFormed(flag: string)
    ensures CleanList(ParseCaps(flag), ',')
  {
    CleanCapsWellFormed(Split(flag, ','), ',');
  }

  /**
   * The list handed to `--caps` (joined with commas) parses back to the same
   * caps: the flag is normalised by one round.
   */
  lemma ParseCapsRoundTrip(flag: string)
    ensures ParseCaps(Join(ParseCaps(flag), ",")) == ParseCaps(flag)
  {
    ParseCapsWellFormed(flag);
    CleanListRoundTrip(ParseCaps(flag), ',');
  }

  /** Clean caps joined with the separator split and clean back to themselves. */
  lemma CleanListRoundTrip(caps: seq<string>, sep: char)
    requires CleanList(caps, sep)
    ensures CleanCaps(Split(Join(caps, [sep]), sep)) == caps
  {
    if caps == [] {
      assert Split([], sep) == [""];
      assert CleanCaps([""]) == [] by {
        assert Strip("") == "";
      }
    } else {
      SplitJoin(caps, sep);
      CleanCapsFixed(caps);
    }
  }

  /**
   * The server's argument list: the package first, `--headless` right after it
   * exactly when headless, the caps as a single comma-joined argument after
   * `--caps` exactly when there are caps, and the extra flags last, unchanged.
   */
  lemma ServerArgsLayout(headless: bool, caps: seq<string>, extra: seq<string>)
    ensures var args := ServerArgList(headless, caps, extra);
      var k := if headless then 2 else 1;
      && |args| == k + (if caps != [] then 2 else 0) + |extra|
      && args[0] == "@playwright/mcp@latest"
      && (args[1..k] == ["--headless"] <==> headless)
      && (caps != [] ==> args[k] == "--caps" && args[k + 1] == Join(caps, ","))
      && args[|args| - |extra|..] == extra
  {
  }

  /** What `main` hands to `run_cli`. */
  datatype CliCall = CliCall(prompt: string, headless: bool, caps: seq<string>, extra: seq<string>)

  /**
   * `main`: headless unless `--headed`, the caps parsed from `--caps`, and the
   * pass-through flags or `[]`.
   */
  function CommandLine(prompt: string, headed: bool, capsFlag: string, extra: Option<seq<string>>): (c: CliCall)
    ensures c.prompt == prompt && (c.headless <==> !headed)
    ensures c.caps == ParseCaps(capsFlag) && CleanList(c.caps, ',')
    ensures extra.None? ==> c.extra == []
    ensures extra.Some? ==> c.extra == extra.value
  {
    ParseCapsWellFormed(capsFlag);
    CliCall(prompt, !headed, ParseCaps(capsFlag), if extra.Some? then extra.value else [])
  }

  /**
   * The caps `main` parses reach the server intact: splitting the argument
   * after `--caps` on commas gives them back.
   */
  lemma CapsReachServer(prompt: string, headed: bool, capsFlag: string, extra: Option<seq<string>>)
    ensures var c := CommandLine(prompt, headed, capsFlag, extra);
      var args := ServerArgList(c.headless, c.caps, c.extra);
      var k := if c.headless then 2 else 1;
      c.caps != [] ==> args[k] == "--caps" && Split(args[k + 1], ',') == c.caps
  {
    var c := CommandLine(prompt, headed, capsFlag, extra);
    CapsArgumentSplits(c.headless, c.caps, c.extra);
  }

  /** The argument after `--caps` splits on commas into exactly the clean caps it was built from. */
  lemma CapsArgumentSplits(headless: bool, caps: seq<string>, extra: seq<string>)
    requires CleanList(caps, ',')
    ensures var args := ServerArgList(headless, caps, extra);
      var k := if headless then 2 else 1;
      caps != [] ==> args[k] == "--caps" && Split(args[k + 1], ',') == caps
  {
    ServerArgsLayout(headless, caps, extra);
    if caps != [] {
      assert forall i :: 0 <= i < |caps| ==> ',' !in caps[i] by {
        forall i | 0 <= i < |caps| ensures ',' !in caps[i] {
          assert CleanCap(caps[i], ',');
        }
      }
      SplitJoin(caps, ',');
    }
  }
}
