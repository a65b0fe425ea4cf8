# A verified model of the Playwright MCP agents

The repository drives a Playwright browser server, spoken to over the Model
Context Protocol (MCP), from a language model's tool calls. It has two entry
points:

- `client.py` holds a hand-written stdio JSON-RPC client,
  `DebugStdioMCPClient`, and the agent `ClaudePlaywrightAgent.browse`. The
  agent converts the server's tool catalog, then runs a conversation of at
  most 30 model calls. In that conversation every tool call is executed and
  its result is fed back to the model.
- `test.py` uses the MCP SDK session. It has the schema conversion
  `mcp_tool_to_anthropic`, the text assembly of `call_mcp_tool`, the
  unbounded round-trip loop `run_cli`, and the `--caps` parsing in `main`.

The model has six modules:

- `Wrappers`: `Option` and `Result`.
- `Json`: a decoded JSON value, plus Python truthiness (`x or default`) and
  `dict.get`.
- `Text`: Python's `sep.join`, `+=` concatenation, `str.split(sep)` and
  `str.strip()`, with its full whitespace set.
- `Conversation`: content blocks, messages and tool schemas. The language
  model is a function from the catalog and the whole history to the blocks
  of a reply.
- `Rpc`: `DebugStdioMCPClient`.
  - The server process is a function from everything written to its stdin
    so far to what the next `readline()` yields: a timeout, end of file, a
    line that does not decode, or a decoded line.
  - The `Client` class keeps `message_id` and the written lines as fields.
  - Each method is proved equal to a pure step function: `SendStep`,
    `InitializeStep`, `ListToolsStep` or `CallToolStep`.
  - Lemmas prove that ids on the wire are never reused (`Stamped`).
- `Agent`: `browse`.
  - `Turns` and `Answer` specify the loop.
  - The `Converse` method carries the loop invariant "the rest of the loop
    produces the same run".
  - The lemmas bound the number of model calls by 30 and show that every
    tool call is answered, with its id and in order. They also show that
    every assistant message is the model's reply to exactly the history
    before it, and that the ids on the wire stay fresh.
- `Bridge`: `test.py`.
  - The tool server of the SDK session is a function of every invocation
    made so far.
  - `run_cli`'s `while True` is specified with a budget of extra model
    calls.
  - The caps parsing is proved to normalise in one round, and to reach the
    server argument list intact.

Behaviour worth knowing, all of it modelled as the code has it:

- `_initialize` calls `next_id()` for a request dictionary it never sends.
  So id 1 is burnt, and `initialize` goes out with id 2 (`FreshHandshake`).
- The reply's `id` is never compared with the request's id
  (`ResponseIdIgnored`).
- A timeout raises the same message whether or not the process has exited
  (`TimeoutIgnoresExitCode`).
- In `browse`, each tool result is a user message of its own. In `run_cli`,
  one user message holds all of a turn's results.

## Model

The step and loop functions that specify the code carry no contract of
their own. The methods are proved equal to them, and these lemmas state what
they compute:

- `SendStep`: `SendStamps` and `SendReply`, with `Classify`;
- `InitializeStep`: `InitializeStamps` and `InitializeReply`;
- `ListToolsStep` and `ToolsOf`: `ListToolsStamps`, `ListToolsReply` and `ListToolsResult`;
- `CallToolStep` and `ExtractContent`: `CallToolSends`, `CallToolReply`, `ContentFirstElement` and `ContentPassedThrough`;
- `ConvertAll`: `ConvertAllTotal` and `ConvertAllStopsAtFailure`;
- `ResultMessage` and `AnswerCalls`: `FailedCallReported`, `SucceededCallReported` and `AnswerCallsResults`;
- `Turns`: `TurnsEnd`, `TurnsLastReply` and `TurnsTranscript`;
- `RunTools`: `RunToolsBlocks`, `FailedToolBlock` and `ReturnedToolBlock`;
- `CliLoop`: `CliTranscript` and `CliPrinted`;
- `CleanCaps`: `CleanCapsAppend`, `CleanCapsOne` and `CleanCapsMembers`.

| member | source | states |
|---|---|---|
| Text.Split | test.py:165 | `str.split(",")` yields at least one piece, and no piece contains the separator |
| Text.JoinSplit | test.py:165 | joining the pieces of a split with the separator gives the original string back |
| Text.SplitWithoutSeparator | test.py:165 | a string without the separator splits into itself alone |
| Text.SplitAtSeparator | test.py:165 | splitting `a + sep + b` yields `a` followed by the pieces of `b` |
| Text.SplitJoin | test.py:60 | `",".join(caps)` splits back into exactly `caps` when no cap contains a comma |
| Text.TrimStart | test.py:42 | the left strip is a suffix, starts with no whitespace, and drops only whitespace |
| Text.TrimEnd | test.py:42 | the right strip is a prefix, ends with no whitespace, and drops only whitespace |
| Text.Strip | test.py:42 | `str.strip()` leaves no whitespace at either end, is no longer than its input, and adds no character |
| Text.StripSlice | test.py:42 | `str.strip()` is a contiguous slice of its input, and everything cut away before and after it is whitespace |
| Text.TrimCut | test.py:42 | stripping the left and then the right end cuts whitespace only, from both ends |
| Text.CutOfTrims | test.py:42 | a whitespace-only suffix cut from a whitespace-only-prefixed tail leaves a slice of the original with only whitespace around it |
| Text.SliceChars | test.py:42 | every character of a slice is a character of the string |
| Text.StripTrimmed | test.py:165 | stripping a string with no outer whitespace leaves it unchanged |
| Text.StripIdempotent | test.py:165 | stripping twice is stripping once |
| Conversation.TextsAppend | client.py:235-238 | the texts of two runs of blocks are the texts of each, in order |
| Conversation.ToolUsesAppend | client.py:235-240 | the tool calls of two runs of blocks are the calls of each, in order |
| Conversation.ToolUsesExactly | test.py:97-102 | the tool-use list is empty exactly when no block of the reply is a `tool_use` |
| Conversation.RepliesAppend | client.py:243 | assistant messages are counted part by part |
| Conversation.NoReplies | client.py:270 | a history holds no assistant message exactly when every message is the user's |
| Rpc.Classify | client.py:95-119 | a read succeeds exactly when it is a decoded object without `error`; every timeout, empty read, undecodable line, non-object and error reply fails |
| Rpc.SendStamps | client.py:72-84 | a request moves `message_id` up by one and is written with the new id, which is above every id already used |
| Rpc.SendReply | client.py:70-119 | `_send_request` returns exactly the classification of the reply to its own request: it raises on a timeout, an empty or undecodable line, a non-object or an `error` reply, and otherwise returns `result` or `{}` |
| Rpc.NotificationStamps | client.py:139-145 | the `notifications/initialized` line carries no id and keeps the ids fresh |
| Rpc.InitializeStamps | client.py:121-148 | the handshake consumes two ids, writes `initialize` with the second, and adds the notification only on success |
| Rpc.InitializeReply | client.py:121-148 | the handshake succeeds or fails exactly as the reply to `initialize`, sent with the second id drawn, is classified |
| Rpc.ListToolsStamps | client.py:154-160 | `list_tools` writes one `tools/list` request with `{}` as its parameters and the next id |
| Rpc.ListToolsReply | client.py:154-160 | a failed read or an `error` reply to `tools/list` makes `list_tools` raise with that failure; otherwise the tools are taken out of the returned result |
| Rpc.CallToolSends | client.py:162-168 | `call_tool` writes one `tools/call` request with `{name, arguments}` and the next id, whatever the reply |
| Rpc.CallToolReply | client.py:162-176 | `call_tool` raises with the reply's failure, and otherwise returns the content extracted from the reply's `result`, `{}` when absent |
| Rpc.CallToolStamps | client.py:162-168 | after `call_tool` the ids on the wire are still strictly increasing and none is above the counter |
| Rpc.FreshHandshake | client.py:121-157 | on a fresh client, `initialize` goes out with id 2, the notification follows on success, and `tools/list` then uses id 3 |
| Rpc.TimeoutIgnoresExitCode | client.py:110-115 | a timeout fails with the same message whether or not the process has exited |
| Rpc.ErrorKeyWins | client.py:103-105 | a reply carrying `error` fails with that payload even when it also has `result` |
| Rpc.ResultOrEmpty | client.py:108 | without `error`, the call returns `result`, or `{}` when it has none |
| Rpc.ResponseIdIgnored | client.py:101-108 | the reply's `id` has no effect on the outcome |
| Rpc.ContentFirstElement | client.py:171-175 | a non-empty `content` list yields its first element's `text`, or that element when it has none |
| Rpc.ContentPassedThrough | client.py:171-176 | anything but a non-empty list is returned as it is, and `[]` when `content` is absent |
| Rpc.Client.constructor | client.py:22-25 | a new client has counter 0, has written nothing, and has `browser_args or []` |
| Rpc.Client.NextId | client.py:150-152 | `next_id` raises the counter by one and returns the new value |
| Rpc.Client.SendRequest | client.py:70-119 | the counter and the written lines become those of `SendStep`, and the ids stay fresh; the result is `SendStep`'s, which `SendReply` ties to the reply |
| Rpc.Client.Initialize | client.py:121-148 | the new state and result are those of `InitializeStep`, and the ids stay fresh; `InitializeReply` ties the result to the reply to `initialize` |
| Rpc.Client.ListTools | client.py:154-160 | the new state and result are those of `ListToolsStep`, and the ids stay fresh; `ListToolsReply` and `ListToolsResult` tie the result to the reply |
| Rpc.ListToolsResult | client.py:154-160 | when the reply has no `error`, `list_tools` returns the `tools` field, `[]` when the field or the whole `result` is absent; it raises when `result` is not an object (`response.get`) and when `tools` has no length (`len(tools)` on the log line) |
| Rpc.Client.CallTool | client.py:162-176 | the new state and result are those of `CallToolStep`, which `CallToolReply` ties to the reply |
| Agent.ConvertAllTotal | client.py:198-209 | conversion succeeds exactly when every tool converts, and then keeps one entry per tool, in catalog order |
| Agent.ConvertAllStopsAtFailure | client.py:199-201 | the first tool that raises fails the whole conversion |
| Agent.CatalogItems | client.py:199 | `for tool in tools` goes through a list's elements, and through nothing for an empty dict or string; any other value makes the loop raise |
| Agent.ClaudeToolDefaults | client.py:200-208 | a tool without `name` raises `KeyError('name')`; a tool with one converts with that name, its `description` and `inputSchema` copied when present, and defaulted to `""` and an object schema with no properties when absent |
| Agent.ConvertTools | client.py:198-209 | the conversion loop yields exactly what `ConvertAll` specifies |
| Agent.ScanReply | client.py:232-240 | `text_content` is the concatenated text blocks and `tool_calls` the `tool_use` blocks, in order |
| Agent.FailedCallReported | client.py:261-268 | a call that raised is reported as an error-flagged result whose text starts with `Error: ` |
| Agent.SucceededCallReported | client.py:254-260 | a string result is passed to the model unchanged and not flagged |
| Agent.AnswerCallsAnswerEach | client.py:251-270 | every tool call gets exactly one user message with its `tool_use_id`, in order, even when the call fails |
| Agent.AnswerCallsResults | client.py:251-270 | the `i`-th answer is `ResultMessage` of the `i`-th call's outcome, run on the state the earlier calls left: its result as a string, or `Error: ` and the message, flagged, when the call raised; a failing call does not stop the later ones |
| Agent.BeforeShift | client.py:251-255 | after the first call, the state before the `i`-th call is the state before the rest's `i - 1`-th |
| Agent.CallRequestsFirst | client.py:251-255 | a run of calls writes the first call's request, then the rest's from the next id |
| Agent.AnswersFromUser | client.py:270 | what a turn's calls append are user messages only |
| Agent.AnswerCallsRequests | client.py:251-255 | the calls go out as consecutive `tools/call` requests with consecutive ids, in emission order |
| Agent.AnswerCallsAppend | client.py:251-255 | a turn's calls only add to the written lines and only raise the counter |
| Agent.AnswerCallsStamped | client.py:251-255 | the ids stay fresh across a turn's calls |
| Agent.ExecuteToolCalls | client.py:251-270 | the loop's state and messages are those of `AnswerCalls`, and the ids stay fresh |
| Agent.TurnsEnd | client.py:215-273 | the model is called at most 30 times, at least once, and the text returned is that of the last reply; below 30 calls, the last reply had no tool call |
| Agent.FinalReply | client.py:243-248 | a history ending with the reply ends with a reply and nothing after it |
| Agent.TurnsLastReply | client.py:243-273 | the reply whose text the loop returns is the last assistant message of the history, with only user messages after it |
| Agent.TranscriptStep | client.py:243-270 | one turn is the model's reply followed only by user messages |
| Agent.TurnsTranscript | client.py:223-270 | the history is only appended to, every assistant message is the model's reply to exactly the history before it, and their count is the number of model calls |
| Agent.TurnsNext | client.py:218-270 | an iteration whose reply asks for tools hands over to the next iteration with every call answered |
| Agent.TurnsGrows | client.py:218-270 | over the whole loop the written lines are only appended to and the counter never goes down |
| Agent.TurnsFresh | client.py:218-270 | over the whole loop the ids on the wire stay fresh |
| Agent.TurnsStamped | client.py:218-270 | over the whole loop the ids on the wire stay fresh and the written lines are only appended to |
| Agent.CeilingWhenAlwaysTools | client.py:215-219 | a model that asks for a tool in every reply is stopped by the ceiling after exactly 30 calls |
| Agent.SessionBounded | client.py:213-273 | a session started on the task calls the model between 1 and 30 times and keeps the task as the first message |
| Agent.TakeTurn | client.py:218-270 | one pass calls the model on the history, scans the reply, and either ends with the run `Turns` predicts or leaves a state from which `Turns` predicts the same run |
| Agent.Converse | client.py:213-273 | the loop returns the text of the run `Session` specifies, leaves the client in that run's state, and keeps the ids fresh |
| Agent.Browse | client.py:185-273 | `browse` returns the session's text, or the first failure of the handshake, listing or conversion |
| Bridge.ToAnthropic | test.py:17-25 | the name is kept, the description defaults to `""`, and the schema is never empty: a non-empty published schema is kept as it is, and an empty or missing one becomes the permissive schema |
| Bridge.Catalog | test.py:75 | the catalog has one entry per listed tool, in order, and the `i`-th entry is the conversion of the `i`-th tool |
| Bridge.TextPartsExactly | test.py:38-41 | only text items contribute, and none is collected exactly when no item is text |
| Bridge.UnstructuredText | test.py:38-42 | the unstructured text has no outer whitespace; it is `""` when no item is text and the stripped text when the only item is text |
| Bridge.CallMcpTool | test.py:31-44 | exactly one invocation is made, and the result is the exception message or the joined, stripped text with the structured content |
| Bridge.ResultParts | test.py:119-123 | a text part appears exactly when the text is non-empty, and comes first; a JSON part appears exactly when structured content exists, and comes last |
| Bridge.FailedToolBlock | test.py:128-134 | a call that raised is answered by one flagged `tool_result` with its id, holding the single text `Tool error: ` and the message |
| Bridge.ReturnedToolBlock | test.py:117-127 | a call that returned is answered by an unflagged `tool_result` with its id, holding its text first when non-empty and its structured content last when present, and nothing else |
| Bridge.InvocationsPrefix | test.py:113-117 | the invocations of the first `n` tool uses are the first `n` invocations |
| Bridge.RunToolsLog | test.py:113-117 | each tool use is invoked exactly once, in order, with `{}` in place of a missing input |
| Bridge.RunToolsAnswers | test.py:112-135 | each tool use is answered by one `tool_result` with its id, in order |
| Bridge.RunToolsErrors | test.py:116-135 | a result is flagged as an error exactly when its invocation raised |
| Bridge.RunToolsBlocks | test.py:112-135 | the `k`-th result block is the `tool_result` of the `k`-th tool use's own outcome, the server having seen every invocation up to and including that one |
| Bridge.ResultsLast | test.py:112-135 | answering one more tool use keeps the earlier result blocks and adds the block of the new use's outcome |
| Bridge.AnswersLast | test.py:124-135 | answering one more tool use with a `tool_result` carrying its id keeps the answers one for one, in order |
| Bridge.FlagLast | test.py:113-135 | answering one more tool use keeps the earlier flags and flags the new result exactly when its own invocation raised |
| Bridge.FlagEarlier | test.py:113-135 | an earlier tool use's flag still matches its own invocation once a later use is counted in |
| Bridge.EarlierInvocations | test.py:113-117 | dropping the last tool use leaves the invocations of the earlier ones unchanged |
| Bridge.ExecuteTools | test.py:112-135 | the loop's result blocks and invocations are those `RunTools` specifies |
| Bridge.CollectToolUses | test.py:96-100 | the scan collects exactly the reply's `tool_use` blocks, in order |
| Bridge.CollectTexts | test.py:104-107 | the scan collects exactly the reply's texts, in order |
| Bridge.OutputShape | test.py:108 | the output starts with the banner; a reply without text prints `(no text)`, and a single text is printed as it is |
| Bridge.ServerArgs | test.py:56-61 | the built argument list is `ServerArgList` |
| Bridge.ServerArgsLayout | test.py:56-61 | the package comes first, `--headless` follows exactly when headless, the comma-joined caps follow `--caps` exactly when there are caps, and the extra flags come last, unchanged |
| Bridge.RunCli | test.py:48-152 | without a key the run is refused with the key message; otherwise the result is the session `CliSession` specifies |
| Bridge.CliTranscript | test.py:94-152 | the loop appends two messages per tool turn and nothing else: the reply and one user message answering all its tool uses |
| Bridge.CliPrinted | test.py:102-109 | when the loop prints, what it prints is the text of the model's last reply, which has no tool use |
| Bridge.CliModelDriven | test.py:138-152 | every appended reply is the model's answer to exactly the history before it |
| Bridge.NoIterationCeiling | test.py:94 | against a model that always asks for tools, the loop never stops: any budget is used up, one model call per unit |
| Bridge.CliSessionTranscript | test.py:81-152 | with a key set, the transcript is the prompt followed by tool turns, one per model call after the first |
| Bridge.CleanCapsWellFormed | test.py:165 | every cleaned cap is non-empty, has no outer whitespace, and contains no separator |
| Bridge.CleanCapsFixed | test.py:165 | caps that are already clean pass through unchanged |
| Bridge.CleanCapsAppend | test.py:165 | the caps of two runs of pieces are the caps of each, in order |
| Bridge.CleanCapsOne | test.py:165 | one piece yields itself stripped when that is non-empty, and nothing otherwise |
| Bridge.CleanCapsKeeps | test.py:165 | every piece with content appears, stripped, among the caps |
| Bridge.CleanCapsDrawn | test.py:165 | every cap is non-empty and is one of the pieces, stripped |
| Bridge.CleanCapsMembers | test.py:165 | the caps are exactly the stripped pieces that have content |
| Bridge.ParseCapsWellFormed | test.py:165 | every parsed cap is non-empty, stripped and comma-free |
| Bridge.ParseCapsPieces | test.py:165 | a string is a parsed cap exactly when it is non-empty and is one of the comma-separated pieces of the flag, stripped |
| Bridge.CleanListRoundTrip | test.py:165 | clean caps joined with the separator split and clean back to themselves |
| Bridge.ParseCapsRoundTrip | test.py:165 | re-parsing the comma-joined caps gives the same caps |
| Bridge.CommandLine | test.py:156-167 | the prompt is passed on, the run is headless exactly when `--headed` is absent, the caps are exactly those `ParseCaps` cleans from `--caps` (each non-empty, stripped and comma-free), and the extra flags are passed on unchanged, `[]` when absent |
| Bridge.CapsArgumentSplits | test.py:59-60 | the argument after `--caps` splits on commas into exactly the clean caps it was built from |
| Bridge.CapsReachServer | test.py:165-167 | the caps `main` parses reach the server's argument list intact |

## Left out

- Process handling is not modelled: spawning `npx`, the stderr reader, the two-second sleep, and terminating the server on exit. The server's stdout is the oracle.
- JSON text is not modelled. Encoding with `json.dumps` and decoding with `json.loads` are abstracted: a read is already decoded, or marked undecodable.
- The constant `"jsonrpc": "2.0"` member of every written line is left out, since it never varies.
- Numbers are integers only. JSON floats are left out.
- `str()` of a value that is not a string is a parameter of the model. Python's formatting is not modelled.
- The messages of Python's own exceptions (`KeyError`, `TypeError`, `JSONDecodeError`) are approximated by the `RpcError` cases and `Describe`.
- The system prompt, model names and `max_tokens` are left out. So is logging, except one call: the log line in `list_tools` (client.py:159) takes `len(tools)`, which raises for a value without a length. `ToolsOf` models that raise.
- Exceptions raised by the model API are left out. The model is a total function.
- Bridge.RunCli: the source's `while True` has no bound, so the model carries a `fuel` budget of extra model calls. A run that exhausts it ends as `OutOfFuel`. `NoIterationCeiling` shows that no budget stops a model that always asks for tools.
- Content items other than text (images, resources) are modelled as one `OtherContent` case.
- The MCP SDK's own `initialize` and `list_tools` are not modelled. `run_cli` receives the listed catalog as an input.
- `main.py` is not part of this model.
- A non-dict decoded line makes Python raise a `TypeError` or an `AttributeError`. The model fails with `WrongShape`.
- Responses are not matched to requests by id. A timeout does not report the process's exit code, although a message is logged. The model follows the code in both cases; see `ResponseIdIgnored` and `TimeoutIgnoresExitCode`.
