/**
 * The model-facing side of both conversation loops: content blocks, messages,
 * tool schemas and the language model itself, which is an oracle.
 */
module Conversation {
  import opened Json

  datatype Role = User | Assistant

  /** A `tool_use` block's payload: the invocation id, the tool's name and its input. */
  datatype ToolCall = ToolCall(id: string, name: string, input: Json)

  /** A piece of a structured tool result (`{"type": "text"}` or `{"type": "json"}`). */
  datatype Part = TextPart(text: string) | JsonPart(json: Json)

  /** A tool result's `content`: a plain string, or a list of parts. */
  datatype ResultBody = Plain(text: string) | Parts(parts: seq<Part>)

  /** A content block, discriminated by its `type` tag. */
  datatype Block =
    | Text(text: string)
    | ToolUse(call: ToolCall)
    | ToolResult(toolUseId: string, body: ResultBody, isError: bool)

  /** A message's `content`: the task string, or a list of blocks. */
  datatype Content = Prompt(text: string) | Blocks(blocks: seq<Block>)

  datatype Message = Message(role: Role, content: Content)

  /** A tool as the model API takes it: `name`, `description`, `input_schema`. */
  datatype ToolSchema = ToolSchema(name: Json, description: Json, inputSchema: Json)

  /**
   * The language model: given the tool catalog and the whole message history,
   * the content blocks of its reply.
   */
  type Model = (seq<ToolSchema>, seq<Message>) -> seq<Block>

  /** The texts of the `text` blocks, in order. */
  function Texts(blocks: seq<Block>): seq<string> {
    if blocks == [] then []
    else
      var last := blocks[|blocks| - 1];
      Texts(blocks[..|blocks| - 1]) + (if last.Text? then [last.text] else [])
  }

  /** The `tool_use` blocks' calls, in order. */
  function ToolUses(blocks: seq<Block>): seq<ToolCall> {
    if blocks == [] then []
    else
      var last := blocks[|blocks| - 1];
      ToolUses(blocks[..|blocks| - 1]) + (if last.ToolUse? then [last.call] else [])
  }

  /** Scanning two runs of blocks one after the other collects their texts one after the other. */
  lemma {:induction false} TextsAppend(a: seq<Block>, b: seq<Block>)
    ensures Texts(a + b) == Texts(a) + Texts(b)
    decreases |b|
  {
    if b != [] {
      assert (a + b)[..|a + b| - 1] == a + b[..|b| - 1];
      TextsAppend(a, b[..|b| - 1]);
    } else {
      assert a + b == a;
    }
  }

  /** Scanning two runs of blocks one after the other collects their calls one after the other. */
  lemma {:induction false} ToolUsesAppend(a: seq<Block>, b: seq<Block>)
    ensures ToolUses(a + b) == ToolUses(a) + ToolUses(b)
    decreases |b|
  {
    if b != [] {
      assert (a + b)[..|a + b| - 1] == a + b[..|b| - 1];
      ToolUsesAppend(a, b[..|b| - 1]);
    } else {
      assert a + b == a;
    }
  }

  /** Every call collected comes from a `tool_use` block, and every such block is collected. */
  lemma {:induction false} ToolUsesExactly(blocks: seq<Block>)
    ensures |ToolUses(blocks)| <= |blocks|
    ensures ToolUses(blocks) == [] <==> forall i :: 0 <= i < |blocks| ==> !blocks[i].ToolUse?
    decreases |blocks|
  {
    if blocks != [] {
      ToolUsesExactly(blocks[..|blocks| - 1]);
      var init := blocks[..|blocks| - 1];
      assert forall i :: 0 <= i < |init| ==> init[i] == blocks[i];
    }
  }

  /** How many of the messages are the model's replies. */
  function Replies(ms: seq<Message>): nat {
    if ms == [] then 0
    else Replies(ms[..|ms| - 1]) + (if ms[|ms| - 1].role == Assistant then 1 else 0)
  }

  /** Replies are counted part by part. */
  lemma {:induction false} RepliesAppend(a: seq<Message>, b: seq<Message>)
    ensures Replies(a + b) == Replies(a) + Replies(b)
    decreases |b|
  {
    if b != [] {
      assert (a + b)[..|a + b| - 1] == a + b[..|b| - 1];
      RepliesAppend(a, b[..|b| - 1]);
    } else {
      assert a + b == a;
    }
  }

  /** User messages hold no reply; a count of zero means none is the model's. */
  lemma {:induction false} NoReplies(ms: seq<Message>)
    ensures Replies(ms) == 0 <==> forall i :: 0 <= i < |ms| ==> ms[i].role == User
    decreases |ms|
  {
    if ms != [] {
      NoReplies(ms[..|ms| - 1]);
      var init := ms[..|ms| - 1];
      assert forall i :: 0 <= i < |init| ==> init[i] == ms[i];
    }
  }
}
