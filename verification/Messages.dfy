/** The transcript messages shared by the session store, the agent loop and the retry machine. */
module Messages {

  datatype Option<+T> = None | Some(value: T)

  datatype Result<+T, +E> = Ok(value: T) | Err(error: E)

  datatype StopReason = Stop | Length | ToolUse | Error | Aborted

  datatype ToolCall = ToolCall(id: string, name: string, arguments: string)

  datatype Block = Text(text: string) | Thinking(thinking: string) | Call(call: ToolCall)

  datatype AgentMessage =
    | User(text: string)
    | Assistant(content: seq<Block>, stopReason: StopReason, errorMessage: string, provider: string, modelId: string)
    | ToolResult(toolCallId: string, toolName: string, output: string, isError: bool)
    | CustomMessage(customType: string, customContent: string, display: bool, details: string, timestamp: int)
    | BashExecution(command: string)
    | BranchSummary(summary: string, fromId: Option<nat>, timestamp: int)
    | CompactionSummary(summary: string, tokensBefore: nat, timestamp: int)

  /** The tool calls of an assistant message, in source order. */
  function ToolCallsIn(content: seq<Block>): (calls: seq<ToolCall>)
  {
    if content == [] then []
    else (if content[0].Call? then [content[0].call] else []) + ToolCallsIn(content[1..])
  }

  /** They are the calls among its blocks, each once, in the order of the blocks. */
  lemma {:induction false} CallsAreBlocks(a: seq<Block>, b: seq<Block>)
    ensures ToolCallsIn(a + b) == ToolCallsIn(a) + ToolCallsIn(b)
    ensures |a| == 1 ==> ToolCallsIn(a) == if a[0].Call? then [a[0].call] else []
  {
    if a == [] {
      assert a + b == b;
    } else {
      CallsAreBlocks(a[1..], b);
      assert (a + b)[1..] == a[1..] + b;
    }
  }

  function ToolCalls(m: AgentMessage): (calls: seq<ToolCall>)
  {
    if m.Assistant? then ToolCallsIn(m.content) else []
  }

  predicate Failed(m: AgentMessage)
  {
    m.Assistant? && (m.stopReason == Error || m.stopReason == Aborted)
  }

  /** What an LLM provider accepts as the end of a request: something, and not an assistant message. */
  predicate Continuable(messages: seq<AgentMessage>)
  {
    |messages| > 0 && !messages[|messages| - 1].Assistant?
  }
}
