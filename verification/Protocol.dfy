/** Provider-neutral model protocol: the values exchanged between the kernel and a model provider. */
module Protocol {

  datatype Option<+T> = None | Some(value: T)

  datatype Result<+T, +E> = Ok(value: T) | Err(error: E)

  const U32_MAX: nat := 0xFFFF_FFFF
  const U64_MAX: nat := 0xFFFF_FFFF_FFFF_FFFF

  function Least(a: nat, b: nat): nat {
    if a < b then a else b
  }

  lemma Regroup<T>(a: seq<T>, b: seq<T>, c: seq<T>)
    ensures (a + b) + c == a + (b + c)
    ensures [] + b == b
  {
  }

  /** A JSON value, identified with its compact serialization. */
  datatype Json = Json(text: string)

  datatype ContentBlock =
    | Text(text: string)
    | Thinking(thinking: string)
    | ToolUse(id: string, name: string, input: Json)
    | ToolResultBlock(toolUseId: string, content: ToolResultContent)

  datatype ToolResultContent =
    | TextContent(text: string)
    | BlockContent(blocks: seq<ContentBlock>)

  datatype Role = System | User | Assistant

  datatype MessageContent =
    | TextMessage(text: string)
    | BlockMessage(blocks: seq<ContentBlock>)

  datatype Message = Message(role: Role, content: MessageContent)

  datatype StopReason = EndTurn | ToolUseStop | MaxTokens | OtherStop(reason: string)

  datatype Usage = Usage(inputTokens: nat, outputTokens: nat)

  datatype ModelResponse = ModelResponse(
    content: seq<ContentBlock>,
    stopReason: StopReason,
    usage: Option<Usage>,
    model: Option<string>,
    responseId: Option<string>)

  datatype PendingBlock =
    | PendingText(text: string)
    | PendingThinking(thinking: string)
    | PendingToolUse(id: string, name: string, inputJson: string)

  datatype ModelResponseSnapshot = ModelResponseSnapshot(
    content: seq<ContentBlock>,
    pending: Option<PendingBlock>,
    stopReason: Option<StopReason>,
    usage: Option<Usage>,
    model: Option<string>)

  /** One decoded item of a provider stream. */
  datatype ModelStreamEvent =
    | TextPart(blockIndex: nat, text: string)
    | ThinkingPart(blockIndex: nat, thinking: string)
    | ToolUseStarted(id: string, name: string)
    | ToolUsePart(id: string, inputJson: string)
    | ToolUseFinished(id: string, name: string, input: Json)
    | Finished(stopReason: StopReason, usage: Option<Usage>, responseId: Option<string>)

  datatype CancelReason = ByUser | ByParent | ByHook | ByDisposal

  datatype RequestFailureKind = Recoverable | Unrecoverable

  datatype LlmError =
    | LlmCancelled(reason: CancelReason)
    | RequestFailed(kind: RequestFailureKind, message: string)

  /** The part of a model request that a turn decides; the rest is fixed call configuration. */
  datatype ModelRequest = ModelRequest(
    system: string,
    messages: seq<Message>,
    previousResponseId: Option<string>)
}
