/** The authoritative fold of provider stream events into a model response. */
module ResponseBuilder {
  import opened Protocol

  datatype OpenPart = NoPart | OpenText(blockIndex: nat) | OpenThinking(blockIndex: nat)

  datatype OpenTool = OpenTool(id: string, name: string, inputJson: string, finished: Option<(string, Json)>)

  datatype BuilderState = BuilderState(
    model: Option<string>,
    content: seq<ContentBlock>,
    openPart: OpenPart,
    openText: string,
    openThinking: string,
    openTools: seq<OpenTool>,
    stopReason: Option<StopReason>,
    usage: Option<Usage>,
    responseId: Option<string>,
    finished: bool)

  function NewState(model: string): BuilderState {
    BuilderState(Some(model), [], NoPart, "", "", [], None, None, None, false)
  }

  function Unrecoverably(message: string): LlmError {
    RequestFailed(Unrecoverable, message)
  }

  // ---- Specification of the mutable builder ------------------------------

  function FlushedPart(b: BuilderState): BuilderState {
    match b.openPart
    case OpenText(_) =>
      if b.openText == "" then b.(openPart := NoPart)
      else b.(openPart := NoPart, content := b.content + [Text(b.openText)], openText := "")
    case OpenThinking(_) =>
      if b.openThinking == "" then b.(openPart := NoPart)
      else b.(openPart := NoPart, content := b.content + [Thinking(b.openThinking)], openThinking := "")
    case NoPart => b
  }

  function WithPart(b: BuilderState, part: OpenPart): BuilderState {
    if b.openPart == part then b else FlushedPart(b).(openPart := part)
  }

  function FinishedBlock(tool: OpenTool): ContentBlock
    requires tool.finished.Some?
  {
    ToolUse(tool.id, tool.finished.value.0, tool.finished.value.1)
  }

  /** Moves the finished tools at the front of the queue into the content. */
  function FlushedTools(b: BuilderState): BuilderState
    decreases |b.openTools|
  {
    if b.openTools == [] || b.openTools[0].finished.None? then b
    else FlushedTools(b.(content := b.content + [FinishedBlock(b.openTools[0])], openTools := b.openTools[1..]))
  }

  /** The position of the first queued tool with this id, or the queue length. */
  function FindTool(tools: seq<OpenTool>, id: string): (i: nat)
    ensures i <= |tools|
    ensures i < |tools| ==> tools[i].id == id
    ensures forall j :: 0 <= j < i ==> tools[j].id != id
  {
    if tools == [] || tools[0].id == id then 0 else 1 + FindTool(tools[1..], id)
  }

  /** The first queued tool that has not finished, or the queue length. */
  function FirstUnfinished(tools: seq<OpenTool>): (i: nat)
    ensures i <= |tools|
    ensures i < |tools| ==> tools[i].finished.None?
    ensures forall j :: 0 <= j < i ==> tools[j].finished.Some?
  {
    if tools == [] || tools[0].finished.None? then 0 else 1 + FirstUnfinished(tools[1..])
  }

  function PendingOf(b: BuilderState): Option<PendingBlock> {
    var i := FirstUnfinished(b.openTools);
    if i < |b.openTools| then
      var tool := b.openTools[i];
      Some(PendingToolUse(tool.id, tool.name, tool.inputJson))
    else if b.openPart.OpenText? && b.openText != "" then Some(PendingText(b.openText))
    else if b.openPart.OpenThinking? && b.openThinking != "" then Some(PendingThinking(b.openThinking))
    else None
  }

  function SnapshotOf(b: BuilderState): ModelResponseSnapshot {
    ModelResponseSnapshot(b.content, PendingOf(b), b.stopReason, b.usage, b.model)
  }

  /** The state after an event, and the error if the event is refused. */
  function Applied(b: BuilderState, event: ModelStreamEvent): (BuilderState, Option<LlmError>) {
    if b.finished then (b, Some(Unrecoverably("stream already finished")))
    else
      match event
      case TextPart(blockIndex, text) =>
        var b' := WithPart(b, OpenText(blockIndex));
        (b'.(openText := b'.openText + text), None)
      case ThinkingPart(blockIndex, thinking) =>
        var b' := WithPart(b, OpenThinking(blockIndex));
        (b'.(openThinking := b'.openThinking + thinking), None)
      case ToolUseStarted(id, name) =>
        var b' := FlushedPart(b);
        if FindTool(b'.openTools, id) < |b'.openTools| then
          (b', Some(Unrecoverably("duplicate ToolUseStarted")))
        else (b'.(openTools := b'.openTools + [OpenTool(id, name, "", None)]), None)
      case ToolUsePart(id, inputJson) =>
        var i := FindTool(b.openTools, id);
        if i == |b.openTools| then (b, Some(Unrecoverably("ToolUsePart without ToolUseStarted")))
        else if b.openTools[i].finished.Some? then (b, Some(Unrecoverably("ToolUsePart after ToolUseFinished")))
        else
          var tool := b.openTools[i];
          (b.(openTools := b.openTools[i := tool.(inputJson := tool.inputJson + inputJson)]), None)
      case ToolUseFinished(id, name, input) =>
        var i := FindTool(b.openTools, id);
        if i == |b.openTools| then (b, Some(Unrecoverably("ToolUseFinished without ToolUseStarted")))
        else if b.openTools[i].finished.Some? then (b, Some(Unrecoverably("duplicate ToolUseFinished")))
        else
          (FlushedTools(b.(openTools := b.openTools[i := b.openTools[i].(finished := Some((name, input)))])), None)
      case Finished(stopReason, usage, responseId) =>
        var b' := FlushedPart(b);
        if b'.openTools != [] then (b', Some(Unrecoverably("Finished with unfinished tool use")))
        else (b'.(stopReason := Some(stopReason), usage := usage, responseId := responseId, finished := true), None)
  }

  function FinishOf(b: BuilderState): Result<ModelResponse, LlmError> {
    if !b.finished then Err(Unrecoverably("stream ended without Finished"))
    else if b.stopReason.None? then Err(Unrecoverably("Finished without stop_reason"))
    else Ok(ModelResponse(b.content, b.stopReason.value, b.usage, b.model, b.responseId))
  }

  // ---- The builder -------------------------------------------------------

  class ModelResponseBuilder {
    const model: Option<string>
    var content: seq<ContentBlock>
    var openPart: OpenPart
    var openText: string
    var openThinking: string
    var openTools: seq<OpenTool>
    var stopReason: Option<StopReason>
    var usage: Option<Usage>
    var responseId: Option<string>
    var finished: bool

    function State(): BuilderState
      reads this
    {
      BuilderState(model, content, openPart, openText, openThinking, openTools, stopReason, usage, responseId, finished)
    }

    constructor (model: string)
      ensures State() == NewState(model)
    {
      this.model := Some(model);
      content, openPart, openText, openThinking, openTools := [], NoPart, "", "", [];
      stopReason, usage, responseId, finished := None, None, None, false;
    }

    method FlushOpenPart()
      modifies this
      ensures State() == FlushedPart(old(State()))
    {
      var part := openPart;
      openPart := NoPart;
      match part {
        case OpenText(_) =>
          if openText != "" {
            content := content + [Text(openText)];
            openText := "";
          }
        case OpenThinking(_) =>
          if openThinking != "" {
            content := content + [Thinking(openThinking)];
            openThinking := "";
          }
        case NoPart =>
      }
    }

    method EnsurePart(part: OpenPart)
      modifies this
      ensures State() == WithPart(old(State()), part)
    {
      if openPart != part {
        FlushOpenPart();
        openPart := part;
      }
    }

    method FlushFinishedTools()
      modifies this
      ensures State() == FlushedTools(old(State()))
    {
      while |openTools| > 0 && openTools[0].finished.Some?
        invariant FlushedTools(State()) == FlushedTools(old(State()))
        decreases |openTools|
      {
        var tool := openTools[0];
        openTools := openTools[1..];
        content := content + [FinishedBlock(tool)];
      }
    }

    method Apply(event: ModelStreamEvent) returns (r: Result<ModelResponseSnapshot, LlmError>)
      modifies this
      ensures State() == Applied(old(State()), event).0
      ensures r == match Applied(old(State()), event).1
                   case Some(error) => Err(error)
                   case None => Ok(SnapshotOf(State()))
    {
      if finished {
        return Err(Unrecoverably("stream already finished"));
      }
      match event {
        case TextPart(blockIndex, text) =>
          EnsurePart(OpenText(blockIndex));
          openText := openText + text;
        case ThinkingPart(blockIndex, thinking) =>
          EnsurePart(OpenThinking(blockIndex));
          openThinking := openThinking + thinking;
        case ToolUseStarted(id, name) =>
          FlushOpenPart();
          if FindTool(openTools, id) < |openTools| {
            return Err(Unrecoverably("duplicate ToolUseStarted"));
          }
          openTools := openTools + [OpenTool(id, name, "", None)];
        case ToolUsePart(id, inputJson) =>
          var i := FindTool(openTools, id);
          if i == |openTools| {
            return Err(Unrecoverably("ToolUsePart without ToolUseStarted"));
          }
          var tool := openTools[i];
          if tool.finished.Some? {
            return Err(Unrecoverably("ToolUsePart after ToolUseFinished"));
          }
          openTools := openTools[i := tool.(inputJson := tool.inputJson + inputJson)];
        case ToolUseFinished(id, name, input) =>
          var i := FindTool(openTools, id);
          if i == |openTools| {
            return Err(Unrecoverably("ToolUseFinished without ToolUseStarted"));
          }
          if openTools[i].finished.Some? {
            return Err(Unrecoverably("duplicate ToolUseFinished"));
          }
          openTools := openTools[i := openTools[i].(finished := Some((name, input)))];
          FlushFinishedTools();
        case Finished(reason, usage, responseId) =>
          FlushOpenPart();
          if openTools != [] {
            return Err(Unrecoverably("Finished with unfinished tool use"));
          }
          stopReason := Some(reason);
          this.usage := usage;
          this.responseId := responseId;
          finished := true;
      }
      r := Ok(SnapshotOf(State()));
    }

    method Finish() returns (r: Result<ModelResponse, LlmError>)
      ensures r == FinishOf(State())
    {
      if !finished {
        return Err(Unrecoverably("stream ended without Finished"));
      }
      if stopReason.None? {
        return Err(Unrecoverably("Finished without stop_reason"));
      }
      r := Ok(ModelResponse(content, stopReason.value, usage, model, responseId));
    }
  }
}
