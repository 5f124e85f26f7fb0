/** Materialization of the Session Item Log: the pairing automaton and its loop. */
module Materialize {
  import opened Protocol
  import opened Tools
  import opened SessionTypes

  datatype Phase =
    | Idle
    | Calls(blocks: seq<ContentBlock>, pending: map<string, string>)
    | Results(blocks: seq<ContentBlock>, pending: map<string, string>)
  {
    function Pending(): map<string, string> {
      if Idle? then map[] else pending
    }
  }

  datatype MaterializeError =
    | PlainItemInsideRound(pending: map<string, string>)
    | CallDuringResults(id: string, pending: map<string, string>)
    | DuplicateCall(id: string)
    | ResultWithoutCall(id: string)
    | UnknownResult(id: string)
    | NameMismatch(id: string, expected: string, got: string)
    | CompactionUnsupported
    | DanglingCalls(pending: map<string, string>)

  function ToolUseBlock(call: ToolCall): ContentBlock {
    ToolUse(call.toolUseId, call.name, call.input)
  }

  function ResultBlock(result: ToolResult): ContentBlock {
    ToolResultBlock(result.toolUseId,
                    match result.content
                    case PlainText(text) => TextContent(text)
                    case JsonContent(value) => TextContent(value.text))
  }

  function EnsureIdle(phase: Phase): Result<(), MaterializeError> {
    if phase.Idle? then Ok(()) else Err(PlainItemInsideRound(phase.pending))
  }

  function AppendCall(phase: Phase, call: ToolCall): Result<Phase, MaterializeError> {
    match phase
    case Idle => Ok(Calls([ToolUseBlock(call)], map[call.toolUseId := call.name]))
    case Calls(blocks, pending) =>
      if call.toolUseId in pending then Err(DuplicateCall(call.toolUseId))
      else Ok(Calls(blocks + [ToolUseBlock(call)], pending[call.toolUseId := call.name]))
    case Results(_, pending) => Err(CallDuringResults(call.toolUseId, pending))
  }

  function ValidatePendingResult(pending: map<string, string>, result: ToolResult): Result<(), MaterializeError> {
    if result.toolUseId !in pending then Err(UnknownResult(result.toolUseId))
    else if pending[result.toolUseId] != result.name then
      Err(NameMismatch(result.toolUseId, pending[result.toolUseId], result.name))
    else Ok(())
  }

  /** Consumes one result; also returns the messages it completes. */
  function AppendResult(phase: Phase, result: ToolResult): Result<(Phase, seq<Message>), MaterializeError> {
    if phase.Idle? then Err(ResultWithoutCall(result.toolUseId))
    else
      match ValidatePendingResult(phase.pending, result)
      case Err(e) => Err(e)
      case Ok(_) =>
        var assistant := if phase.Calls? then [Message(Assistant, BlockMessage(phase.blocks))] else [];
        var results := (if phase.Calls? then [] else phase.blocks) + [ResultBlock(result)];
        var pending := phase.pending - {result.toolUseId};
        if pending == map[] then Ok((Idle, assistant + [Message(User, BlockMessage(results))]))
        else Ok((Results(results, pending), assistant))
  }

  datatype Scan = Scan(messages: seq<Message>, phase: Phase)

  /** One item of the log. */
  function Consume(s: Scan, body: ItemBody): Result<Scan, MaterializeError> {
    match body
    case UserMessage(text) =>
      (match EnsureIdle(s.phase)
       case Err(e) => Err(e)
       case Ok(_) => Ok(s.(messages := s.messages + [Message(User, TextMessage(text))])))
    case AssistantMessage(blocks) =>
      (match EnsureIdle(s.phase)
       case Err(e) => Err(e)
       case Ok(_) => Ok(s.(messages := s.messages + [Message(Assistant, BlockMessage(blocks))])))
    case CallItem(call) =>
      (match AppendCall(s.phase, call)
       case Err(e) => Err(e)
       case Ok(phase) => Ok(s.(phase := phase)))
    case ResultItem(result) =>
      (match AppendResult(s.phase, result)
       case Err(e) => Err(e)
       case Ok((phase, completed)) => Ok(Scan(s.messages + completed, phase)))
    case CheckpointCreated(_) => Ok(s)
    case Compaction(_) => Err(CompactionUnsupported)
  }

  const START := Scan([], Idle)

  /** Scans a log from a given state, item by item from the left. */
  function ScanFrom(s: Scan, bodies: seq<ItemBody>): Result<Scan, MaterializeError>
    decreases |bodies|
  {
    if bodies == [] then Ok(s)
    else
      match ScanFrom(s, bodies[..|bodies| - 1])
      case Err(e) => Err(e)
      case Ok(t) => Consume(t, bodies[|bodies| - 1])
  }

  function Conclude(s: Scan): Result<seq<Message>, MaterializeError> {
    if s.phase.Idle? then Ok(s.messages) else Err(DanglingCalls(s.phase.pending))
  }

  /** Specification of `MaterializeLog`. */
  function MaterializeBodies(bodies: seq<ItemBody>): Result<seq<Message>, MaterializeError> {
    match ScanFrom(START, bodies)
    case Err(e) => Err(e)
    case Ok(s) => Conclude(s)
  }

  function Materialized(items: seq<SessionItem>): Result<seq<Message>, MaterializeError> {
    MaterializeBodies(Bodies(items))
  }

  lemma {:induction false} ScanAppend(s: Scan, a: seq<ItemBody>, b: seq<ItemBody>)
    ensures ScanFrom(s, a + b) ==
            match ScanFrom(s, a) case Err(e) => Err(e) case Ok(t) => ScanFrom(t, b)
    decreases |b|
  {
    if b == [] {
      assert a + b == a;
    } else {
      var b' := b[..|b| - 1];
      assert (a + b)[..|a + b| - 1] == a + b';
      ScanAppend(s, a, b');
    }
  }

  lemma ScanSnoc(s: Scan, a: seq<ItemBody>, body: ItemBody)
    ensures ScanFrom(s, a + [body]) ==
            match ScanFrom(s, a) case Err(e) => Err(e) case Ok(t) => Consume(t, body)
  {
    assert (a + [body])[..|a + [body]| - 1] == a;
  }

  /** The loop over the log, which keeps the messages and the phase in place. */
  method MaterializeLog(items: seq<SessionItem>) returns (r: Result<seq<Message>, MaterializeError>)
    ensures r == Materialized(items)
  {
    var messages: seq<Message> := [];
    var phase := Idle;
    var i := 0;
    while i < |items|
      invariant 0 <= i <= |items|
      invariant ScanFrom(START, Bodies(items)[..i]) == Ok(Scan(messages, phase))
    {
      ghost var bodies := Bodies(items);
      assert bodies[..i + 1] == bodies[..i] + [items[i].body];
      ScanSnoc(START, bodies[..i], items[i].body);
      var failure: Option<MaterializeError> := None;
      match items[i].body {
        case UserMessage(text) =>
          var idle := EnsureIdle(phase);
          if idle.Err? { failure := Some(idle.error); }
          messages := messages + [Message(User, TextMessage(text))];
        case AssistantMessage(blocks) =>
          var idle := EnsureIdle(phase);
          if idle.Err? { failure := Some(idle.error); }
          messages := messages + [Message(Assistant, BlockMessage(blocks))];
        case CallItem(call) =>
          var next := AppendCall(phase, call);
          if next.Err? { failure := Some(next.error); } else { phase := next.value; }
        case ResultItem(result) =>
          var next := AppendResult(phase, result);
          if next.Err? { failure := Some(next.error); } else {
            messages := messages + next.value.1;
            phase := next.value.0;
          }
        case CheckpointCreated(_) =>
        case Compaction(_) =>
          failure := Some(CompactionUnsupported);
      }
      if failure.Some? {
        assert bodies == bodies[..i + 1] + bodies[i + 1..];
        ScanAppend(START, bodies[..i + 1], bodies[i + 1..]);
        return Err(failure.value);
      }
      i := i + 1;
    }
    assert Bodies(items)[..i] == Bodies(items);
    r := Conclude(Scan(messages, phase));
  }
}
