/**
 * The turn protocol as functions of a scripted outside world: what a turn does to the log, what it
 * shows to observers, and how it ends. Every observation of the world advances a clock, so a script
 * fixes each provider stream, approval answer, executor outcome, append and cancellation moment.
 */
module TurnSpec {
  import opened Protocol
  import opened Tools
  import opened SessionTypes
  import opened SessionStores
  import opened Materialize
  import opened ResponseBuilder
  import opened ResponseActions
  import opened ToolRuntimes
  import opened TurnEvents

  // ---- The outside world -------------------------------------------------

  datatype StreamItem = StreamItem(delay: nat, item: Result<ModelStreamEvent, LlmError>)

  datatype ModelStream = ModelStream(items: seq<StreamItem>, endDelay: nat)

  datatype ApprovalAnswer = Answered(approval: ToolApproval) | HandlerFailed

  /** What the outside answers when it is observed at a given time. */
  datatype World = World(
    stream: nat -> ModelStream,
    approval: nat -> ApprovalAnswer,
    execution: nat -> ExecutionAnswer,
    delay: nat -> nat,
    appendOk: nat -> bool)

  /** A turn's surroundings; the token is cancelled from `cancelAt` on. */
  datatype Context = Context(world: World, cancelAt: Option<nat>, sessionId: Id, runtime: ToolRuntime)

  predicate IsCancelled(c: Context, time: nat) {
    c.cancelAt.Some? && c.cancelAt.value <= time
  }

  /** A wait is interrupted when the token is cancelled before the wait is over. */
  predicate Interrupted(c: Context, time: nat, delay: nat) {
    delay > 0 && IsCancelled(c, time + delay - 1)
  }

  // ---- State -------------------------------------------------------------

  /**
   * What the outside is shown or asked. An executor starts at a time, and finds some items in the log; an approval is
   * asked for at a time.
   */
  datatype Observation =
    | Emitted(event: TurnEvent)
    | Requested(llmCallId: Id, request: ModelRequest)
    | Responded(llmCallId: Id, response: ModelResponse)
    | ApprovalGiven(call: ToolCall, answer: ApprovalAnswer, asked: nat)
    | ExecutionStarted(call: ToolCall, tokenCancelled: bool, logged: nat, started: nat)

  datatype Run = Run(log: seq<SessionItem>, trace: seq<Observation>, now: nat) {
    function Tick(): Run {
      this.(now := now + 1)
    }

    function Wait(delay: nat): Run {
      this.(now := now + delay + 1)
    }

    function Observe(observation: Observation): Run {
      this.(trace := trace + [observation])
    }

    function Show(event: TurnEvent): Run {
      Observe(Emitted(event))
    }
  }

  datatype TurnPolicy = TurnPolicy(maxSteps: nat, maxLlmRetries: nat)

  datatype CallConfig = CallConfig(model: string, previousResponseId: Option<string>)

  datatype TurnInput = TurnInput(text: string, config: CallConfig, systemPrompt: string, policy: TurnPolicy)

  datatype Cause = CallCancelledCause | ToolFailure(error: ToolError)

  datatype TurnError =
    | InvalidPolicy
    | EmptyText
    | TurnCancelled
    | BadHistory(history: MaterializeError)
    | TurnNumberOverflow
    | CommitFailed(commitError: CommitError)
    | InvalidResponse(problem: ResponseError)
    | ModelFailed(failure: LlmError)
    | CancelledInBackoff
    | NoResponse
    | RoundAborted(cause: Option<Cause>, commit: Option<CommitError>, cleanup: seq<CommitError>)
    | StepsExhausted
    | NoTerminalResponse

  type TurnOutcome = Result<ModelResponse, TurnError>

  predicate ValidPolicy(policy: TurnPolicy) {
    0 < policy.maxSteps && policy.maxLlmRetries <= 3
  }

  // ---- Dispatch ----------------------------------------------------------

  /** Commits a committable event, then shows it to the observers; a failed commit shows nothing. */
  function Emit(c: Context, s: Run, event: TurnEvent): (Run, Option<CommitError>) {
    match PlanOf(event)
    case NotCommittable => (s.Show(event), None)
    case Skip => (s.Show(event), None)
    case Append(draft) =>
      match CommitOutcome(s.log, c.sessionId, draft, s.now, s.now, c.world.appendOk(s.now))
      case Err(error) => (s.Tick(), Some(error))
      case Ok(item) => (s.(log := s.log + [item]).Tick().Show(event), None)
  }

  // ---- One model call ----------------------------------------------------

  /** The stream ends after a last wait, and the builder finishes. */
  function EndOfStream(c: Context, s: Run, b: BuilderState, llmCallId: Id, delay: nat)
    : (Run, Result<ModelResponse, LlmError>)
  {
    if Interrupted(c, s.now, delay) then (s.Wait(delay), Err(LlmCancelled(ByUser)))
    else
      match FinishOf(b)
      case Err(error) => (s.Wait(delay), Err(error))
      case Ok(response) => (s.Wait(delay).Observe(Responded(llmCallId, response)), Ok(response))
  }

  /** Folds the stream from item `i` on, showing a snapshot after each event. */
  function ModelCall(c: Context, s: Run, b: BuilderState, turn: nat, step: nat, llmCallId: Id, stream: ModelStream, i: nat)
    : (Run, Result<ModelResponse, LlmError>)
    requires i <= |stream.items|
    decreases |stream.items| - i
  {
    if i == |stream.items| then EndOfStream(c, s, b, llmCallId, stream.endDelay)
    else
      var next := stream.items[i];
      if Interrupted(c, s.now, next.delay) then (s.Wait(next.delay), Err(LlmCancelled(ByUser)))
      else
        var s1 := s.Wait(next.delay);
        match next.item
        case Err(error) => (s1, Err(error))
        case Ok(event) =>
          var applied := Applied(b, event);
          if applied.1.Some? then (s1, Err(applied.1.value))
          else
            ModelCall(c, s1.Show(MessageUpdate(turn, step, llmCallId, SnapshotOf(applied.0))), applied.0,
                      turn, step, llmCallId, stream, i + 1)
  }

  function FailureOutcome(error: LlmError): LlmCallOutcome {
    match error
    case RequestFailed(kind, _) => CallFailed(RequestFailure(kind))
    case LlmCancelled(reason) => CallCancelled(reason)
  }

  datatype AttemptsResult =
    | Got(response: ModelResponse, action: ResponseAction, llmCallId: Id)
    | GaveUp(error: TurnError)

  /** One attempt; no result means that the next attempt follows. */
  function Attempt(c: Context, s: Run, input: TurnInput, turn: nat, step: nat, request: ModelRequest, attempt: nat)
    : (Run, Option<AttemptsResult>)
  {
    if IsCancelled(c, s.now) then (s.Tick(), Some(GaveUp(TurnCancelled)))
    else
      var llmCallId := s.now;
      var s1 := s.Tick().Show(LlmCallStarted(turn, step, llmCallId)).Observe(Requested(llmCallId, request));
      var call := ModelCall(c, s1, NewState(input.config.model), turn, step, llmCallId, c.world.stream(s1.now), 0);
      Settle(c, call.0, input, turn, step, llmCallId, call.1, attempt)
  }

  /** Ends a model call, and decides whether to retry a failed one. */
  function Settle(c: Context, s: Run, input: TurnInput, turn: nat, step: nat, llmCallId: Id,
                  result: Result<ModelResponse, LlmError>, attempt: nat): (Run, Option<AttemptsResult>)
  {
    match result
    case Ok(response) =>
      (match Classified(response)
       case Err(error) =>
         (s.Show(LlmCallEnded(turn, step, llmCallId, CallFailed(UnusableResponse))), Some(GaveUp(InvalidResponse(error))))
       case Ok(action) =>
         (s.Show(LlmCallEnded(turn, step, llmCallId, CallSucceeded(response.stopReason, response.usage))),
          Some(Got(response, action, llmCallId))))
    case Err(error) =>
      var s1 := s.Show(LlmCallEnded(turn, step, llmCallId, FailureOutcome(error)));
      if error.RequestFailed? && error.kind.Recoverable? && attempt < input.policy.maxLlmRetries then
        var backoff := c.world.delay(s1.now);
        (s1.Wait(backoff), if IsCancelled(c, s1.now + backoff) then Some(GaveUp(CancelledInBackoff)) else None)
      else (s1, Some(GaveUp(ModelFailed(error))))
  }

  /** The attempts of one step from number `attempt` on, all with the same request. */
  function Attempts(c: Context, s: Run, input: TurnInput, turn: nat, step: nat, request: ModelRequest, attempt: nat)
    : (Run, AttemptsResult)
    requires attempt <= input.policy.maxLlmRetries + 1
    decreases input.policy.maxLlmRetries + 1 - attempt
  {
    if attempt > input.policy.maxLlmRetries then (s, GaveUp(NoResponse))
    else
      var attempted := Attempt(c, s, input, turn, step, request, attempt);
      match attempted.1
      case Some(result) => (attempted.0, result)
      case None => Attempts(c, attempted.0, input, turn, step, request, attempt + 1)
  }

  // ---- One tool call -----------------------------------------------------

  function UserCancelled(call: ToolCall, message: string): ToolResult {
    WithStatus(call, Cancelled(ReasonUser), PlainText(message))
  }

  function UnknownOutcome(call: ToolCall): ToolResult {
    WithStatus(call, OutcomeUnknown, PlainText("tool execution outcome is unknown"))
  }

  /** Runs the executor, unless the token is cancelled first. */
  function Execute(c: Context, s: Run, call: ToolCall): (Run, ToolCallOutcome) {
    if IsCancelled(c, s.now) then (s.Tick(), Abort(UserCancelled(call, "tool call cancelled before execution"), None))
    else
      var s1 := s.Tick();
      if IsCancelled(c, s1.now) then (s1.Tick(), Abort(UnknownOutcome(call), None))
      else
        var duration := c.world.delay(s1.now);
        var s2 := s1.Observe(ExecutionStarted(call, IsCancelled(c, s1.now), |s1.log|, s1.now)).Wait(duration);
        if IsCancelled(c, s1.now + duration) then (s2, Abort(UnknownOutcome(call), None))
        else
          match CheckedResult(c.world.execution(s1.now), call)
          case Ok(result) => (s2, Completed(result))
          case Err(error) => (s2, Abort(UnknownOutcome(call), Some(error)))
  }

  /** Asks the approval handler, unless the token is cancelled first. */
  function AskThenExecute(c: Context, s: Run, call: ToolCall): (Run, ToolCallOutcome) {
    var duration := c.world.delay(s.now);
    var s1 := s.Wait(duration);
    if IsCancelled(c, s.now + duration) then (s1, Abort(UserCancelled(call, "tool approval cancelled"), None))
    else
      var answer := c.world.approval(s.now);
      var s2 := s1.Observe(ApprovalGiven(call, answer, s.now));
      match answer
      case Answered(Approved) => Execute(c, s2, call)
      case Answered(DeniedBecause(reason)) => (s2, Completed(WithStatus(call, Denied, PlainText(reason))))
      case Answered(ApprovalCancelled) => (s2, Abort(UserCancelled(call, "tool approval cancelled"), None))
      case HandlerFailed =>
        (s2, Abort(WithStatus(call, Cancelled(ReasonDisposed), PlainText("tool approval handler failed")),
                   Some(ApprovalHandlerFailed)))
  }

  function ExecuteCall(c: Context, s: Run, call: ToolCall): (Run, ToolCallOutcome) {
    if IsCancelled(c, s.now) then (s.Tick(), Abort(UserCancelled(call, "tool call cancelled before execution"), None))
    else
      var s1 := s.Tick();
      match GateOf(c.runtime, call)
      case NotRegistered => (s1, Completed(WithStatus(call, UnknownTool, PlainText("unknown tool: " + call.name))))
      case InvalidInput => (s1, Completed(WithStatus(call, InvalidArguments, PlainText("input does not match its schema"))))
      case NotConfigured => (s1, Completed(WithStatus(call, Denied, PlainText("tool permission is not configured"))))
      case NoHandler => (s1, Completed(WithStatus(call, Denied, PlainText("tool approval is unavailable"))))
      case MustAsk => AskThenExecute(c, s1, call)
      case MayRun => Execute(c, s1, call)
  }

  // ---- One tool round ----------------------------------------------------

  function ParentCancelled(call: ToolCall): ToolResult {
    WithStatus(call, Cancelled(ReasonParent), PlainText("parent tool call was cancelled"))
  }

  /** Closes the calls from `k` on; a failed commit is noted and does not stop the others. */
  function CloseRemaining(c: Context, s: Run, turn: nat, calls: seq<ToolCall>, k: nat, errors: seq<CommitError>)
    : (Run, seq<CommitError>)
    requires k <= |calls|
    decreases |calls| - k
  {
    if k == |calls| then (s, errors)
    else
      var emitted := Emit(c, s, ToolResultRecorded(turn, ParentCancelled(calls[k])));
      CloseRemaining(c, emitted.0, turn, calls, k + 1,
                     if emitted.1.Some? then errors + [emitted.1.value] else errors)
  }

  function CauseOf(outcome: ToolCallOutcome): Option<Cause> {
    match outcome
    case Completed(_) => None
    case Abort(_, None) => Some(CallCancelledCause)
    case Abort(_, Some(error)) => Some(ToolFailure(error))
  }

  /** Executes the calls from `k` on, in order, until one aborts. */
  function ToolRoundFrom(c: Context, s: Run, turn: nat, calls: seq<ToolCall>, k: nat): (Run, Option<TurnError>)
    requires k <= |calls|
    decreases |calls| - k
  {
    if k == |calls| then (s, None)
    else
      var executed := ExecuteCall(c, s, calls[k]);
      var cause := CauseOf(executed.1);
      var emitted := Emit(c, executed.0, ToolResultRecorded(turn, executed.1.result));
      if emitted.1.Some? || cause.Some? then
        var closed := CloseRemaining(c, emitted.0, turn, calls, k + 1, []);
        (closed.0, Some(RoundAborted(cause, emitted.1, closed.1)))
      else ToolRoundFrom(c, emitted.0, turn, calls, k + 1)
  }

  /** Records the calls from `k` on, before anything runs. */
  function RecordCalls(c: Context, s: Run, turn: nat, calls: seq<ToolCall>, k: nat): (Run, Option<CommitError>)
    requires k <= |calls|
    decreases |calls| - k
  {
    if k == |calls| then (s, None)
    else
      var emitted := Emit(c, s, ToolCallRecorded(turn, calls[k]));
      if emitted.1.Some? then emitted else RecordCalls(c, emitted.0, turn, calls, k + 1)
  }

  // ---- Steps and turns ---------------------------------------------------

  datatype StepResult = Stop(outcome: TurnOutcome) | Continue(config: CallConfig)

  function Compile(input: TurnInput, config: CallConfig, messages: seq<Message>): ModelRequest {
    ModelRequest(input.systemPrompt, messages, config.previousResponseId)
  }

  function NextConfig(config: CallConfig, response: ModelResponse): CallConfig {
    if response.responseId.Some? then config.(previousResponseId := response.responseId) else config
  }

  /** What a step does with a classified response. */
  function Act(c: Context, s: Run, input: TurnInput, config: CallConfig, turn: nat, step: nat,
               response: ModelResponse, action: ResponseAction, llmCallId: Id): (Run, StepResult)
  {
    var finalized := Emit(c, s, AssistantFinalized(turn, llmCallId, action.assistantBlocks));
    if finalized.1.Some? then (finalized.0, Stop(Err(CommitFailed(finalized.1.value))))
    else
      match action
      case Terminal(_) => (finalized.0.Show(TurnEnded(turn)), Stop(Ok(response)))
      case ToolRound(_, calls) =>
        var recorded := RecordCalls(c, finalized.0, turn, calls, 0);
        if recorded.1.Some? then (recorded.0, Stop(Err(CommitFailed(recorded.1.value))))
        else
          var round := ToolRoundFrom(c, recorded.0, turn, calls, 0);
          if round.1.Some? then (round.0, Stop(Err(round.1.value)))
          else if step + 1 == input.policy.maxSteps then (round.0.Show(TurnEnded(turn)), Stop(Err(StepsExhausted)))
          else (round.0, Continue(NextConfig(config, response)))
  }

  function Step(c: Context, s: Run, input: TurnInput, config: CallConfig, turn: nat, step: nat): (Run, StepResult) {
    if IsCancelled(c, s.now) then (s.Tick(), Stop(Err(TurnCancelled)))
    else
      var s1 := s.Tick();
      match Materialized(s1.log)
      case Err(error) => (s1, Stop(Err(BadHistory(error))))
      case Ok(messages) =>
        var attempts := Attempts(c, s1, input, turn, step, Compile(input, config, messages), 0);
        match attempts.1
        case GaveUp(error) => (attempts.0, Stop(Err(error)))
        case Got(response, action, llmCallId) =>
          Act(c, attempts.0, input, config, turn, step, response, action, llmCallId)
  }

  function Steps(c: Context, s: Run, input: TurnInput, config: CallConfig, turn: nat, step: nat): (Run, TurnOutcome)
    requires step <= input.policy.maxSteps
    decreases input.policy.maxSteps - step
  {
    if step == input.policy.maxSteps then (s, Err(NoTerminalResponse))
    else
      var stepped := Step(c, s, input, config, turn, step);
      match stepped.1
      case Stop(outcome) => (stepped.0, outcome)
      case Continue(config') => Steps(c, stepped.0, input, config', turn, step + 1)
  }

  /** The checks before anything is shown or appended: the turn number, or why the turn is refused. */
  function Preflight(c: Context, s: Run, input: TurnInput): Result<nat, TurnError> {
    if !ValidPolicy(input.policy) then Err(InvalidPolicy)
    else if input.text == "" then Err(EmptyText)
    else if IsCancelled(c, s.now) then Err(TurnCancelled)
    else
      match Materialized(s.log)
      case Err(error) => Err(BadHistory(error))
      case Ok(_) =>
        match NextTurn(s.log)
        case None => Err(TurnNumberOverflow)
        case Some(turn) => if IsCancelled(c, s.now + 1) then Err(TurnCancelled) else Ok(turn)
  }

  /** Specification of `AgentLoop.Turn`. */
  function Turn(c: Context, s: Run, input: TurnInput): (Run, TurnOutcome) {
    match Preflight(c, s, input)
    case Err(error) => (s.Tick().Tick(), Err(error))
    case Ok(turn) =>
      var s1 := s.Tick().Tick().Show(TurnStarted(turn));
      if IsCancelled(c, s1.now) then (s1.Tick(), Err(TurnCancelled))
      else
        var prompted := Emit(c, s1.Tick(), UserPromptCommitted(turn, input.text));
        if prompted.1.Some? then (prompted.0, Err(CommitFailed(prompted.1.value)))
        else Steps(c, prompted.0, input, input.config, turn, 0)
  }
}
