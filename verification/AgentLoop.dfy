/** The agent loop itself, updating its session in place; each method is tied to the turn specification. */
module AgentLoops {
  import opened Protocol
  import opened Tools
  import opened SessionTypes
  import opened SessionStores
  import opened Materialize
  import opened ResponseBuilder
  import opened ResponseActions
  import opened ToolRuntimes
  import opened TurnEvents
  import opened TurnSpec

  class AgentLoop {
    const session: SessionStore
    const runtime: ToolRuntime
    /** The provider, approval handler, executors, disk and time, as seen from the loop. */
    const world: World
    var now: nat
    /** Everything observers, provider, approval handler and executors have seen. */
    ghost var trace: seq<Observation>

    ghost predicate Valid()
      reads this, session
    {
      session.Valid()
    }

    ghost function State(): Run
      reads this, session
    {
      Run(session.items, trace, now)
    }

    function In(cancelAt: Option<nat>): Context {
      Context(world, cancelAt, session.header.sessionId, runtime)
    }

    constructor (session: SessionStore, runtime: ToolRuntime, world: World)
      requires session.Valid()
      ensures Valid() && this.session == session && this.runtime == runtime && this.world == world
      ensures State() == Run(session.items, [], 0)
    {
      this.session, this.runtime, this.world := session, runtime, world;
      now, trace := 0, [];
    }

    /** Reads the cancellation token once. */
    method PollCancelled(cancelAt: Option<nat>) returns (cancelled: bool)
      modifies this`now
      ensures cancelled == IsCancelled(In(cancelAt), old(now))
      ensures now == old(now) + 1
    {
      cancelled := IsCancelled(In(cancelAt), now);
      now := now + 1;
    }

    method EmitEvent(cancelAt: Option<nat>, event: TurnEvent) returns (failure: Option<CommitError>)
      requires Valid()
      modifies this, session
      ensures Valid()
      ensures (State(), failure) == Emit(In(cancelAt), old(State()), event)
    {
      failure := None;
      if event.IsCommittable() {
        var plan := PlanOf(event);
        if plan.Append? {
          var committed := session.CommitItem(plan.draft, now, now, world.appendOk(now));
          now := now + 1;
          if committed.Err? {
            return Some(committed.error);
          }
        }
      }
      trace := trace + [Emitted(event)];
    }

    /** Feeds one event to the builder and shows the new snapshot. */
    method ShowUpdate(builder: ModelResponseBuilder, turn: nat, step: nat, llmCallId: Id, event: ModelStreamEvent)
      returns (refused: Option<LlmError>)
      requires Valid()
      modifies this`trace, builder
      ensures Valid()
      ensures (builder.State(), refused) == Applied(old(builder.State()), event)
      ensures State() == if refused.Some? then old(State())
                         else old(State()).Show(MessageUpdate(turn, step, llmCallId, SnapshotOf(builder.State())))
    {
      var snapshot := builder.Apply(event);
      if snapshot.Err? {
        return Some(snapshot.error);
      }
      trace := trace + [Emitted(MessageUpdate(turn, step, llmCallId, snapshot.value))];
      refused := None;
    }

    method RunModelCall(cancelAt: Option<nat>, model: string, turn: nat, step: nat, llmCallId: Id, stream: ModelStream)
      returns (r: Result<ModelResponse, LlmError>)
      requires Valid()
      modifies this
      ensures Valid()
      ensures (State(), r) ==
              ModelCall(In(cancelAt), old(State()), NewState(model), turn, step, llmCallId, stream, 0)
    {
      ghost var c := In(cancelAt);
      var builder := new ModelResponseBuilder(model);
      var i := 0;
      while i < |stream.items|
        invariant 0 <= i <= |stream.items|
        invariant Valid() && fresh(builder)
        invariant ModelCall(c, State(), builder.State(), turn, step, llmCallId, stream, i) ==
                  ModelCall(c, old(State()), NewState(model), turn, step, llmCallId, stream, 0)
      {
        var next := stream.items[i];
        var interrupted := Interrupted(In(cancelAt), now, next.delay);
        now := now + next.delay + 1;
        if interrupted {
          return Err(LlmCancelled(ByUser));
        }
        if next.item.Err? {
          return Err(next.item.error);
        }
        var refused := ShowUpdate(builder, turn, step, llmCallId, next.item.value);
        if refused.Some? {
          return Err(refused.value);
        }
        i := i + 1;
      }
      r := EndModelCall(cancelAt, builder, llmCallId, stream.endDelay);
    }

    method EndModelCall(cancelAt: Option<nat>, builder: ModelResponseBuilder, llmCallId: Id, delay: nat)
      returns (r: Result<ModelResponse, LlmError>)
      requires Valid()
      modifies this
      ensures Valid()
      ensures (State(), r) == EndOfStream(In(cancelAt), old(State()), builder.State(), llmCallId, delay)
      ensures builder.State() == old(builder.State())
    {
      var interrupted := Interrupted(In(cancelAt), now, delay);
      now := now + delay + 1;
      if interrupted {
        return Err(LlmCancelled(ByUser));
      }
      r := builder.Finish();
      if r.Ok? {
        trace := trace + [Responded(llmCallId, r.value)];
      }
    }

    method SettleCall(cancelAt: Option<nat>, input: TurnInput, turn: nat, step: nat, llmCallId: Id,
                      result: Result<ModelResponse, LlmError>, attempt: nat) returns (r: Option<AttemptsResult>)
      requires Valid()
      modifies this
      ensures Valid()
      ensures (State(), r) == Settle(In(cancelAt), old(State()), input, turn, step, llmCallId, result, attempt)
    {
      match result {
        case Ok(response) =>
          var action := ClassifyResponse(response);
          if action.Err? {
            trace := trace + [Emitted(LlmCallEnded(turn, step, llmCallId, CallFailed(UnusableResponse)))];
            return Some(GaveUp(InvalidResponse(action.error)));
          }
          trace := trace +
            [Emitted(LlmCallEnded(turn, step, llmCallId, CallSucceeded(response.stopReason, response.usage)))];
          r := Some(Got(response, action.value, llmCallId));
        case Err(error) =>
          trace := trace + [Emitted(LlmCallEnded(turn, step, llmCallId, FailureOutcome(error)))];
          if error.RequestFailed? && error.kind.Recoverable? && attempt < input.policy.maxLlmRetries {
            var backoff := world.delay(now);
            var stop := IsCancelled(In(cancelAt), now + backoff);
            now := now + backoff + 1;
            r := if stop then Some(GaveUp(CancelledInBackoff)) else None;
          } else {
            r := Some(GaveUp(ModelFailed(error)));
          }
      }
    }

    method RunAttempt(cancelAt: Option<nat>, input: TurnInput, turn: nat, step: nat, request: ModelRequest, attempt: nat)
      returns (r: Option<AttemptsResult>)
      requires Valid()
      modifies this
      ensures Valid()
      ensures (State(), r) == Attempt(In(cancelAt), old(State()), input, turn, step, request, attempt)
    {
      ghost var s := State();
      var llmCallId := now;
      var cancelled := PollCancelled(cancelAt);
      if cancelled {
        return Some(GaveUp(TurnCancelled));
      }
      trace := trace + [Emitted(LlmCallStarted(turn, step, llmCallId))];
      trace := trace + [Requested(llmCallId, request)];
      assert State() == s.Tick().Show(LlmCallStarted(turn, step, llmCallId)).Observe(Requested(llmCallId, request));
      var result := RunModelCall(cancelAt, input.config.model, turn, step, llmCallId, world.stream(now));
      r := SettleCall(cancelAt, input, turn, step, llmCallId, result, attempt);
    }

    method CallModel(cancelAt: Option<nat>, input: TurnInput, turn: nat, step: nat, request: ModelRequest)
      returns (r: AttemptsResult)
      requires Valid()
      modifies this
      ensures Valid()
      ensures (State(), r) == Attempts(In(cancelAt), old(State()), input, turn, step, request, 0)
    {
      ghost var c := In(cancelAt);
      var attempt := 0;
      while attempt <= input.policy.maxLlmRetries
        invariant 0 <= attempt <= input.policy.maxLlmRetries + 1
        invariant Valid()
        invariant Attempts(c, State(), input, turn, step, request, attempt) ==
                  Attempts(c, old(State()), input, turn, step, request, 0)
      {
        var result := RunAttempt(cancelAt, input, turn, step, request, attempt);
        if result.Some? {
          return result.value;
        }
        attempt := attempt + 1;
      }
      r := GaveUp(NoResponse);
    }

    method RunExecutor(cancelAt: Option<nat>, call: ToolCall) returns (outcome: ToolCallOutcome)
      requires Valid()
      modifies this
      ensures Valid()
      ensures (State(), outcome) == Execute(In(cancelAt), old(State()), call)
    {
      var cancelled := PollCancelled(cancelAt);
      if cancelled {
        return Abort(UserCancelled(call, "tool call cancelled before execution"), None);
      }
      var started := now;
      if IsCancelled(In(cancelAt), started) {
        now := now + 1;
        return Abort(UnknownOutcome(call), None);
      }
      trace := trace + [ExecutionStarted(call, IsCancelled(In(cancelAt), started), |session.items|, started)];
      var duration := world.delay(started);
      now := now + duration + 1;
      if IsCancelled(In(cancelAt), started + duration) {
        return Abort(UnknownOutcome(call), None);
      }
      var checked := CheckedResult(world.execution(started), call);
      outcome := if checked.Ok? then Completed(checked.value) else Abort(UnknownOutcome(call), Some(checked.error));
    }

    method RunCall(cancelAt: Option<nat>, call: ToolCall) returns (outcome: ToolCallOutcome)
      requires Valid()
      modifies this
      ensures Valid()
      ensures (State(), outcome) == ExecuteCall(In(cancelAt), old(State()), call)
    {
      var cancelled := PollCancelled(cancelAt);
      if cancelled {
        return Abort(UserCancelled(call, "tool call cancelled before execution"), None);
      }
      match GateOf(runtime, call) {
        case NotRegistered =>
          return Completed(WithStatus(call, UnknownTool, PlainText("unknown tool: " + call.name)));
        case InvalidInput =>
          return Completed(WithStatus(call, InvalidArguments, PlainText("input does not match its schema")));
        case NotConfigured =>
          return Completed(WithStatus(call, Denied, PlainText("tool permission is not configured")));
        case NoHandler =>
          return Completed(WithStatus(call, Denied, PlainText("tool approval is unavailable")));
        case MayRun =>
        case MustAsk =>
          var asked := now;
          var duration := world.delay(asked);
          now := now + duration + 1;
          if IsCancelled(In(cancelAt), asked + duration) {
            return Abort(UserCancelled(call, "tool approval cancelled"), None);
          }
          var answer := world.approval(asked);
          trace := trace + [ApprovalGiven(call, answer, asked)];
          match answer {
            case Answered(Approved) =>
            case Answered(DeniedBecause(reason)) =>
              return Completed(WithStatus(call, Denied, PlainText(reason)));
            case Answered(ApprovalCancelled) =>
              return Abort(UserCancelled(call, "tool approval cancelled"), None);
            case HandlerFailed =>
              return Abort(WithStatus(call, Cancelled(ReasonDisposed), PlainText("tool approval handler failed")),
                           Some(ApprovalHandlerFailed));
          }
      }
      outcome := RunExecutor(cancelAt, call);
    }

    method CommitParentResults(cancelAt: Option<nat>, turn: nat, calls: seq<ToolCall>, start: nat)
      returns (errors: seq<CommitError>)
      requires Valid() && start <= |calls|
      modifies this, session
      ensures Valid()
      ensures (State(), errors) == CloseRemaining(In(cancelAt), old(State()), turn, calls, start, [])
    {
      ghost var c := In(cancelAt);
      errors := [];
      var k := start;
      while k < |calls|
        invariant start <= k <= |calls|
        invariant Valid()
        invariant CloseRemaining(c, State(), turn, calls, k, errors) ==
                  CloseRemaining(c, old(State()), turn, calls, start, [])
      {
        var failure := EmitEvent(cancelAt, ToolResultRecorded(turn, ParentCancelled(calls[k])));
        if failure.Some? {
          errors := errors + [failure.value];
        }
        k := k + 1;
      }
    }

    method ProcessToolRound(cancelAt: Option<nat>, turn: nat, calls: seq<ToolCall>) returns (r: Option<TurnError>)
      requires Valid()
      modifies this, session
      ensures Valid()
      ensures (State(), r) == ToolRoundFrom(In(cancelAt), old(State()), turn, calls, 0)
    {
      ghost var c := In(cancelAt);
      var index := 0;
      while index < |calls|
        invariant 0 <= index <= |calls|
        invariant Valid()
        invariant ToolRoundFrom(c, State(), turn, calls, index) == ToolRoundFrom(c, old(State()), turn, calls, 0)
      {
        var outcome := RunCall(cancelAt, calls[index]);
        var cause := CauseOf(outcome);
        var failure := EmitEvent(cancelAt, ToolResultRecorded(turn, outcome.result));
        if failure.Some? || cause.Some? {
          var cleanup := CommitParentResults(cancelAt, turn, calls, index + 1);
          return Some(RoundAborted(cause, failure, cleanup));
        }
        index := index + 1;
      }
      r := None;
    }

    method RecordToolCalls(cancelAt: Option<nat>, turn: nat, calls: seq<ToolCall>) returns (failure: Option<CommitError>)
      requires Valid()
      modifies this, session
      ensures Valid()
      ensures (State(), failure) == RecordCalls(In(cancelAt), old(State()), turn, calls, 0)
    {
      ghost var c := In(cancelAt);
      var k := 0;
      while k < |calls|
        invariant 0 <= k <= |calls|
        invariant Valid()
        invariant RecordCalls(c, State(), turn, calls, k) == RecordCalls(c, old(State()), turn, calls, 0)
      {
        failure := EmitEvent(cancelAt, ToolCallRecorded(turn, calls[k]));
        if failure.Some? {
          return;
        }
        k := k + 1;
      }
      failure := None;
    }

    method ActOn(cancelAt: Option<nat>, input: TurnInput, config: CallConfig, turn: nat, step: nat,
                 response: ModelResponse, action: ResponseAction, llmCallId: Id) returns (r: StepResult)
      requires Valid()
      modifies this, session
      ensures Valid()
      ensures (State(), r) == Act(In(cancelAt), old(State()), input, config, turn, step, response, action, llmCallId)
    {
      var failure := EmitEvent(cancelAt, AssistantFinalized(turn, llmCallId, action.assistantBlocks));
      if failure.Some? {
        return Stop(Err(CommitFailed(failure.value)));
      }
      match action {
        case Terminal(_) =>
          failure := EmitEvent(cancelAt, TurnEnded(turn));
          r := Stop(Ok(response));
        case ToolRound(_, calls) =>
          failure := RecordToolCalls(cancelAt, turn, calls);
          if failure.Some? {
            return Stop(Err(CommitFailed(failure.value)));
          }
          var error := ProcessToolRound(cancelAt, turn, calls);
          if error.Some? {
            return Stop(Err(error.value));
          }
          if step + 1 == input.policy.maxSteps {
            failure := EmitEvent(cancelAt, TurnEnded(turn));
            return Stop(Err(StepsExhausted));
          }
          r := Continue(NextConfig(config, response));
      }
    }

    method RunStep(cancelAt: Option<nat>, input: TurnInput, config: CallConfig, turn: nat, step: nat) returns (r: StepResult)
      requires Valid()
      modifies this, session
      ensures Valid()
      ensures (State(), r) == Step(In(cancelAt), old(State()), input, config, turn, step)
    {
      var cancelled := PollCancelled(cancelAt);
      if cancelled {
        return Stop(Err(TurnCancelled));
      }
      var messages := MaterializeLog(session.items);
      if messages.Err? {
        return Stop(Err(BadHistory(messages.error)));
      }
      var attempts := CallModel(cancelAt, input, turn, step, Compile(input, config, messages.value));
      match attempts {
        case GaveUp(error) =>
          r := Stop(Err(error));
        case Got(response, action, llmCallId) =>
          r := ActOn(cancelAt, input, config, turn, step, response, action, llmCallId);
      }
    }

    method RunTurn(cancelAt: Option<nat>, input: TurnInput) returns (outcome: TurnOutcome)
      requires Valid()
      modifies this, session
      ensures Valid()
      ensures (State(), outcome) == Turn(In(cancelAt), old(State()), input)
    {
      var preflight := CheckBeforeTurn(cancelAt, input);
      if preflight.Err? {
        return Err(preflight.error);
      }
      var turn := preflight.value;
      ghost var s := State();
      var failure := EmitEvent(cancelAt, TurnStarted(turn));
      assert State() == s.Show(TurnStarted(turn));
      var cancelled := PollCancelled(cancelAt);
      if cancelled {
        return Err(TurnCancelled);
      }
      failure := EmitEvent(cancelAt, UserPromptCommitted(turn, input.text));
      if failure.Some? {
        return Err(CommitFailed(failure.value));
      }
      outcome := RunSteps(cancelAt, input, turn);
    }

    method RunSteps(cancelAt: Option<nat>, input: TurnInput, turn: nat) returns (outcome: TurnOutcome)
      requires Valid()
      modifies this, session
      ensures Valid()
      ensures (State(), outcome) == Steps(In(cancelAt), old(State()), input, input.config, turn, 0)
    {
      ghost var c := In(cancelAt);
      var config := input.config;
      var step := 0;
      while step < input.policy.maxSteps
        invariant 0 <= step <= input.policy.maxSteps
        invariant Valid()
        invariant Steps(c, State(), input, config, turn, step) ==
                  Steps(c, old(State()), input, input.config, turn, 0)
      {
        var r := RunStep(cancelAt, input, config, turn, step);
        match r {
          case Stop(result) => return result;
          case Continue(next) => config := next;
        }
        step := step + 1;
      }
      outcome := Err(NoTerminalResponse);
    }

    method CheckBeforeTurn(cancelAt: Option<nat>, input: TurnInput) returns (r: Result<nat, TurnError>)
      requires Valid()
      modifies this
      ensures Valid()
      ensures State() == old(State()).Tick().Tick()
      ensures r == Preflight(In(cancelAt), old(State()), input)
    {
      var first := PollCancelled(cancelAt);
      var second := PollCancelled(cancelAt);
      if !ValidPolicy(input.policy) {
        return Err(InvalidPolicy);
      }
      if input.text == "" {
        return Err(EmptyText);
      }
      if first {
        return Err(TurnCancelled);
      }
      var history := MaterializeLog(session.items);
      if history.Err? {
        return Err(BadHistory(history.error));
      }
      var turn := NextTurn(session.items);
      if turn.None? {
        return Err(TurnNumberOverflow);
      }
      r := if second then Err(TurnCancelled) else Ok(turn.value);
    }
  }
}
