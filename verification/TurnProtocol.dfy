/**
 * The protocol every turn follows, as an automaton over what is observed of it: model calls are
 * bracketed, a response is acted on as classified, and tools run one at a time after their whole
 * round is recorded.
 */
module TurnProtocol {
  import opened Protocol
  import opened Tools
  import opened SessionTypes
  import opened SessionStores
  import opened Materialize
  import opened ResponseBuilder
  import opened StreamFold
  import opened ResponseActions
  import opened ToolRuntimes
  import opened TurnEvents
  import opened TurnSpec
  import opened TurnLog
  import opened TurnRounds

  /** Whom a turn deals with: the scripted world and the tools. */
  datatype Outside = Outside(world: World, runtime: ToolRuntime)

  function OutsideOf(c: Context): Outside {
    Outside(c.world, c.runtime)
  }

  datatype Watch =
    | Quiet
    | Calling(turn: nat, step: nat, llmCallId: Id)
    | Answering(turn: nat, step: nat, llmCallId: Id, response: ModelResponse)
    | Finalizing(llmCallId: Id, response: ModelResponse)
    | Recording(response: ModelResponse, n: nat)
    | Executing(response: ModelResponse, k: nat, answer: Option<ApprovalAnswer>, started: Option<nat>)
    | Closing(response: ModelResponse)
  {
    predicate InCall() {
      Calling? || Answering?
    }
  }

  /** The runtime knows the tool and its input, and has a permission for it. */
  predicate Allowed(runtime: ToolRuntime, call: ToolCall, permission: ToolPermission) {
    && call.name in runtime.registry && runtime.registry[call.name](call.input)
    && call.name in runtime.permissions && runtime.permissions[call.name] == permission
  }

  /** The call now running is permitted: allowed outright, or to be asked about and approved. */
  predicate Permitted(runtime: ToolRuntime, call: ToolCall, answer: Option<ApprovalAnswer>) {
    || (Allowed(runtime, call, Allow) && answer.None?)
    || (Allowed(runtime, call, Ask) && answer == Some(Answered(Approved)))
  }

  /** A result that nothing of its call's contradicts: what the executor returned or that its outcome is unknown, and a denial as given. */
  predicate Truthful(world: World, call: ToolCall, answer: Option<ApprovalAnswer>, started: Option<nat>, result: ToolResult) {
    && (result.status.Succeeded? || result.status.Failed? ==> started.Some?)
    && (started.Some? ==> result.status.OutcomeUnknown? || world.execution(started.value) == Returned(result))
    && (started.Some? ==> result.status.Succeeded? || result.status.Failed? || result.status.OutcomeUnknown?)
    && (answer.Some? && answer.value.Answered? && answer.value.approval.DeniedBecause? ==>
          result == ToolResult(call.toolUseId, call.name, Denied, PlainText(answer.value.approval.reason)))
  }

  /** The result that closes a call after another one was cancelled or aborted. */
  function ParentResult(call: ToolCall): ToolResult {
    ToolResult(call.toolUseId, call.name, Cancelled(ReasonParent), PlainText("parent tool call was cancelled"))
  }

  ghost predicate IsParentResult(result: ToolResult, calls: seq<ToolCall>, k: nat) {
    exists j :: k <= j < |calls| && result == ParentResult(calls[j])
  }

  /** The response is what the builder makes of the whole stream. */
  ghost predicate StreamGives(stream: ModelStream, response: ModelResponse) {
    exists events, model :: FoldedFrom(stream, events, model, response)
  }

  predicate FoldedFrom(stream: ModelStream, events: seq<ModelStreamEvent>, model: string, response: ModelResponse) {
    FromStream(stream, events) && Accepted(model, events) && FinishOf(Fold(model, events).value) == Ok(response)
  }

  /** What may be observed next, and what it leads to. */
  ghost function After(outside: Outside, w: Watch, o: Observation): Option<Watch> {
    match o
    case Requested(id, _) => if w.Calling? && w.llmCallId == id then Some(w) else None
    case Responded(id, response) =>
      if w.Calling? && w.llmCallId == id && StreamGives(outside.world.stream(id + 1), response)
      then Some(Answering(w.turn, w.step, id, response)) else None
    case ApprovalGiven(call, answer, asked) =>
      if && w.Executing? && w.k < |CallsOf(w.response.content)| && call == CallsOf(w.response.content)[w.k]
         && w.answer.None? && w.started.None? && Allowed(outside.runtime, call, Ask) && answer == outside.world.approval(asked)
      then Some(w.(answer := Some(answer))) else None
    case ExecutionStarted(call, tokenCancelled, _, started) =>
      if && w.Executing? && w.k < |CallsOf(w.response.content)| && call == CallsOf(w.response.content)[w.k]
         && w.started.None? && !tokenCancelled && Permitted(outside.runtime, call, w.answer)
      then Some(w.(started := Some(started))) else None
    case Emitted(event) => AfterEvent(outside, w, event)
  }

  ghost function AfterEvent(outside: Outside, w: Watch, event: TurnEvent): Option<Watch> {
    match event
    case TurnStarted(_) => if w.InCall() then None else Some(Quiet)
    case TurnEnded(_) => if w.Quiet? then Some(w) else None
    case UserPromptCommitted(_, _) => if w.Quiet? then Some(w) else None
    case LlmCallStarted(turn, step, id) => if w.Quiet? then Some(Calling(turn, step, id)) else None
    case MessageUpdate(turn, step, id, _) => if w == Calling(turn, step, id) then Some(w) else None
    case LlmCallEnded(turn, step, id, outcome) =>
      if w == Calling(turn, step, id) && !outcome.CallSucceeded? && outcome != CallFailed(UnusableResponse) then Some(Quiet)
      else if w.Answering? && w.turn == turn && w.step == step && w.llmCallId == id then
        if UsableResponse(w.response) then
          if outcome == CallSucceeded(w.response.stopReason, w.response.usage) then Some(Finalizing(id, w.response)) else None
        else if outcome == CallFailed(UnusableResponse) then Some(Quiet) else None
      else None
    case AssistantFinalized(_, id, blocks) =>
      if w.Finalizing? && w.llmCallId == id && blocks == PlainOf(w.response.content) then
        Some(if w.response.stopReason.ToolUseStop? then Recording(w.response, 0) else Quiet)
      else None
    case ToolCallRecorded(_, call) =>
      if w.Recording? && w.n < |CallsOf(w.response.content)| && call == CallsOf(w.response.content)[w.n] then
        Some(if w.n + 1 == |CallsOf(w.response.content)| then Executing(w.response, 0, None, None)
             else Recording(w.response, w.n + 1))
      else None
    case ToolResultRecorded(_, result) =>
      if w.Executing? then
        var calls := CallsOf(w.response.content);
        if && w.k < |calls| && Answers(result, calls[w.k]) && result.status != Cancelled(ReasonParent)
           && Truthful(outside.world, calls[w.k], w.answer, w.started, result)
        then Some(if w.k + 1 == |calls| then Quiet else Executing(w.response, w.k + 1, None, None))
        else if IsParentResult(result, calls, w.k) then Some(Closing(w.response))
        else None
      else if w.Closing? && IsParentResult(result, CallsOf(w.response.content), 0) then Some(w)
      else None
    case _ => None
  }

  /** The protocol state after a trace, or nothing if the trace breaks the protocol. */
  ghost function Watched(outside: Outside, trace: seq<Observation>): Option<Watch> {
    if trace == [] then Some(Quiet)
    else
      match Watched(outside, trace[..|trace| - 1])
      case None => None
      case Some(w) => After(outside, w, trace[|trace| - 1])
  }

  ghost predicate At(c: Context, s: Run, w: Watch) {
    Watched(OutsideOf(c), s.trace) == Some(w)
  }

  lemma WatchSnoc(outside: Outside, trace: seq<Observation>, o: Observation)
    ensures Watched(outside, trace + [o]) ==
            match Watched(outside, trace) case None => None case Some(w) => After(outside, w, o)
  {
    assert (trace + [o])[..|trace|] == trace;
  }

  lemma EmitWatched(c: Context, s: Run, event: TurnEvent, w: Watch)
    requires At(c, s, w)
    ensures var emitted := Emit(c, s, event);
            && (emitted.1.None? ==> Watched(OutsideOf(c), emitted.0.trace) == AfterEvent(OutsideOf(c), w, event))
            && (emitted.1.Some? ==> At(c, emitted.0, w))
  {
    WatchSnoc(OutsideOf(c), s.trace, Emitted(event));
  }

  lemma ObserveWatched(c: Context, s: Run, o: Observation, w: Watch)
    requires At(c, s, w)
    ensures Watched(OutsideOf(c), s.Observe(o).trace) == After(OutsideOf(c), w, o)
  {
    WatchSnoc(OutsideOf(c), s.trace, o);
  }

  // ---- Model calls -------------------------------------------------------

  lemma ResponseWatched(c: Context, s: Run, b: BuilderState, turn: nat, step: nat, llmCallId: Id, delay: nat,
                        stream: ModelStream, model: string, events: seq<ModelStreamEvent>)
    requires At(c, s, Calling(turn, step, llmCallId)) && stream == c.world.stream(llmCallId + 1)
    requires Fold(model, events) == Some(b) && FromStream(stream, events)
    ensures var call := EndOfStream(c, s, b, llmCallId, delay);
            At(c, call.0, if call.1.Ok? then Answering(turn, step, llmCallId, call.1.value) else Calling(turn, step, llmCallId))
  {
    if FinishOf(b).Ok? {
      assert FoldedFrom(stream, events, model, FinishOf(b).value);
      ObserveWatched(c, s.Wait(delay), Responded(llmCallId, FinishOf(b).value), Calling(turn, step, llmCallId));
    }
  }

  lemma {:induction false} ModelCallWatched(c: Context, s: Run, b: BuilderState, turn: nat, step: nat, llmCallId: Id,
                                            stream: ModelStream, i: nat, model: string, events: seq<ModelStreamEvent>)
    requires i <= |stream.items| && At(c, s, Calling(turn, step, llmCallId)) && stream == c.world.stream(llmCallId + 1)
    requires Fold(model, events) == Some(b) && |events| == i && forall j :: 0 <= j < i ==> stream.items[j].item == Ok(events[j])
    ensures var call := ModelCall(c, s, b, turn, step, llmCallId, stream, i);
            At(c, call.0, if call.1.Ok? then Answering(turn, step, llmCallId, call.1.value) else Calling(turn, step, llmCallId))
    decreases |stream.items| - i
  {
    var w := Calling(turn, step, llmCallId);
    if i == |stream.items| {
      ResponseWatched(c, s, b, turn, step, llmCallId, stream.endDelay, stream, model, events);
    } else if stream.items[i].item.Ok? {
      var event := stream.items[i].item.value;
      var applied := Applied(b, event);
      FoldSnoc(NewState(model), events, event);
      if applied.1.None? {
        var update := Emitted(MessageUpdate(turn, step, llmCallId, SnapshotOf(applied.0)));
        var s1 := s.Wait(stream.items[i].delay);
        ObserveWatched(c, s1, update, w);
        ModelCallWatched(c, s1.Observe(update), applied.0, turn, step, llmCallId, stream, i + 1, model, events + [event]);
      }
    }
  }

  ghost predicate AttemptWatched(c: Context, s: Run, result: Option<AttemptsResult>) {
    if result.Some? && result.value.Got? then
      && UsableResponse(result.value.response)
      && result.value.action == ActionOf(result.value.response)
      && At(c, s, Finalizing(result.value.llmCallId, result.value.response))
    else At(c, s, Quiet)
  }

  lemma SettleWatched(c: Context, s: Run, input: TurnInput, turn: nat, step: nat, llmCallId: Id,
                      result: Result<ModelResponse, LlmError>, attempt: nat)
    requires At(c, s, if result.Ok? then Answering(turn, step, llmCallId, result.value) else Calling(turn, step, llmCallId))
    ensures var settled := Settle(c, s, input, turn, step, llmCallId, result, attempt);
            AttemptWatched(c, settled.0, settled.1)
  {
    if result.Ok? {
      SettleResponseWatched(c, s, input, turn, step, llmCallId, result.value, attempt);
    } else {
      ObserveWatched(c, s, Emitted(LlmCallEnded(turn, step, llmCallId, FailureOutcome(result.error))),
                     Calling(turn, step, llmCallId));
    }
  }

  lemma SettleResponseWatched(c: Context, s: Run, input: TurnInput, turn: nat, step: nat, llmCallId: Id,
                              response: ModelResponse, attempt: nat)
    requires At(c, s, Answering(turn, step, llmCallId, response))
    ensures var settled := Settle(c, s, input, turn, step, llmCallId, Ok(response), attempt);
            AttemptWatched(c, settled.0, settled.1)
  {
    var w := Answering(turn, step, llmCallId, response);
    ClassifiesIffUsable(response);
    if Classified(response).Ok? {
      ObserveWatched(c, s, Emitted(LlmCallEnded(turn, step, llmCallId, CallSucceeded(response.stopReason, response.usage))), w);
    } else {
      ObserveWatched(c, s, Emitted(LlmCallEnded(turn, step, llmCallId, CallFailed(UnusableResponse))), w);
    }
  }

  lemma OneAttemptWatched(c: Context, s: Run, input: TurnInput, turn: nat, step: nat, request: ModelRequest, attempt: nat)
    requires At(c, s, Quiet)
    ensures var attempted := Attempt(c, s, input, turn, step, request, attempt);
            AttemptWatched(c, attempted.0, attempted.1)
  {
    if !IsCancelled(c, s.now) {
      var id := s.now;
      ObserveWatched(c, s.Tick(), Emitted(LlmCallStarted(turn, step, id)), Quiet);
      var started := s.Tick().Show(LlmCallStarted(turn, step, id));
      ObserveWatched(c, started, Requested(id, request), Calling(turn, step, id));
      var s1 := started.Observe(Requested(id, request));
      ModelCallWatched(c, s1, NewState(input.config.model), turn, step, id, c.world.stream(s1.now), 0, input.config.model, []);
      var call := ModelCall(c, s1, NewState(input.config.model), turn, step, id, c.world.stream(s1.now), 0);
      SettleWatched(c, call.0, input, turn, step, id, call.1, attempt);
    }
  }

  lemma {:induction false} AttemptsWatched(c: Context, s: Run, input: TurnInput, turn: nat, step: nat,
                                           request: ModelRequest, attempt: nat, end: (Run, AttemptsResult))
    requires attempt <= input.policy.maxLlmRetries + 1 && At(c, s, Quiet)
    requires end == Attempts(c, s, input, turn, step, request, attempt)
    ensures AttemptWatched(c, end.0, Some(end.1))
    decreases input.policy.maxLlmRetries + 1 - attempt
  {
    AttemptsUnfold(c, s, input, turn, step, request, attempt);
    if attempt <= input.policy.maxLlmRetries {
      var attempted := Attempt(c, s, input, turn, step, request, attempt);
      OneAttemptWatched(c, s, input, turn, step, request, attempt);
      if attempted.1.None? {
        AttemptsWatched(c, attempted.0, input, turn, step, request, attempt + 1, end);
      }
    }
  }

  // ---- Tool rounds -------------------------------------------------------

  /** Call `k` of the response is being handled. */
  ghost predicate Handling(c: Context, s: Run, response: ModelResponse, k: nat) {
    exists answer, started :: At(c, s, Executing(response, k, answer, started))
  }

  /** It is, and this result would tell truly what became of it. */
  ghost predicate Handled(c: Context, s: Run, response: ModelResponse, k: nat, result: ToolResult)
    requires k < |CallsOf(response.content)|
  {
    exists answer, started ::
      At(c, s, Executing(response, k, answer, started)) && Truthful(c.world, CallsOf(response.content)[k], answer, started, result)
  }

  /** Running an executor, as seen from outside: it was not started, or its result is truthful. */
  lemma ExecuteTruthful(c: Context, s: Run, call: ToolCall, answer: Option<ApprovalAnswer>)
    requires answer.None? || answer == Some(Answered(Approved))
    ensures var executed := Execute(c, s, call);
            || (executed.0.trace == s.trace && Truthful(c.world, call, answer, None, executed.1.result))
            || (executed.0.trace == s.trace + [ExecutionStarted(call, false, |s.log|, s.now + 1)]
                && Truthful(c.world, call, answer, Some(s.now + 1), executed.1.result))
  {
  }

  lemma ExecuteWatched(c: Context, s: Run, response: ModelResponse, k: nat, answer: Option<ApprovalAnswer>)
    requires k < |CallsOf(response.content)| && At(c, s, Executing(response, k, answer, None))
    requires Permitted(c.runtime, CallsOf(response.content)[k], answer)
    ensures var executed := Execute(c, s, CallsOf(response.content)[k]); Handled(c, executed.0, response, k, executed.1.result)
  {
    var call := CallsOf(response.content)[k];
    var w := Executing(response, k, answer, None);
    var executed := Execute(c, s, call);
    ExecuteTruthful(c, s, call, answer);
    if executed.0.trace == s.trace {
      assert At(c, executed.0, w);
    } else {
      ObserveWatched(c, s, ExecutionStarted(call, false, |s.log|, s.now + 1), w);
      assert At(c, executed.0, w.(started := Some(s.now + 1)));
    }
  }

  lemma AskWatched(c: Context, s: Run, response: ModelResponse, k: nat)
    requires k < |CallsOf(response.content)| && At(c, s, Executing(response, k, None, None))
    requires Allowed(c.runtime, CallsOf(response.content)[k], Ask)
    ensures var asked := AskThenExecute(c, s, CallsOf(response.content)[k]); Handled(c, asked.0, response, k, asked.1.result)
  {
    var call := CallsOf(response.content)[k];
    var w := Executing(response, k, None, None);
    var asked := s.Wait(c.world.delay(s.now));
    var answer := c.world.approval(s.now);
    if IsCancelled(c, s.now + c.world.delay(s.now)) {
      assert At(c, AskThenExecute(c, s, call).0, w);
    } else {
      ObserveWatched(c, asked, ApprovalGiven(call, answer, s.now), w);
      var given := asked.Observe(ApprovalGiven(call, answer, s.now));
      assert At(c, given, Executing(response, k, Some(answer), None));
      if answer == Answered(Approved) {
        ExecuteWatched(c, given, response, k, Some(answer));
      }
    }
  }

  /** What the gate decides. */
  lemma GateAllows(runtime: ToolRuntime, call: ToolCall)
    ensures GateOf(runtime, call).MayRun? <==> Allowed(runtime, call, Allow)
    ensures GateOf(runtime, call).MustAsk? <==> Allowed(runtime, call, Ask) && runtime.hasApproval
  {
  }

  lemma ExecuteCallWatched(c: Context, s: Run, response: ModelResponse, k: nat)
    requires k < |CallsOf(response.content)| && At(c, s, Executing(response, k, None, None))
    ensures var executed := ExecuteCall(c, s, CallsOf(response.content)[k]); Handled(c, executed.0, response, k, executed.1.result)
  {
    var call := CallsOf(response.content)[k];
    GateAllows(c.runtime, call);
    assert At(c, s.Tick(), Executing(response, k, None, None));
    if !IsCancelled(c, s.now) {
      if GateOf(c.runtime, call).MustAsk? {
        AskWatched(c, s.Tick(), response, k);
      } else if GateOf(c.runtime, call).MayRun? {
        ExecuteWatched(c, s.Tick(), response, k, None);
      }
    }
  }

  /** A round is over or being closed: nothing more will run in it. */
  ghost predicate RoundOver(c: Context, s: Run, response: ModelResponse) {
    || At(c, s, Quiet)
    || At(c, s, Closing(response))
    || exists k :: Handling(c, s, response, k)
  }

  lemma ParentWatched(c: Context, s: Run, turn: nat, response: ModelResponse, k: nat)
    requires k < |CallsOf(response.content)|
    requires At(c, s, Closing(response)) || exists j: nat :: j <= k && Handling(c, s, response, j)
    ensures var emitted := Emit(c, s, ToolResultRecorded(turn, ParentCancelled(CallsOf(response.content)[k])));
            && (emitted.1.None? ==> At(c, emitted.0, Closing(response)))
            && (emitted.1.Some? ==> emitted.0.trace == s.trace)
  {
    var result := ParentCancelled(CallsOf(response.content)[k]);
    var event := ToolResultRecorded(turn, result);
    if At(c, s, Closing(response)) {
      EmitWatched(c, s, event, Closing(response));
      assert IsParentResult(result, CallsOf(response.content), 0);
    } else {
      var j: nat :| j <= k && Handling(c, s, response, j);
      var answer, started :| At(c, s, Executing(response, j, answer, started));
      EmitWatched(c, s, event, Executing(response, j, answer, started));
      assert IsParentResult(result, CallsOf(response.content), j);
    }
  }

  lemma {:induction false} CloseRemainingWatched(c: Context, s: Run, turn: nat, response: ModelResponse, k: nat, errors: seq<CommitError>)
    requires k <= |CallsOf(response.content)|
    requires At(c, s, Closing(response)) || (exists j: nat :: j <= k && Handling(c, s, response, j)) ||
             (k == |CallsOf(response.content)| && At(c, s, Quiet))
    ensures RoundOver(c, CloseRemaining(c, s, turn, CallsOf(response.content), k, errors).0, response)
    decreases |CallsOf(response.content)| - k
  {
    var calls := CallsOf(response.content);
    if k < |calls| {
      ParentWatched(c, s, turn, response, k);
      var emitted := Emit(c, s, ToolResultRecorded(turn, ParentCancelled(calls[k])));
      var errors' := if emitted.1.Some? then errors + [emitted.1.value] else errors;
      if emitted.1.Some? && !At(c, s, Closing(response)) {
        var j: nat :| j <= k && Handling(c, s, response, j);
        assert Handling(c, emitted.0, response, j);
      }
      CloseRemainingWatched(c, emitted.0, turn, response, k + 1, errors');
    }
  }

  lemma ResultWatched(c: Context, s: Run, turn: nat, response: ModelResponse, k: nat, result: ToolResult)
    requires k < |CallsOf(response.content)| && Handled(c, s, response, k, result)
    requires Answers(result, CallsOf(response.content)[k]) && result.status != Cancelled(ReasonParent)
    ensures var emitted := Emit(c, s, ToolResultRecorded(turn, result));
            && (emitted.1.Some? ==> Handling(c, emitted.0, response, k))
            && (emitted.1.None? ==>
                  At(c, emitted.0, if k + 1 == |CallsOf(response.content)| then Quiet else Executing(response, k + 1, None, None)))
  {
    var answer, started :|
      At(c, s, Executing(response, k, answer, started)) && Truthful(c.world, CallsOf(response.content)[k], answer, started, result);
    EmitWatched(c, s, ToolResultRecorded(turn, result), Executing(response, k, answer, started));
  }

  /** Running call `k` and committing its result. */
  lemma CallWatched(c: Context, s: Run, turn: nat, response: ModelResponse, k: nat)
    requires k < |CallsOf(response.content)| && At(c, s, Executing(response, k, None, None))
    ensures var executed := ExecuteCall(c, s, CallsOf(response.content)[k]);
            var emitted := Emit(c, executed.0, ToolResultRecorded(turn, executed.1.result));
            && (emitted.1.Some? ==> Handling(c, emitted.0, response, k))
            && (emitted.1.None? ==>
                  At(c, emitted.0, if k + 1 == |CallsOf(response.content)| then Quiet else Executing(response, k + 1, None, None)))
  {
    var call := CallsOf(response.content)[k];
    var executed := ExecuteCall(c, s, call);
    ExecuteCallWatched(c, s, response, k);
    ExecuteCallResult(c, s, call);
    assert executed.1.result.status != Cancelled(ReasonParent);
    ResultWatched(c, executed.0, turn, response, k, executed.1.result);
  }

  lemma {:induction false} ToolRoundWatched(c: Context, s: Run, turn: nat, response: ModelResponse, k: nat)
    requires k < |CallsOf(response.content)| && At(c, s, Executing(response, k, None, None))
    ensures var round := ToolRoundFrom(c, s, turn, CallsOf(response.content), k);
            && RoundOver(c, round.0, response)
            && (round.1.None? ==> At(c, round.0, Quiet))
    decreases |CallsOf(response.content)| - k
  {
    var calls := CallsOf(response.content);
    CallWatched(c, s, turn, response, k);
    var executed := ExecuteCall(c, s, calls[k]);
    var emitted := Emit(c, executed.0, ToolResultRecorded(turn, executed.1.result));
    if emitted.1.Some? || CauseOf(executed.1).Some? {
      assert emitted.1.None? && k + 1 < |calls| ==> Handling(c, emitted.0, response, k + 1);
      CloseRemainingWatched(c, emitted.0, turn, response, k + 1, []);
    } else if k + 1 < |calls| {
      ToolRoundWatched(c, emitted.0, turn, response, k + 1);
    }
  }

  lemma {:induction false} RecordCallsWatched(c: Context, s: Run, turn: nat, response: ModelResponse, k: nat)
    requires k < |CallsOf(response.content)| && At(c, s, Recording(response, k))
    ensures var recorded := RecordCalls(c, s, turn, CallsOf(response.content), k);
            && (recorded.1.None? ==> At(c, recorded.0, Executing(response, 0, None, None)))
            && (recorded.1.Some? ==> exists n :: At(c, recorded.0, Recording(response, n)))
    decreases |CallsOf(response.content)| - k
  {
    var calls := CallsOf(response.content);
    var event := ToolCallRecorded(turn, calls[k]);
    EmitWatched(c, s, event, Recording(response, k));
    var emitted := Emit(c, s, event);
    if emitted.1.None? && k + 1 < |calls| {
      RecordCallsWatched(c, emitted.0, turn, response, k + 1);
    }
  }

  // ---- Turns -------------------------------------------------------------

  /** The trace follows the protocol and no model call is left open. */
  ghost predicate Orderly(c: Context, s: Run) {
    Watched(OutsideOf(c), s.trace).Some? && !Watched(OutsideOf(c), s.trace).value.InCall()
  }

  lemma RoundOverIsOrderly(c: Context, s: Run, response: ModelResponse)
    requires RoundOver(c, s, response)
    ensures Orderly(c, s)
  {
    if k :| Handling(c, s, response, k) {
      var answer, started :| At(c, s, Executing(response, k, answer, started));
    }
  }

  lemma ActWatched(c: Context, s: Run, input: TurnInput, config: CallConfig, turn: nat, step: nat,
                   response: ModelResponse, action: ResponseAction, llmCallId: Id)
    requires UsableResponse(response) && action == ActionOf(response) && At(c, s, Finalizing(llmCallId, response))
    ensures var acted := Act(c, s, input, config, turn, step, response, action, llmCallId);
            Orderly(c, acted.0) && (acted.1.Continue? ==> At(c, acted.0, Quiet))
  {
    var event := AssistantFinalized(turn, llmCallId, action.assistantBlocks);
    EmitWatched(c, s, event, Finalizing(llmCallId, response));
    var finalized := Emit(c, s, event);
    if finalized.1.None? {
      if action.Terminal? {
        ObserveWatched(c, finalized.0, Emitted(TurnEnded(turn)), Quiet);
      } else {
        RecordCallsWatched(c, finalized.0, turn, response, 0);
        var recorded := RecordCalls(c, finalized.0, turn, action.calls, 0);
        if recorded.1.None? {
          ToolRoundWatched(c, recorded.0, turn, response, 0);
          var round := ToolRoundFrom(c, recorded.0, turn, action.calls, 0);
          RoundOverIsOrderly(c, round.0, response);
          if round.1.None? {
            ObserveWatched(c, round.0, Emitted(TurnEnded(turn)), Quiet);
          }
        }
      }
    }
  }

  lemma StepWatched(c: Context, s: Run, input: TurnInput, config: CallConfig, turn: nat, step: nat)
    requires At(c, s, Quiet)
    ensures var stepped := Step(c, s, input, config, turn, step);
            Orderly(c, stepped.0) && (stepped.1.Continue? ==> At(c, stepped.0, Quiet))
  {
    if !IsCancelled(c, s.now) && Materialized(s.log).Ok? {
      var request := Compile(input, config, Materialized(s.log).value);
      var attempts := Attempts(c, s.Tick(), input, turn, step, request, 0);
      AttemptsWatched(c, s.Tick(), input, turn, step, request, 0, attempts);
      if attempts.1.Got? {
        ActWatched(c, attempts.0, input, config, turn, step, attempts.1.response, attempts.1.action, attempts.1.llmCallId);
      }
    }
  }

  lemma {:induction false} StepsWatched(c: Context, s: Run, input: TurnInput, config: CallConfig, turn: nat, step: nat)
    requires step <= input.policy.maxSteps && At(c, s, Quiet)
    ensures Orderly(c, Steps(c, s, input, config, turn, step).0)
    decreases input.policy.maxSteps - step
  {
    if step < input.policy.maxSteps {
      StepWatched(c, s, input, config, turn, step);
      var stepped := Step(c, s, input, config, turn, step);
      if stepped.1.Continue? {
        StepsWatched(c, stepped.0, input, stepped.1.config, turn, step + 1);
      }
    }
  }

  /** Every turn follows the protocol on every exit, whatever the outside does. */
  lemma TurnFollowsProtocol(c: Context, s: Run, input: TurnInput)
    requires Orderly(c, s)
    ensures Orderly(c, Turn(c, s, input).0)
  {
    if Preflight(c, s, input).Ok? {
      var turn := Preflight(c, s, input).value;
      var s0 := s.Tick().Tick();
      ObserveWatched(c, s0, Emitted(TurnStarted(turn)), Watched(OutsideOf(c), s.trace).value);
      var s1 := s0.Show(TurnStarted(turn));
      if !IsCancelled(c, s1.now) {
        EmitWatched(c, s1.Tick(), UserPromptCommitted(turn, input.text), Quiet);
        var prompted := Emit(c, s1.Tick(), UserPromptCommitted(turn, input.text));
        if prompted.1.None? {
          StepsWatched(c, prompted.0, input, input.config, turn, 0);
        }
      }
    }
  }

  /** So does any run of turns, each with its own token, from a fresh loop. */
  lemma {:induction false} TurnsFollowProtocol(c: Context, s: Run, requests: seq<TurnRequest>)
    requires Orderly(c, s)
    ensures Orderly(c, Turns(c, s, requests))
    decreases |requests|
  {
    if requests != [] {
      var front := requests[..|requests| - 1];
      var last := requests[|requests| - 1];
      TurnsFollowProtocol(c, s, front);
      TurnFollowsProtocol(c.(cancelAt := last.cancelAt), Turns(c, s, front), last.input);
    }
  }
}
