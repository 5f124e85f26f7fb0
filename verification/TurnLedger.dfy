/** What observers are shown as committed is what the log holds, at the end and whenever an executor starts. */
module TurnLedger {
  import opened Protocol
  import opened Tools
  import opened SessionTypes
  import opened SessionStores
  import opened Materialize
  import opened ResponseBuilder
  import opened ResponseActions
  import opened ToolRuntimes
  import opened TurnEvents
  import opened TurnSpec
  import opened TurnLog

  /** The item that an observation shows as committed, if any. */
  function CommittedOf(o: Observation): seq<ItemBody> {
    if o.Emitted? && PlanOf(o.event).Append? then [PlanOf(o.event).draft.body] else []
  }

  function Committed(trace: seq<Observation>): seq<ItemBody> {
    if trace == [] then [] else Committed(trace[..|trace| - 1]) + CommittedOf(trace[|trace| - 1])
  }

  lemma CommittedSnoc(trace: seq<Observation>, o: Observation)
    ensures Committed(trace + [o]) == Committed(trace) + CommittedOf(o)
  {
    assert (trace + [o])[..|trace|] == trace;
  }

  lemma {:induction false} CommittedPrefix(trace: seq<Observation>, i: nat)
    requires i <= |trace|
    ensures Committed(trace[..i]) <= Committed(trace)
    decreases |trace|
  {
    if i == |trace| {
      assert trace[..i] == trace;
    } else {
      CommittedPrefix(trace[..|trace| - 1], i);
      assert trace[..|trace| - 1][..i] == trace[..i];
    }
  }

  /** Every executor found the log with what had been shown as committed by then. */
  predicate StartsLogged(base: seq<ItemBody>, trace: seq<Observation>) {
    if trace == [] then true
    else
      var front, last := trace[..|trace| - 1], trace[|trace| - 1];
      && StartsLogged(base, front)
      && (last.ExecutionStarted? ==> last.logged == |base| + |Committed(front)|)
  }

  /** The log holds what it held before anything was shown, and since then exactly what was shown as committed. */
  predicate Kept(base: seq<ItemBody>, log: seq<SessionItem>, trace: seq<Observation>) {
    Bodies(log) == base + Committed(trace) && StartsLogged(base, trace)
  }

  lemma KeptSnoc(base: seq<ItemBody>, s: Run, s': Run, o: Observation)
    requires Kept(base, s.log, s.trace) && s'.trace == s.trace + [o]
    requires Bodies(s'.log) == Bodies(s.log) + CommittedOf(o)
    requires o.ExecutionStarted? ==> o.logged == |s.log|
    ensures Kept(base, s'.log, s'.trace)
  {
    CommittedSnoc(s.trace, o);
    Regroup(base, Committed(s.trace), CommittedOf(o));
    assert s'.trace[..|s.trace|] == s.trace;
  }

  /** Showing something that is not committed. */
  lemma KeptShow(base: seq<ItemBody>, s: Run, s': Run, o: Observation)
    requires Kept(base, s.log, s.trace) && s'.trace == s.trace + [o] && s'.log == s.log
    requires CommittedOf(o) == [] && (o.ExecutionStarted? ==> o.logged == |s.log|)
    ensures Kept(base, s'.log, s'.trace)
  {
    assert Bodies(s.log) + [] == Bodies(s.log);
    KeptSnoc(base, s, s', o);
  }

  // ---- Each operation ------------------------------------------------------

  lemma EmitKept(c: Context, base: seq<ItemBody>, s: Run, event: TurnEvent)
    requires Kept(base, s.log, s.trace)
    ensures var end := Emit(c, s, event).0; Kept(base, end.log, end.trace)
  {
    var emitted, plan := Emit(c, s, event), PlanOf(event);
    if plan.Append? {
      var outcome := CommitOutcome(s.log, c.sessionId, plan.draft, s.now, s.now, c.world.appendOk(s.now));
      if outcome.Ok? {
        BodiesAppend(s.log, [outcome.value]);
        assert Bodies([outcome.value]) == [plan.draft.body];
        KeptSnoc(base, s, emitted.0, Emitted(event));
      }
    } else {
      KeptShow(base, s, emitted.0, Emitted(event));
    }
  }

  lemma {:induction false} ModelCallKept(c: Context, base: seq<ItemBody>, s: Run, b: BuilderState, turn: nat, step: nat,
                                         llmCallId: Id, stream: ModelStream, i: nat)
    requires i <= |stream.items| && Kept(base, s.log, s.trace)
    ensures var end := ModelCall(c, s, b, turn, step, llmCallId, stream, i).0; Kept(base, end.log, end.trace)
    decreases |stream.items| - i
  {
    if i == |stream.items| {
      EndOfStreamKept(c, base, s, b, llmCallId, stream.endDelay);
    } else if stream.items[i].item.Ok? {
      var s1 := s.Wait(stream.items[i].delay);
      var applied := Applied(b, stream.items[i].item.value);
      var update := MessageUpdate(turn, step, llmCallId, SnapshotOf(applied.0));
      KeptShow(base, s, s1.Show(update), Emitted(update));
      ModelCallKept(c, base, s1.Show(update), applied.0, turn, step, llmCallId, stream, i + 1);
    }
  }

  lemma EndOfStreamKept(c: Context, base: seq<ItemBody>, s: Run, b: BuilderState, llmCallId: Id, delay: nat)
    requires Kept(base, s.log, s.trace)
    ensures var end := EndOfStream(c, s, b, llmCallId, delay).0; Kept(base, end.log, end.trace)
  {
    if FinishOf(b).Ok? {
      var o := Responded(llmCallId, FinishOf(b).value);
      KeptShow(base, s, s.Wait(delay).Observe(o), o);
    }
  }

  lemma SettleKept(c: Context, base: seq<ItemBody>, s: Run, input: TurnInput, turn: nat, step: nat, llmCallId: Id,
                   result: Result<ModelResponse, LlmError>, attempt: nat)
    requires Kept(base, s.log, s.trace)
    ensures var end := Settle(c, s, input, turn, step, llmCallId, result, attempt).0; Kept(base, end.log, end.trace)
  {
    var settled := Settle(c, s, input, turn, step, llmCallId, result, attempt).0;
    KeptShow(base, s, settled, settled.trace[|s.trace|]);
  }

  lemma AttemptKept(c: Context, base: seq<ItemBody>, s: Run, input: TurnInput, turn: nat, step: nat,
                    request: ModelRequest, attempt: nat)
    requires Kept(base, s.log, s.trace)
    ensures var end := Attempt(c, s, input, turn, step, request, attempt).0; Kept(base, end.log, end.trace)
  {
    if !IsCancelled(c, s.now) {
      var id, model := s.now, input.config.model;
      var s0 := s.Tick().Show(LlmCallStarted(turn, step, id));
      var s1 := s0.Observe(Requested(id, request));
      KeptShow(base, s, s0, Emitted(LlmCallStarted(turn, step, id)));
      KeptShow(base, s0, s1, Requested(id, request));
      ModelCallKept(c, base, s1, NewState(model), turn, step, id, c.world.stream(s1.now), 0);
      var call := ModelCall(c, s1, NewState(model), turn, step, id, c.world.stream(s1.now), 0);
      SettleKept(c, base, call.0, input, turn, step, id, call.1, attempt);
    }
  }

  lemma {:induction false} AttemptsKept(c: Context, base: seq<ItemBody>, s: Run, input: TurnInput, turn: nat, step: nat,
                                        request: ModelRequest, attempt: nat, end: (Run, AttemptsResult))
    requires attempt <= input.policy.maxLlmRetries + 1 && Kept(base, s.log, s.trace)
    requires end == Attempts(c, s, input, turn, step, request, attempt)
    ensures Kept(base, end.0.log, end.0.trace)
    decreases input.policy.maxLlmRetries + 1 - attempt
  {
    AttemptsUnfold(c, s, input, turn, step, request, attempt);
    if attempt <= input.policy.maxLlmRetries {
      AttemptKept(c, base, s, input, turn, step, request, attempt);
      var attempted := Attempt(c, s, input, turn, step, request, attempt);
      if attempted.1.None? {
        AttemptsKept(c, base, attempted.0, input, turn, step, request, attempt + 1, end);
      }
    }
  }

  lemma ExecuteKept(c: Context, base: seq<ItemBody>, s: Run, call: ToolCall)
    requires Kept(base, s.log, s.trace)
    ensures var end := Execute(c, s, call).0; Kept(base, end.log, end.trace)
  {
    var started := ExecutionStarted(call, false, |s.log|, s.now + 1);
    KeptShow(base, s, s.Tick().Observe(started), started);
  }

  lemma AskKept(c: Context, base: seq<ItemBody>, s: Run, call: ToolCall)
    requires Kept(base, s.log, s.trace)
    ensures var end := AskThenExecute(c, s, call).0; Kept(base, end.log, end.trace)
  {
    var given := ApprovalGiven(call, c.world.approval(s.now), s.now);
    var asked := s.Wait(c.world.delay(s.now)).Observe(given);
    KeptShow(base, s, asked, given);
    ExecuteKept(c, base, asked, call);
  }

  lemma RefusedKept(c: Context, base: seq<ItemBody>, s: Run, call: ToolCall)
    requires Kept(base, s.log, s.trace) && !GateOf(c.runtime, call).MustAsk? && !GateOf(c.runtime, call).MayRun?
    ensures var end := ExecuteCall(c, s, call).0; Kept(base, end.log, end.trace)
  {
    assert ExecuteCall(c, s, call).0 == s.Tick();
  }

  lemma ExecuteCallKept(c: Context, base: seq<ItemBody>, s: Run, call: ToolCall)
    requires Kept(base, s.log, s.trace)
    ensures var end := ExecuteCall(c, s, call).0; Kept(base, end.log, end.trace)
  {
    match GateOf(c.runtime, call)
    case MayRun => ExecuteKept(c, base, s.Tick(), call);
    case MustAsk => AskKept(c, base, s.Tick(), call);
    case _ => RefusedKept(c, base, s, call);
  }

  lemma {:induction false} CloseRemainingKept(c: Context, base: seq<ItemBody>, s: Run, turn: nat, calls: seq<ToolCall>,
                                              k: nat, errors: seq<CommitError>)
    requires k <= |calls| && Kept(base, s.log, s.trace)
    ensures var end := CloseRemaining(c, s, turn, calls, k, errors).0; Kept(base, end.log, end.trace)
    decreases |calls| - k
  {
    if k < |calls| {
      var event := ToolResultRecorded(turn, ParentCancelled(calls[k]));
      EmitKept(c, base, s, event);
      CloseRemainingUnfold(c, s, turn, calls, k, errors);
      var emitted := Emit(c, s, event);
      CloseRemainingKept(c, base, emitted.0, turn, calls, k + 1, NotedError(errors, emitted.1));
    }
  }

  lemma {:induction false} ToolRoundKept(c: Context, base: seq<ItemBody>, s: Run, turn: nat, calls: seq<ToolCall>, k: nat)
    requires k <= |calls| && Kept(base, s.log, s.trace)
    ensures var end := ToolRoundFrom(c, s, turn, calls, k).0; Kept(base, end.log, end.trace)
    decreases |calls| - k
  {
    if k < |calls| {
      ExecuteCallKept(c, base, s, calls[k]);
      var executed := ExecuteCall(c, s, calls[k]);
      EmitKept(c, base, executed.0, ToolResultRecorded(turn, executed.1.result));
      var emitted := Emit(c, executed.0, ToolResultRecorded(turn, executed.1.result));
      CloseRemainingKept(c, base, emitted.0, turn, calls, k + 1, []);
      ToolRoundKept(c, base, emitted.0, turn, calls, k + 1);
    }
  }

  lemma {:induction false} RecordCallsKept(c: Context, base: seq<ItemBody>, s: Run, turn: nat, calls: seq<ToolCall>, k: nat)
    requires k <= |calls| && Kept(base, s.log, s.trace)
    ensures var end := RecordCalls(c, s, turn, calls, k).0; Kept(base, end.log, end.trace)
    decreases |calls| - k
  {
    if k < |calls| {
      EmitKept(c, base, s, ToolCallRecorded(turn, calls[k]));
      RecordCallsKept(c, base, Emit(c, s, ToolCallRecorded(turn, calls[k])).0, turn, calls, k + 1);
    }
  }

  // ---- Steps and turns -----------------------------------------------------

  lemma RoundedKept(c: Context, base: seq<ItemBody>, s: Run, turn: nat, calls: seq<ToolCall>)
    requires Kept(base, s.log, s.trace)
    ensures var end := Rounded(c, s, turn, calls).0; Kept(base, end.log, end.trace)
  {
    RecordCallsKept(c, base, s, turn, calls, 0);
    ToolRoundKept(c, base, RecordCalls(c, s, turn, calls, 0).0, turn, calls, 0);
  }

  lemma ActKept(c: Context, base: seq<ItemBody>, s: Run, input: TurnInput, config: CallConfig, turn: nat, step: nat,
                response: ModelResponse, action: ResponseAction, llmCallId: Id)
    requires Kept(base, s.log, s.trace)
    ensures var end := Act(c, s, input, config, turn, step, response, action, llmCallId).0; Kept(base, end.log, end.trace)
  {
    var event := AssistantFinalized(turn, llmCallId, action.assistantBlocks);
    EmitKept(c, base, s, event);
    if action.ToolRound? {
      RoundedKept(c, base, Emit(c, s, event).0, turn, action.calls);
    }
    var last := ActEnds(c, s, input, config, turn, step, response, action, llmCallId);
    KeptShow(base, last, last.Show(TurnEnded(turn)), Emitted(TurnEnded(turn)));
  }

  lemma StepKept(c: Context, base: seq<ItemBody>, s: Run, input: TurnInput, config: CallConfig, turn: nat, step: nat)
    requires Kept(base, s.log, s.trace)
    ensures var end := Step(c, s, input, config, turn, step).0; Kept(base, end.log, end.trace)
  {
    if !IsCancelled(c, s.now) && Materialized(s.log).Ok? {
      var request := Compile(input, config, Materialized(s.log).value);
      var attempts := Attempts(c, s.Tick(), input, turn, step, request, 0);
      AttemptsKept(c, base, s.Tick(), input, turn, step, request, 0, attempts);
      if attempts.1.Got? {
        ActKept(c, base, attempts.0, input, config, turn, step, attempts.1.response, attempts.1.action, attempts.1.llmCallId);
      }
    }
  }

  lemma {:induction false} StepsKept(c: Context, base: seq<ItemBody>, s: Run, input: TurnInput, config: CallConfig, turn: nat, step: nat)
    requires step <= input.policy.maxSteps && Kept(base, s.log, s.trace)
    ensures var end := Steps(c, s, input, config, turn, step).0; Kept(base, end.log, end.trace)
    decreases input.policy.maxSteps - step
  {
    if step < input.policy.maxSteps {
      StepKept(c, base, s, input, config, turn, step);
      var stepped := Step(c, s, input, config, turn, step);
      if stepped.1.Continue? {
        StepsKept(c, base, stepped.0, input, stepped.1.config, turn, step + 1);
      }
    }
  }

  /** Every turn, whatever fails: an item is in the log exactly when its event has been shown, and in the same order. */
  lemma TurnKeepsLedger(c: Context, base: seq<ItemBody>, s: Run, input: TurnInput)
    requires Kept(base, s.log, s.trace)
    ensures var end := Turn(c, s, input).0; Kept(base, end.log, end.trace)
  {
    if Preflight(c, s, input).Ok? {
      var turn := Preflight(c, s, input).value;
      var s1 := s.Tick().Tick().Show(TurnStarted(turn));
      KeptShow(base, s, s1, Emitted(TurnStarted(turn)));
      EmitKept(c, base, s1.Tick(), UserPromptCommitted(turn, input.text));
      var prompted := Emit(c, s1.Tick(), UserPromptCommitted(turn, input.text));
      if prompted.1.None? {
        StepsKept(c, base, prompted.0, input, input.config, turn, 0);
      }
    }
  }

  lemma {:induction false} TurnsKeepLedger(c: Context, base: seq<ItemBody>, s: Run, requests: seq<TurnRequest>)
    requires Kept(base, s.log, s.trace)
    ensures var end := Turns(c, s, requests); Kept(base, end.log, end.trace)
    decreases |requests|
  {
    if requests != [] {
      var front, last := requests[..|requests| - 1], requests[|requests| - 1];
      TurnsKeepLedger(c, base, s, front);
      TurnKeepsLedger(c.(cancelAt := last.cancelAt), base, Turns(c, s, front), last.input);
    }
  }

  /** A fresh loop over a log: nothing has been shown yet. */
  lemma FreshLoopIsKept(s: Run)
    requires s.trace == []
    ensures Kept(Bodies(s.log), s.log, s.trace)
  {
    assert Bodies(s.log) + [] == Bodies(s.log);
  }

  /** The log as the executor started at `i` found it. */
  function LogAt(s: Run, i: nat): seq<SessionItem>
    requires i < |s.trace| && s.trace[i].ExecutionStarted? && s.trace[i].logged <= |s.log|
  {
    s.log[..s.trace[i].logged]
  }

  lemma {:induction false} StartLoggedAt(base: seq<ItemBody>, trace: seq<Observation>, i: nat)
    requires StartsLogged(base, trace) && i < |trace| && trace[i].ExecutionStarted?
    ensures trace[i].logged == |base| + |Committed(trace[..i])|
    decreases |trace|
  {
    if i < |trace| - 1 {
      StartLoggedAt(base, trace[..|trace| - 1], i);
      assert trace[..|trace| - 1][..i] == trace[..i];
    }
  }

  lemma LogAtIsShown(base: seq<ItemBody>, s: Run, i: nat)
    requires Kept(base, s.log, s.trace) && i < |s.trace| && s.trace[i].ExecutionStarted?
    ensures s.trace[i].logged <= |s.log|
    ensures Bodies(LogAt(s, i)) == base + Committed(s.trace[..i])
  {
    StartLoggedAt(base, s.trace, i);
    CommittedPrefix(s.trace, i);
    assert |Bodies(s.log)| == |s.log|;
  }
}
