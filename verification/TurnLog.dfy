/** What a turn leaves in the Session Item Log, for every script of the outside world. */
module TurnLog {
  import opened Protocol
  import opened Tools
  import opened SessionTypes
  import opened SessionStores
  import opened Materialize
  import opened LogGrammar
  import opened ResponseBuilder
  import opened ResponseActions
  import opened ToolRuntimes
  import opened TurnEvents
  import opened TurnSpec

  ghost predicate AllAppends(c: Context) {
    forall time: nat :: c.world.appendOk(time)
  }

  /** The log can be scanned to its end; calls may still be pending. */
  predicate Healthy(log: seq<SessionItem>) {
    ScanFrom(START, Bodies(log)).Ok?
  }

  /** The log materializes: no call is pending. */
  predicate Closed(log: seq<SessionItem>) {
    Materialized(log).Ok?
  }

  predicate LastAtMost(log: seq<SessionItem>, turn: nat) {
    log != [] ==> log[|log| - 1].base.turn <= turn
  }

  /** `s'` has appended items with these bodies, all in this turn. */
  predicate Adds(s: Run, s': Run, turn: nat, bodies: seq<ItemBody>) {
    && s.log <= s'.log
    && Bodies(s'.log) == Bodies(s.log) + bodies
    && (forall i :: |s.log| <= i < |s'.log| ==> s'.log[i].base.turn == turn)
    && LastAtMost(s'.log, turn)
  }

  lemma AddsNothing(s: Run, s': Run, turn: nat)
    requires s'.log == s.log && LastAtMost(s.log, turn)
    ensures Adds(s, s', turn, [])
  {
  }

  lemma AddsThen(s0: Run, s1: Run, s2: Run, turn: nat, first: seq<ItemBody>, second: seq<ItemBody>)
    requires Adds(s0, s1, turn, first) && Adds(s1, s2, turn, second)
    ensures Adds(s0, s2, turn, first + second)
  {
    assert Bodies(s0.log) + first + second == Bodies(s0.log) + (first + second);
  }

  // ---- Each operation ----------------------------------------------------

  lemma EmitAdds(c: Context, s: Run, event: TurnEvent)
    requires PlanOf(event).Append? && ValidateBody(PlanOf(event).draft.body).Ok?
    requires LastAtMost(s.log, event.turn)
    ensures var emitted := Emit(c, s, event);
            && (emitted.1.None? <==> c.world.appendOk(s.now))
            && Adds(s, emitted.0, event.turn, if emitted.1.None? then [PlanOf(event).draft.body] else [])
            && emitted.0.trace == (if emitted.1.None? then s.trace + [Emitted(event)] else s.trace)
  {
    var draft := PlanOf(event).draft;
    var outcome := CommitOutcome(s.log, c.sessionId, draft, s.now, s.now, c.world.appendOk(s.now));
    if outcome.Ok? {
      assert Bodies([outcome.value]) == [draft.body];
      BodiesAppend(s.log, [outcome.value]);
    } else {
      AddsNothing(s, s.Tick(), event.turn);
    }
  }

  lemma {:induction false} ModelCallKeepsLog(c: Context, s: Run, b: BuilderState, turn: nat, step: nat,
                                             llmCallId: Id, stream: ModelStream, i: nat)
    requires i <= |stream.items|
    ensures ModelCall(c, s, b, turn, step, llmCallId, stream, i).0.log == s.log
    decreases |stream.items| - i
  {
    if i < |stream.items| && stream.items[i].item.Ok? {
      var applied := Applied(b, stream.items[i].item.value);
      var s1 := s.Wait(stream.items[i].delay).Show(MessageUpdate(turn, step, llmCallId, SnapshotOf(applied.0)));
      ModelCallKeepsLog(c, s1, applied.0, turn, step, llmCallId, stream, i + 1);
    }
  }

  lemma {:induction false} AttemptsKeepLog(c: Context, s: Run, input: TurnInput, turn: nat, step: nat,
                                           request: ModelRequest, attempt: nat)
    requires attempt <= input.policy.maxLlmRetries + 1
    ensures Attempts(c, s, input, turn, step, request, attempt).0.log == s.log
    ensures var r := Attempts(c, s, input, turn, step, request, attempt).1;
            r.Got? ==> Classified(r.response) == Ok(r.action)
    decreases input.policy.maxLlmRetries + 1 - attempt
  {
    if attempt <= input.policy.maxLlmRetries {
      var s1 := s.Tick().Show(LlmCallStarted(turn, step, s.now)).Observe(Requested(s.now, request));
      ModelCallKeepsLog(c, s1, NewState(input.config.model), turn, step, s.now, c.world.stream(s1.now), 0);
      var attempted := Attempt(c, s, input, turn, step, request, attempt);
      if attempted.1.None? {
        AttemptsKeepLog(c, attempted.0, input, turn, step, request, attempt + 1);
      }
    }
  }

  lemma AttemptsUnfold(c: Context, s: Run, input: TurnInput, turn: nat, step: nat, request: ModelRequest, attempt: nat)
    requires attempt <= input.policy.maxLlmRetries + 1
    ensures var attempts := Attempts(c, s, input, turn, step, request, attempt);
            var attempted := Attempt(c, s, input, turn, step, request, attempt);
            if attempt > input.policy.maxLlmRetries then attempts == (s, GaveUp(NoResponse))
            else if attempted.1.Some? then attempted == (attempts.0, Some(attempts.1))
            else attempts == Attempts(c, attempted.0, input, turn, step, request, attempt + 1)
  {
  }

  predicate AbortStatus(status: ToolResultStatus) {
    status == Cancelled(ReasonUser) || status == Cancelled(ReasonDisposed) || status == OutcomeUnknown
  }

  /** The log is untouched, the result is the call's own, and its status says whether the round goes on. */
  predicate Settled(s: Run, call: ToolCall, executed: (Run, ToolCallOutcome)) {
    && executed.0.log == s.log
    && Answers(executed.1.result, call)
    && (executed.1.Completed? ==> !executed.1.result.status.Cancelled?)
    && (executed.1.Abort? ==> AbortStatus(executed.1.result.status) && ErrorFits(executed.1.result.status, executed.1.error))
  }

  /** A call that the user cancelled has no error, one that the approval handler failed has that, and others another or none. */
  predicate ErrorFits(status: ToolResultStatus, error: Option<ToolError>) {
    && (status == Cancelled(ReasonUser) ==> error.None?)
    && (status == Cancelled(ReasonDisposed) <==> error == Some(ApprovalHandlerFailed))
  }

  lemma ExecuteResult(c: Context, s: Run, call: ToolCall)
    ensures Settled(s, call, Execute(c, s, call))
  {
  }

  lemma AskResult(c: Context, s: Run, call: ToolCall)
    ensures Settled(s, call, AskThenExecute(c, s, call))
  {
    var answer := c.world.approval(s.now);
    ExecuteResult(c, s.Wait(c.world.delay(s.now)).Observe(ApprovalGiven(call, answer, s.now)), call);
  }

  lemma RefusedResult(c: Context, s: Run, call: ToolCall)
    requires !GateOf(c.runtime, call).MustAsk? && !GateOf(c.runtime, call).MayRun?
    ensures Settled(s, call, ExecuteCall(c, s, call))
  {
  }

  lemma PermittedResult(c: Context, s: Run, call: ToolCall)
    requires GateOf(c.runtime, call).MustAsk? || GateOf(c.runtime, call).MayRun?
    ensures Settled(s, call, ExecuteCall(c, s, call))
  {
    ExecuteResult(c, s.Tick(), call);
    AskResult(c, s.Tick(), call);
  }

  lemma ExecuteCallResult(c: Context, s: Run, call: ToolCall)
    ensures Settled(s, call, ExecuteCall(c, s, call))
  {
    match GateOf(c.runtime, call)
    case MustAsk | MayRun => PermittedResult(c, s, call);
    case _ => RefusedResult(c, s, call);
  }

  lemma CallBodiesSplit(calls: seq<ToolCall>, k: nat, n: nat)
    requires k <= n <= |calls|
    ensures CallBodies(calls[k..n]) == if k == n then [] else [CallItem(calls[k])] + CallBodies(calls[k + 1..n])
  {
  }

  lemma {:induction false} RecordCallsAdds(c: Context, s: Run, turn: nat, calls: seq<ToolCall>, k: nat) returns (n: nat)
    requires k <= |calls| && LastAtMost(s.log, turn)
    requires forall i :: 0 <= i < |calls| ==> WellNamed(calls[i])
    ensures k <= n <= |calls|
    ensures Adds(s, RecordCalls(c, s, turn, calls, k).0, turn, CallBodies(calls[k..n]))
    ensures RecordCalls(c, s, turn, calls, k).1.None? <==> n == |calls|
    ensures AllAppends(c) ==> n == |calls|
    decreases |calls| - k
  {
    n := k;
    if k == |calls| {
      AddsNothing(s, s, turn);
      CallBodiesSplit(calls, k, n);
    } else {
      var event := ToolCallRecorded(turn, calls[k]);
      EmitAdds(c, s, event);
      var emitted := Emit(c, s, event);
      RecordCallsUnfold(c, s, turn, calls, k);
      if emitted.1.None? {
        n := RecordCallsAdds(c, emitted.0, turn, calls, k + 1);
        CallBodiesSplit(calls, k, n);
        AddsThen(s, emitted.0, RecordCalls(c, emitted.0, turn, calls, k + 1).0, turn, [CallItem(calls[k])], CallBodies(calls[k + 1..n]));
      } else {
        CallBodiesSplit(calls, k, n);
      }
    }
  }

  lemma RecordCallsUnfold(c: Context, s: Run, turn: nat, calls: seq<ToolCall>, k: nat)
    requires k < |calls|
    ensures var emitted := Emit(c, s, ToolCallRecorded(turn, calls[k]));
            RecordCalls(c, s, turn, calls, k) ==
            if emitted.1.Some? then emitted else RecordCalls(c, emitted.0, turn, calls, k + 1)
  {
  }

  /** The results answer calls at increasing positions from `k` on. */
  predicate AnswersAt(results: seq<ToolResult>, calls: seq<ToolCall>, positions: seq<nat>, k: nat) {
    && |positions| == |results|
    && (forall i :: 0 <= i < |results| ==> k <= positions[i] < |calls| && Answers(results[i], calls[positions[i]]))
    && (forall i, j :: 0 <= i < j < |results| ==> positions[i] < positions[j])
  }

  /** One result per call from `k` on, in call order. */
  predicate AnswersAll(results: seq<ToolResult>, calls: seq<ToolCall>, k: nat) {
    && k + |results| == |calls|
    && forall i :: 0 <= i < |results| ==> Answers(results[i], calls[k + i])
  }

  lemma AnswersAtCons(result: ToolResult, results: seq<ToolResult>, calls: seq<ToolCall>, positions: seq<nat>, k: nat)
    requires k < |calls| && Answers(result, calls[k])
    requires AnswersAt(results, calls, positions, k + 1)
    ensures AnswersAt([result] + results, calls, [k] + positions, k)
    ensures AnswersAll(results, calls, k + 1) <==> AnswersAll([result] + results, calls, k)
  {
    var all, at := [result] + results, [k] + positions;
    forall i | 0 <= i < |all| ensures k <= at[i] < |calls| && Answers(all[i], calls[at[i]]) {
      if i > 0 { assert all[i] == results[i - 1] && at[i] == positions[i - 1]; }
    }
    forall i, j | 0 <= i < j < |all| ensures at[i] < at[j] {
      assert at[j] == positions[j - 1];
      if i > 0 { assert at[i] == positions[i - 1]; }
    }
    if AnswersAll(all, calls, k) {
      forall i | 0 <= i < |results| ensures Answers(results[i], calls[k + 1 + i]) {
        assert all[i + 1] == results[i];
      }
    }
  }

  /** Committing one result adds it or, when the append fails, nothing. */
  lemma EmitResult(c: Context, s: Run, turn: nat, result: ToolResult, call: ToolCall)
    requires LastAtMost(s.log, turn) && WellNamed(call) && Answers(result, call)
    ensures var emitted := Emit(c, s, ToolResultRecorded(turn, result));
            && (emitted.1.None? <==> c.world.appendOk(s.now))
            && Adds(s, emitted.0, turn, ResultBodies(if emitted.1.None? then [result] else []))
  {
    EmitAdds(c, s, ToolResultRecorded(turn, result));
    assert ResultBodies([result]) == [ResultItem(result)];
    assert ResultBodies([]) == [];
  }

  lemma AnswersLater(results: seq<ToolResult>, calls: seq<ToolCall>, positions: seq<nat>, k: nat)
    requires AnswersAt(results, calls, positions, k + 1)
    ensures AnswersAt(results, calls, positions, k)
  {
  }

  lemma AddsResults(s: Run, s1: Run, s2: Run, turn: nat, now: seq<ToolResult>, later: seq<ToolResult>)
    requires Adds(s, s1, turn, ResultBodies(now)) && Adds(s1, s2, turn, ResultBodies(later))
    ensures Adds(s, s2, turn, ResultBodies(now + later))
  {
    ResultBodiesConcat(now, later);
    AddsThen(s, s1, s2, turn, ResultBodies(now), ResultBodies(later));
  }

  /** Puts a just-handled call in front of what happened to the later ones. */
  lemma PrependResult(s: Run, s1: Run, s2: Run, turn: nat, calls: seq<ToolCall>, k: nat, committed: bool,
                      result: ToolResult, later: seq<ToolResult>, laterAt: seq<nat>)
    returns (results: seq<ToolResult>, positions: seq<nat>)
    requires k < |calls| && Answers(result, calls[k])
    requires Adds(s, s1, turn, ResultBodies(if committed then [result] else []))
    requires Adds(s1, s2, turn, ResultBodies(later)) && AnswersAt(later, calls, laterAt, k + 1)
    requires |later| <= |calls| - (k + 1) && (|later| == |calls| - (k + 1) ==> AnswersAll(later, calls, k + 1))
    ensures Adds(s, s2, turn, ResultBodies(results)) && AnswersAt(results, calls, positions, k)
    ensures |results| <= |calls| - k && (|results| == |calls| - k ==> AnswersAll(results, calls, k))
    ensures committed && AnswersAll(later, calls, k + 1) <==> AnswersAll(results, calls, k)
  {
    if committed {
      results, positions := [result] + later, [k] + laterAt;
      AddsResults(s, s1, s2, turn, [result], later);
      AnswersAtCons(result, later, calls, laterAt, k);
    } else {
      results, positions := later, laterAt;
      AddsResults(s, s1, s2, turn, [], later);
      assert [] + later == later;
      AnswersLater(later, calls, laterAt, k);
    }
  }

  lemma ResultBodiesConcat(a: seq<ToolResult>, b: seq<ToolResult>)
    ensures ResultBodies(a + b) == ResultBodies(a) + ResultBodies(b)
  {
  }

  lemma {:induction false} CloseRemainingAdds(c: Context, s: Run, turn: nat, calls: seq<ToolCall>, k: nat, errors: seq<CommitError>)
    returns (results: seq<ToolResult>, positions: seq<nat>)
    requires k <= |calls| && LastAtMost(s.log, turn)
    requires forall i :: 0 <= i < |calls| ==> WellNamed(calls[i])
    ensures Adds(s, CloseRemaining(c, s, turn, calls, k, errors).0, turn, ResultBodies(results))
    ensures AnswersAt(results, calls, positions, k)
    ensures |results| <= |calls| - k && (|results| == |calls| - k ==> AnswersAll(results, calls, k))
    ensures var closed := CloseRemaining(c, s, turn, calls, k, errors).1;
            && errors <= closed
            && (closed == errors <==> AnswersAll(results, calls, k))
            && (AllAppends(c) ==> closed == errors)
    decreases |calls| - k
  {
    results, positions := [], [];
    if k == |calls| {
      AddsNothing(s, s, turn);
      assert ResultBodies([]) == [];
    } else {
      var result := ParentCancelled(calls[k]);
      var emitted := Emit(c, s, ToolResultRecorded(turn, result));
      EmitResult(c, s, turn, result, calls[k]);
      var errors' := NotedError(errors, emitted.1);
      var later, laterAt := CloseRemainingAdds(c, emitted.0, turn, calls, k + 1, errors');
      CloseRemainingUnfold(c, s, turn, calls, k, errors);
      var end := CloseRemaining(c, s, turn, calls, k, errors).0;
      results, positions := PrependResult(s, emitted.0, end, turn, calls, k, emitted.1.None?, result, later, laterAt);
    }
  }

  function NotedError(errors: seq<CommitError>, failed: Option<CommitError>): (noted: seq<CommitError>)
    ensures errors <= noted && (noted == errors <==> failed.None?)
  {
    if failed.Some? then errors + [failed.value] else errors
  }

  lemma CloseRemainingUnfold(c: Context, s: Run, turn: nat, calls: seq<ToolCall>, k: nat, errors: seq<CommitError>)
    requires k < |calls|
    ensures var emitted := Emit(c, s, ToolResultRecorded(turn, ParentCancelled(calls[k])));
            CloseRemaining(c, s, turn, calls, k, errors) ==
            CloseRemaining(c, emitted.0, turn, calls, k + 1, NotedError(errors, emitted.1))
  {
  }

  /** No append of the round failed: it went on, or it was aborted and reports no failed commit and no failed cleanup. */
  predicate RoundLossless(r: Option<TurnError>) {
    r.None? || (r.value.RoundAborted? && r.value.commit.None? && r.value.cleanup == [])
  }

  /** What the first call of a round comes to: the round goes on, or ends with the closing of the remaining calls. */
  lemma RoundCases(c: Context, s: Run, turn: nat, calls: seq<ToolCall>, k: nat, outcome: ToolCallOutcome, s1: Run)
    requires k < |calls| && outcome == ExecuteCall(c, s, calls[k]).1
    requires s1 == Emit(c, ExecuteCall(c, s, calls[k]).0, ToolResultRecorded(turn, outcome.result)).0
    ensures var round, closed := ToolRoundFrom(c, s, turn, calls, k), CloseRemaining(c, s1, turn, calls, k + 1, []);
            var failed := Emit(c, ExecuteCall(c, s, calls[k]).0, ToolResultRecorded(turn, outcome.result)).1;
            if failed.None? && outcome.Completed? then round == ToolRoundFrom(c, s1, turn, calls, k + 1)
            else round == (closed.0, Some(RoundAborted(CauseOf(outcome), failed, closed.1)))
  {
  }

  /** Running a call and committing its result adds that result or, when the append fails, nothing. */
  lemma CallAdds(c: Context, s: Run, turn: nat, call: ToolCall, executed: (Run, ToolCallOutcome))
    requires LastAtMost(s.log, turn) && WellNamed(call) && executed == ExecuteCall(c, s, call)
    ensures Answers(executed.1.result, call)
    ensures var emitted := Emit(c, executed.0, ToolResultRecorded(turn, executed.1.result));
            && Adds(s, emitted.0, turn, ResultBodies(if emitted.1.None? then [executed.1.result] else []))
            && (AllAppends(c) ==> emitted.1.None?)
  {
    ExecuteCallResult(c, s, call);
    EmitResult(c, executed.0, turn, executed.1.result, call);
  }

  /** A round commits results in call order, one for every call exactly when it reports no failed append. */
  lemma {:induction false} ToolRoundAdds(c: Context, s: Run, turn: nat, calls: seq<ToolCall>, k: nat)
    returns (results: seq<ToolResult>, positions: seq<nat>)
    requires k <= |calls| && LastAtMost(s.log, turn)
    requires forall i :: 0 <= i < |calls| ==> WellNamed(calls[i])
    ensures Adds(s, ToolRoundFrom(c, s, turn, calls, k).0, turn, ResultBodies(results))
    ensures AnswersAt(results, calls, positions, k)
    ensures |results| <= |calls| - k && (|results| == |calls| - k ==> AnswersAll(results, calls, k))
    ensures RoundLossless(ToolRoundFrom(c, s, turn, calls, k).1) <==> AnswersAll(results, calls, k)
    ensures AllAppends(c) ==> RoundLossless(ToolRoundFrom(c, s, turn, calls, k).1)
    decreases |calls| - k
  {
    results, positions := [], [];
    if k == |calls| {
      AddsNothing(s, s, turn);
      assert ResultBodies([]) == [];
    } else {
      var executed := ExecuteCall(c, s, calls[k]);
      var result := executed.1.result;
      var emitted := Emit(c, executed.0, ToolResultRecorded(turn, result));
      CallAdds(c, s, turn, calls[k], executed);
      RoundCases(c, s, turn, calls, k, executed.1, emitted.0);
      var later, laterAt;
      if emitted.1.Some? || executed.1.Abort? {
        later, laterAt := CloseRemainingAdds(c, emitted.0, turn, calls, k + 1, []);
      } else {
        later, laterAt := ToolRoundAdds(c, emitted.0, turn, calls, k + 1);
      }
      var end := ToolRoundFrom(c, s, turn, calls, k).0;
      results, positions := PrependResult(s, emitted.0, end, turn, calls, k, emitted.1.None?, result, later, laterAt);
    }
  }

  // ---- One step ----------------------------------------------------------

  /** What a response leaves behind: its text, some of its calls, and results once all calls are recorded. */
  datatype Footprint = Footprint(marker: seq<ItemBody>, calls: seq<ToolCall>, results: seq<ToolResult>, positions: seq<nat>)

  function FootprintBodies(f: Footprint): seq<ItemBody> {
    f.marker + CallBodies(f.calls) + ResultBodies(f.results)
  }

  function Marker(blocks: seq<ContentBlock>): seq<ItemBody> {
    if blocks == [] then [] else [AssistantMessage(blocks)]
  }

  function CallsOfAction(action: ResponseAction): seq<ToolCall> {
    if action.ToolRound? then action.calls else []
  }

  predicate Leaves(f: Footprint, action: ResponseAction) {
    && (f.marker == Marker(action.assistantBlocks) || (f.marker == [] && f.calls == []))
    && f.calls <= CallsOfAction(action)
    && (f.results != [] ==> f.calls == CallsOfAction(action))
    && AnswersAt(f.results, f.calls, f.positions, 0)
  }

  /** Everything is recorded and every call has its result, in call order. */
  predicate LeavesAll(f: Footprint, action: ResponseAction) {
    && f.marker == Marker(action.assistantBlocks)
    && f.calls == CallsOfAction(action)
    && AnswersAll(f.results, f.calls, 0)
  }

  lemma FinalizeAdds(c: Context, s: Run, turn: nat, llmCallId: Id, blocks: seq<ContentBlock>)
    requires LastAtMost(s.log, turn) && PlainBlocks(blocks)
    ensures var emitted := Emit(c, s, AssistantFinalized(turn, llmCallId, blocks));
            && Adds(s, emitted.0, turn, if emitted.1.None? then Marker(blocks) else [])
            && (AllAppends(c) ==> emitted.1.None?)
  {
    if blocks == [] {
      AddsNothing(s, Emit(c, s, AssistantFinalized(turn, llmCallId, blocks)).0, turn);
    } else {
      EmitAdds(c, s, AssistantFinalized(turn, llmCallId, blocks));
    }
  }

  lemma ActionIsUsable(response: ModelResponse, action: ResponseAction)
    requires Classified(response) == Ok(action)
    ensures PlainBlocks(action.assistantBlocks) && DistinctIds(CallsOfAction(action))
    ensures forall i :: 0 <= i < |CallsOfAction(action)| ==> WellNamed(CallsOfAction(action)[i])
    ensures action.ToolRound? ==> action.calls != []
  {
    ClassifiesIffUsable(response);
  }

  /** Recording and running the calls of a response, after its text. */
  function Rounded(c: Context, s: Run, turn: nat, calls: seq<ToolCall>): (Run, Option<TurnError>) {
    var recorded := RecordCalls(c, s, turn, calls, 0);
    if recorded.1.Some? then (recorded.0, Some(CommitFailed(recorded.1.value)))
    else ToolRoundFrom(c, recorded.0, turn, calls, 0)
  }

  lemma RoundAdds(c: Context, s: Run, turn: nat, calls: seq<ToolCall>)
    returns (n: nat, results: seq<ToolResult>, positions: seq<nat>)
    requires LastAtMost(s.log, turn)
    requires forall i :: 0 <= i < |calls| ==> WellNamed(calls[i])
    ensures n <= |calls| && AnswersAt(results, calls[..n], positions, 0) && (results != [] ==> n == |calls|)
    ensures Adds(s, Rounded(c, s, turn, calls).0, turn, CallBodies(calls[..n]) + ResultBodies(results))
    ensures var r := Rounded(c, s, turn, calls).1;
            r.None? || r.value.RoundAborted? ==>
              && n == |calls| && (RoundLossless(r) <==> AnswersAll(results, calls, 0))
              && (RoundLossless(r) || |results| < |calls|)
    ensures AllAppends(c) ==> RoundLossless(Rounded(c, s, turn, calls).1)
  {
    n := RecordCallsAdds(c, s, turn, calls, 0);
    var recorded := RecordCalls(c, s, turn, calls, 0);
    results, positions := [], [];
    assert ResultBodies([]) == [];
    assert CallBodies(calls[..n]) + [] == CallBodies(calls[..n]);
    assert calls[0..n] == calls[..n];
    if recorded.1.None? {
      assert calls[..n] == calls;
      results, positions := ToolRoundAdds(c, recorded.0, turn, calls, 0);
      AddsThen(s, recorded.0, ToolRoundFrom(c, recorded.0, turn, calls, 0).0, turn, CallBodies(calls), ResultBodies(results));
    }
  }

  /** The step went on, completed the turn, or reports an end of its tool round without a failed append. */
  predicate StepLossless(r: StepResult) {
    r.Stop? && r.outcome.Err? ==> r.outcome.error.StepsExhausted? || RoundLossless(Some(r.outcome.error))
  }

  /** What acting on a response comes to, by what became of its text and of its round. */
  lemma ActCases(c: Context, s: Run, input: TurnInput, config: CallConfig, turn: nat, step: nat,
                 response: ModelResponse, action: ResponseAction, llmCallId: Id)
    ensures var acted := Act(c, s, input, config, turn, step, response, action, llmCallId);
            var finalized := Emit(c, s, AssistantFinalized(turn, llmCallId, action.assistantBlocks));
            if finalized.1.Some? then acted.0 == finalized.0 && !StepLossless(acted.1)
            else if action.Terminal? then acted.0.log == finalized.0.log && StepLossless(acted.1)
            else
              var rounded := Rounded(c, finalized.0, turn, action.calls);
              && acted.0.log == rounded.0.log && (StepLossless(acted.1) <==> RoundLossless(rounded.1))
              && (rounded.1.Some? ==> acted.1 == Stop(Err(rounded.1.value)))
  {
    if action.ToolRound? {
      var s1 := Emit(c, s, AssistantFinalized(turn, llmCallId, action.assistantBlocks)).0;
      RoundError(c, RecordCalls(c, s1, turn, action.calls, 0).0, turn, action.calls, 0);
    }
  }

  /** The outcome that a turn announces the end of. */
  predicate EndsTheTurn(r: StepResult) {
    r.Stop? && (r.outcome.Ok? || r.outcome.error.StepsExhausted?)
  }

  /** Acting on a response ends where its text or its round ends, with or without announcing the end of the turn. */
  lemma ActEnds(c: Context, s: Run, input: TurnInput, config: CallConfig, turn: nat, step: nat,
                response: ModelResponse, action: ResponseAction, llmCallId: Id) returns (last: Run)
    ensures last == Emit(c, s, AssistantFinalized(turn, llmCallId, action.assistantBlocks)).0 ||
            (action.ToolRound? &&
             last == Rounded(c, Emit(c, s, AssistantFinalized(turn, llmCallId, action.assistantBlocks)).0, turn, action.calls).0)
    ensures var acted := Act(c, s, input, config, turn, step, response, action, llmCallId);
            if EndsTheTurn(acted.1) then acted.0 == last.Show(TurnEnded(turn)) else acted.0 == last
  {
    var finalized := Emit(c, s, AssistantFinalized(turn, llmCallId, action.assistantBlocks));
    last := finalized.0;
    if action.ToolRound? && finalized.1.None? {
      RoundError(c, RecordCalls(c, last, turn, action.calls, 0).0, turn, action.calls, 0);
      last := Rounded(c, last, turn, action.calls).0;
    }
  }

  lemma SameLogAdds(s: Run, s1: Run, s2: Run, turn: nat, bodies: seq<ItemBody>)
    requires Adds(s, s1, turn, bodies) && s2.log == s1.log
    ensures Adds(s, s2, turn, bodies)
  {
  }

  /** What a round leaves after its text. */
  lemma RoundLeaves(c: Context, s: Run, s1: Run, turn: nat, action: ResponseAction) returns (f: Footprint)
    requires action.ToolRound? && Adds(s, s1, turn, Marker(action.assistantBlocks))
    requires forall i :: 0 <= i < |action.calls| ==> WellNamed(action.calls[i])
    ensures Leaves(f, action) && Adds(s, Rounded(c, s1, turn, action.calls).0, turn, FootprintBodies(f))
    ensures var r := Rounded(c, s1, turn, action.calls).1;
            r.None? || r.value.RoundAborted? ==>
              && f.calls == action.calls && (RoundLossless(r) <==> LeavesAll(f, action))
              && (RoundLossless(r) || |f.results| < |f.calls|)
    ensures AllAppends(c) ==> RoundLossless(Rounded(c, s1, turn, action.calls).1)
  {
    var n, results, positions := RoundAdds(c, s1, turn, action.calls);
    f := Footprint(Marker(action.assistantBlocks), action.calls[..n], results, positions);
    assert n == |action.calls| ==> f.calls == action.calls;
    AddsThen(s, s1, Rounded(c, s1, turn, action.calls).0, turn, f.marker, CallBodies(f.calls) + ResultBodies(results));
    Regroup(f.marker, CallBodies(f.calls), ResultBodies(results));
  }

  lemma ActAdds(c: Context, s: Run, input: TurnInput, config: CallConfig, turn: nat, step: nat,
                response: ModelResponse, action: ResponseAction, llmCallId: Id) returns (f: Footprint)
    requires LastAtMost(s.log, turn) && Classified(response) == Ok(action)
    ensures var acted := Act(c, s, input, config, turn, step, response, action, llmCallId);
            && Adds(s, acted.0, turn, FootprintBodies(f))
            && (StepLossless(acted.1) ==> LeavesAll(f, action))
            && (AllAppends(c) ==> StepLossless(acted.1))
    ensures Leaves(f, action)
  {
    ActionIsUsable(response, action);
    FinalizeAdds(c, s, turn, llmCallId, action.assistantBlocks);
    ActCases(c, s, input, config, turn, step, response, action, llmCallId);
    var s1 := Emit(c, s, AssistantFinalized(turn, llmCallId, action.assistantBlocks)).0;
    var acted := Act(c, s, input, config, turn, step, response, action, llmCallId).0;
    if Emit(c, s, AssistantFinalized(turn, llmCallId, action.assistantBlocks)).1.Some? {
      f := Footprint([], [], [], []);
      NoRound([]);
    } else if action.Terminal? {
      f := Footprint(Marker(action.assistantBlocks), [], [], []);
      NoRound(f.marker);
      SameLogAdds(s, s1, acted, turn, f.marker);
    } else {
      f := RoundLeaves(c, s, s1, turn, action);
      SameLogAdds(s, Rounded(c, s1, turn, action.calls).0, acted, turn, FootprintBodies(f));
    }
  }

  lemma NoRound(marker: seq<ItemBody>)
    ensures marker + CallBodies([]) + ResultBodies([]) == marker
  {
    assert CallBodies([]) == [] && ResultBodies([]) == [];
  }

  // ---- Scanning what a step left -----------------------------------------

  /** Results at increasing positions of distinct calls settle them. */
  lemma AnswersSettle(results: seq<ToolResult>, calls: seq<ToolCall>, positions: seq<nat>)
    requires DistinctIds(calls) && AnswersAt(results, calls, positions, 0)
    ensures Settles(results, CallMap(calls))
    ensures AnswersAll(results, calls, 0) ==> CallMap(calls).Keys == ResultIds(results)
  {
    CallMapLookup(calls);
    forall i, j | 0 <= i < j < |results| ensures results[i].toolUseId != results[j].toolUseId {
      assert positions[i] < positions[j];
    }
    if AnswersAll(results, calls, 0) {
      forall id | id in CallMap(calls) ensures id in ResultIds(results) {
        var k :| 0 <= k < |calls| && calls[k].toolUseId == id;
        assert results[k].toolUseId == id;
      }
    }
  }

  function MarkerMessages(marker: seq<ItemBody>): seq<Message> {
    if marker == [] || !marker[0].AssistantMessage? then [] else [Message(Assistant, BlockMessage(marker[0].blocks))]
  }

  function FootprintMessages(f: Footprint): seq<Message> {
    MarkerMessages(f.marker) + if f.calls == [] then [] else SegmentMessages(Round(f.calls, f.results))
  }

  lemma ScanMarker(messages: seq<Message>, blocks: seq<ContentBlock>)
    ensures ScanFrom(Scan(messages, Idle), Marker(blocks)) == Ok(Scan(messages + MarkerMessages(Marker(blocks)), Idle))
  {
    var s := Scan(messages, Idle);
    if blocks == [] {
      assert messages + [] == messages;
    } else {
      ScanSnoc(s, [], AssistantMessage(blocks));
      assert [] + Marker(blocks) == Marker(blocks);
    }
  }

  /** A step's footprint never spoils the log; a complete one closes its round and adds exactly its messages. */
  lemma ScanFootprint(messages: seq<Message>, f: Footprint, action: ResponseAction)
    requires Leaves(f, action) && DistinctIds(CallsOfAction(action))
    ensures ScanFrom(Scan(messages, Idle), FootprintBodies(f)).Ok?
    ensures LeavesAll(f, action) ==>
              ScanFrom(Scan(messages, Idle), FootprintBodies(f)) == Ok(Scan(messages + FootprintMessages(f), Idle))
  {
    var s := Scan(messages, Idle);
    var marked := messages + MarkerMessages(f.marker);
    assert ScanFrom(s, f.marker) == Ok(Scan(marked, Idle)) by {
      ScanMarker(messages, action.assistantBlocks);
      assert messages + [] == messages;
    }
    Regroup(f.marker, CallBodies(f.calls), ResultBodies(f.results));
    ScanAppend(s, f.marker, CallBodies(f.calls) + ResultBodies(f.results));
    ScanRest(marked, f, action);
    Regroup(messages, MarkerMessages(f.marker), if f.calls == [] then [] else SegmentMessages(Round(f.calls, f.results)));
  }

  lemma NoCallsNoResults(results: seq<ToolResult>, calls: seq<ToolCall>, positions: seq<nat>)
    requires AnswersAt(results, calls, positions, 0)
    ensures calls == [] ==> results == []
  {
    if results != [] {
      assert Answers(results[0], calls[positions[0]]);
    }
  }

  lemma ScanRest(messages: seq<Message>, f: Footprint, action: ResponseAction)
    requires Leaves(f, action) && DistinctIds(CallsOfAction(action))
    ensures var scan := ScanFrom(Scan(messages, Idle), CallBodies(f.calls) + ResultBodies(f.results));
            && scan.Ok?
            && (LeavesAll(f, action) ==>
                  scan.value == Scan(messages + if f.calls == [] then [] else SegmentMessages(Round(f.calls, f.results)), Idle))
  {
    if f.calls == [] {
      NoCallsNoResults(f.results, f.calls, f.positions);
      assert CallBodies(f.calls) + ResultBodies(f.results) == [];
      assert messages + [] == messages;
    } else {
      AnswersSettle(f.results, f.calls, f.positions);
      ScanRound(messages, f.calls, f.results);
      if LeavesAll(f, action) {
        assert CallMap(f.calls) - ResultIds(f.results) == map[];
        CloseMessages(messages, f.calls, f.results);
      }
    }
  }

  // ---- Steps and turns ---------------------------------------------------

  /** The log has only grown, by items of this turn. */
  predicate Extends(s: Run, s': Run, turn: nat) {
    && s.log <= s'.log
    && (forall i :: |s.log| <= i < |s'.log| ==> s'.log[i].base.turn == turn)
    && LastAtMost(s'.log, turn)
  }

  lemma ExtendsThen(s0: Run, s1: Run, s2: Run, turn: nat)
    requires Extends(s0, s1, turn) && Extends(s1, s2, turn)
    ensures Extends(s0, s2, turn)
  {
  }

  lemma ClosedScan(log: seq<SessionItem>)
    ensures Closed(log) <==> Healthy(log) && ScanFrom(START, Bodies(log)).value.phase.Idle?
    ensures Closed(log) ==> ScanFrom(START, Bodies(log)) == Ok(Scan(Materialized(log).value, Idle))
  {
  }

  lemma AddedFootprint(s: Run, s': Run, turn: nat, f: Footprint, action: ResponseAction)
    requires Closed(s.log) && Adds(s, s', turn, FootprintBodies(f))
    requires Leaves(f, action) && DistinctIds(CallsOfAction(action))
    ensures Healthy(s'.log)
    ensures LeavesAll(f, action) ==> Materialized(s'.log) == Ok(Materialized(s.log).value + FootprintMessages(f))
  {
    ScanAppend(START, Bodies(s.log), FootprintBodies(f));
    ScanFootprint(Materialized(s.log).value, f, action);
  }

  /** Refusals that come before anything is shown. */
  predicate RefusedAtStart(r: TurnOutcome) {
    r.Err? && (r.error.InvalidPolicy? || r.error.EmptyText? || r.error.BadHistory? || r.error.TurnNumberOverflow?)
  }

  lemma StepFacts(c: Context, s: Run, input: TurnInput, config: CallConfig, turn: nat, step: nat)
    requires Closed(s.log) && LastAtMost(s.log, turn)
    ensures var stepped := Step(c, s, input, config, turn, step);
            && Extends(s, stepped.0, turn)
            && Healthy(stepped.0.log)
            && (stepped.1.Continue? || AllAppends(c) ==> Closed(stepped.0.log))
            && (stepped.1.Stop? ==> !RefusedAtStart(stepped.1.outcome))
  {
    var stepped := Step(c, s, input, config, turn, step);
    if !IsCancelled(c, s.now) {
      var request := Compile(input, config, Materialized(s.log).value);
      AttemptsKeepLog(c, s.Tick(), input, turn, step, request, 0);
      var attempts := Attempts(c, s.Tick(), input, turn, step, request, 0);
      AttemptsNeverBlameHistory(c, s.Tick(), input, turn, step, request, 0);
      if attempts.1.Got? {
        ActFacts(c, attempts.0, input, config, turn, step, attempts.1.response, attempts.1.action, attempts.1.llmCallId, stepped);
        ActNeverBlamesHistory(c, attempts.0, input, config, turn, step, attempts.1.response, attempts.1.action, attempts.1.llmCallId);
      }
    }
  }

  lemma ActFacts(c: Context, s: Run, input: TurnInput, config: CallConfig, turn: nat, step: nat, response: ModelResponse,
                 action: ResponseAction, llmCallId: Id, acted: (Run, StepResult))
    requires Closed(s.log) && LastAtMost(s.log, turn) && Classified(response) == Ok(action)
    requires acted == Act(c, s, input, config, turn, step, response, action, llmCallId)
    ensures Extends(s, acted.0, turn) && Healthy(acted.0.log)
    ensures acted.1.Continue? || AllAppends(c) ==> Closed(acted.0.log)
  {
    var f := ActAdds(c, s, input, config, turn, step, response, action, llmCallId);
    ActedFacts(s, response, action, turn, f, acted);
  }

  lemma ActedFacts(s: Run, response: ModelResponse, action: ResponseAction, turn: nat, f: Footprint, acted: (Run, StepResult))
    requires Closed(s.log) && Classified(response) == Ok(action)
    requires Adds(s, acted.0, turn, FootprintBodies(f)) && Leaves(f, action)
    requires StepLossless(acted.1) ==> LeavesAll(f, action)
    ensures Extends(s, acted.0, turn) && Healthy(acted.0.log)
    ensures StepLossless(acted.1) ==> Closed(acted.0.log)
  {
    ActionIsUsable(response, action);
    AddedFootprint(s, acted.0, turn, f, action);
  }

  lemma {:induction false} AttemptsNeverBlameHistory(c: Context, s: Run, input: TurnInput, turn: nat, step: nat,
                                                    request: ModelRequest, attempt: nat)
    requires attempt <= input.policy.maxLlmRetries + 1
    ensures var r := Attempts(c, s, input, turn, step, request, attempt).1;
            r.GaveUp? ==>
              && !RefusedAtStart(Err(r.error)) && !r.error.CommitFailed? && !r.error.RoundAborted? && !r.error.StepsExhausted?
              && (attempt <= input.policy.maxLlmRetries ==> !r.error.NoResponse?)
    decreases input.policy.maxLlmRetries + 1 - attempt
  {
    if attempt <= input.policy.maxLlmRetries {
      var attempted := Attempt(c, s, input, turn, step, request, attempt);
      if attempted.1.None? {
        AttemptsNeverBlameHistory(c, attempted.0, input, turn, step, request, attempt + 1);
      }
    }
  }

  lemma {:induction false} RoundError(c: Context, s: Run, turn: nat, calls: seq<ToolCall>, k: nat)
    requires k <= |calls|
    ensures var r := ToolRoundFrom(c, s, turn, calls, k).1; r.Some? ==> r.value.RoundAborted?
    decreases |calls| - k
  {
    if k < |calls| {
      var executed := ExecuteCall(c, s, calls[k]);
      RoundError(c, Emit(c, executed.0, ToolResultRecorded(turn, executed.1.result)).0, turn, calls, k + 1);
    }
  }

  lemma ActNeverBlamesHistory(c: Context, s: Run, input: TurnInput, config: CallConfig, turn: nat, step: nat,
                              response: ModelResponse, action: ResponseAction, llmCallId: Id)
    ensures var r := Act(c, s, input, config, turn, step, response, action, llmCallId).1;
            && (r.Stop? && r.outcome.Err? ==>
                  r.outcome.error.CommitFailed? || r.outcome.error.RoundAborted? || r.outcome.error.StepsExhausted?)
            && (r.Continue? ==> step + 1 != input.policy.maxSteps)
  {
    if action.ToolRound? {
      var finalized := Emit(c, s, AssistantFinalized(turn, llmCallId, action.assistantBlocks));
      var recorded := RecordCalls(c, finalized.0, turn, action.calls, 0);
      RoundError(c, recorded.0, turn, action.calls, 0);
    }
  }

  lemma {:induction false} StepsFacts(c: Context, s: Run, input: TurnInput, config: CallConfig, turn: nat, step: nat)
    requires step <= input.policy.maxSteps
    requires Closed(s.log) && LastAtMost(s.log, turn)
    ensures var end := Steps(c, s, input, config, turn, step);
            && Extends(s, end.0, turn)
            && Healthy(end.0.log)
            && (AllAppends(c) ==> Closed(end.0.log))
            && !RefusedAtStart(end.1)
    decreases input.policy.maxSteps - step
  {
    if step < input.policy.maxSteps {
      StepFacts(c, s, input, config, turn, step);
      var stepped := Step(c, s, input, config, turn, step);
      if stepped.1.Continue? {
        StepsFacts(c, stepped.0, input, stepped.1.config, turn, step + 1);
        ExtendsThen(s, stepped.0, Steps(c, s, input, config, turn, step).0, turn);
      }
    }
  }

  lemma PromptKeepsClosed(c: Context, s: Run, turn: nat, text: string)
    requires Closed(s.log) && LastAtMost(s.log, turn) && text != ""
    ensures var prompted := Emit(c, s, UserPromptCommitted(turn, text));
            && Extends(s, prompted.0, turn)
            && Closed(prompted.0.log)
  {
    EmitAdds(c, s, UserPromptCommitted(turn, text));
    ScanSnoc(START, Bodies(s.log), UserMessage(text));
    assert Bodies(s.log) + [] == Bodies(s.log);
  }

  lemma PreflightTurn(c: Context, s: Run, input: TurnInput)
    requires Preflight(c, s, input).Ok?
    ensures Closed(s.log) && LastAtMost(s.log, Preflight(c, s, input).value) && input.text != ""
    ensures NextTurn(s.log) == Some(Preflight(c, s, input).value)
    ensures ValidPolicy(input.policy)
  {
  }

  /** From a log that materializes, every exit of a turn leaves a healthy log, whatever appends fail. */
  lemma TurnKeepsLogHealthy(c: Context, s: Run, input: TurnInput)
    requires Closed(s.log)
    ensures var end := Turn(c, s, input);
            && Healthy(end.0.log)
            && (NextTurn(s.log).Some? ==> Extends(s, end.0, NextTurn(s.log).value))
            && (NextTurn(s.log).None? ==> end.0.log == s.log)
            && (AllAppends(c) ==> Closed(end.0.log))
  {
    var preflight := Preflight(c, s, input);
    if preflight.Ok? {
      PreflightTurn(c, s, input);
      var turn := preflight.value;
      var s1 := s.Tick().Tick().Show(TurnStarted(turn));
      if !IsCancelled(c, s1.now) {
        PromptKeepsClosed(c, s1.Tick(), turn, input.text);
        var prompted := Emit(c, s1.Tick(), UserPromptCommitted(turn, input.text));
        if prompted.1.None? {
          StepsFacts(c, prompted.0, input, input.config, turn, 0);
          ExtendsThen(s1.Tick(), prompted.0, Turn(c, s, input).0, turn);
        }
      }
    }
  }

  /**
   * Turn closure: if no append fails, a log that materializes when a turn starts materializes on every
   * exit, so the next turn is not refused for its history.
   */
  lemma TurnClosure(c: Context, s: Run, input: TurnInput)
    requires Closed(s.log) && AllAppends(c)
    ensures Closed(Turn(c, s, input).0.log)
  {
    TurnKeepsLogHealthy(c, s, input);
  }

  /** Fault tolerance: after any failures, what is pending is exactly the recorded calls without a result. */
  lemma TurnFaultTolerance(c: Context, s: Run, input: TurnInput)
    requires Closed(s.log)
    ensures var log := Turn(c, s, input).0.log;
            && Healthy(log)
            && ScanFrom(START, Bodies(log)).value.phase.Pending().Keys == UnansweredIds(Bodies(log))
            && (Closed(log) <==> UnansweredIds(Bodies(log)) == {})
            && (Closed(log) || Materialized(log) == Err(DanglingCalls(ScanFrom(START, Bodies(log)).value.phase.Pending())))
  {
    TurnKeepsLogHealthy(c, s, input);
    var log := Turn(c, s, input).0.log;
    PendingIsUnanswered(Bodies(log));
    ClosedScan(log);
    PendingNonEmpty(Bodies(log));
  }

  /** An open phase always has something pending. */
  lemma {:induction false} PendingNonEmpty(bodies: seq<ItemBody>)
    requires ScanFrom(START, bodies).Ok?
    ensures var phase := ScanFrom(START, bodies).value.phase; phase.Idle? <==> phase.Pending() == map[]
    decreases |bodies|
  {
    if bodies != [] {
      PendingNonEmpty(bodies[..|bodies| - 1]);
      var last := bodies[|bodies| - 1];
      if last.CallItem? {
        assert last.call.toolUseId in ScanFrom(START, bodies).value.phase.Pending();
      }
    }
  }

  /** A turn on a log with pending calls is refused before anything is shown or appended. */
  lemma OpenLogRefusesTurns(c: Context, s: Run, input: TurnInput)
    requires !Closed(s.log)
    ensures var end := Turn(c, s, input);
            end.1.Err? && end.0.log == s.log && end.0.trace == s.trace
  {
  }

  /** The token is cancelled at this time. */
  predicate CancelledBy(c: Context, time: nat) {
    c.cancelAt.Some? && time >= c.cancelAt.value
  }

  predicate PolicyInRange(policy: TurnPolicy) {
    policy.maxSteps >= 1 && policy.maxLlmRetries <= 3
  }

  /** Which turns are refused, and for what. */
  lemma TurnRefusedIff(c: Context, s: Run, input: TurnInput)
    ensures var outcome := Turn(c, s, input).1;
            var asked := PolicyInRange(input.policy) && input.text != "" && !CancelledBy(c, s.now);
            && (outcome == Err(InvalidPolicy) <==> !PolicyInRange(input.policy))
            && (outcome == Err(EmptyText) <==> PolicyInRange(input.policy) && input.text == "")
            && (forall e :: outcome == Err(BadHistory(e)) <==> asked && Materialized(s.log) == Err(e))
            && (outcome == Err(TurnNumberOverflow) <==>
                  asked && Closed(s.log) && s.log != [] && s.log[|s.log| - 1].base.turn >= U64_MAX)
    ensures RefusedAtStart(Turn(c, s, input).1) ==> Turn(c, s, input).0.log == s.log && Turn(c, s, input).0.trace == s.trace
  {
    if Preflight(c, s, input).Ok? {
      TurnIsNotRefused(c, s, input);
    }
  }

  lemma TurnIsNotRefused(c: Context, s: Run, input: TurnInput)
    requires Preflight(c, s, input).Ok?
    ensures !RefusedAtStart(Turn(c, s, input).1)
  {
    PreflightTurn(c, s, input);
    var turn := Preflight(c, s, input).value;
    var s1 := s.Tick().Tick().Show(TurnStarted(turn));
    PromptKeepsClosed(c, s1.Tick(), turn, input.text);
    var prompted := Emit(c, s1.Tick(), UserPromptCommitted(turn, input.text));
    if prompted.1.None? {
      StepsFacts(c, prompted.0, input, input.config, turn, 0);
    }
  }

  /** A turn numbers its items one past the last item of the log, from 0, so past everything in a log whose turns do not decrease. */
  lemma TurnIsNumberedNext(c: Context, s: Run, input: TurnInput)
    ensures var log := Turn(c, s, input).0.log;
            && s.log <= log
            && forall i :: |s.log| <= i < |log| ==>
                 log[i].base.turn == (if s.log == [] then 0 else s.log[|s.log| - 1].base.turn + 1) && log[i].base.turn <= U64_MAX
  {
    if Closed(s.log) {
      TurnKeepsLogHealthy(c, s, input);
    } else {
      OpenLogRefusesTurns(c, s, input);
    }
  }

  // ---- Runs of turns -----------------------------------------------------

  datatype TurnRequest = TurnRequest(input: TurnInput, cancelAt: Option<nat>)

  /** Any number of turns, one after the other, each with its own cancellation token. */
  function Turns(c: Context, s: Run, requests: seq<TurnRequest>): Run {
    if requests == [] then s
    else
      var last := requests[|requests| - 1];
      Turn(c.(cancelAt := last.cancelAt), Turns(c, s, requests[..|requests| - 1]), last.input).0
  }

  /** `log` extends `start` by items of larger turns only. */
  predicate NumberedUp(start: seq<SessionItem>, log: seq<SessionItem>) {
    && start <= log
    && (start != [] ==> forall i :: |start| <= i < |log| ==> log[i].base.turn > start[|start| - 1].base.turn)
  }

  lemma NumberedUpFurther(start: seq<SessionItem>, before: seq<SessionItem>, log: seq<SessionItem>)
    requires NumberedUp(start, before) && NumberedUp(before, log)
    ensures NumberedUp(start, log)
  {
    if start != [] {
      forall i | |start| <= i < |log| ensures log[i].base.turn > start[|start| - 1].base.turn {
        if i >= |before| { assert before[|before| - 1].base.turn >= start[|start| - 1].base.turn; }
      }
    }
  }

  lemma TurnNumbersUp(c: Context, s: Run, input: TurnInput) returns (log: seq<SessionItem>)
    ensures log == Turn(c, s, input).0.log && NumberedUp(s.log, log)
  {
    log := Turn(c, s, input).0.log;
    TurnIsNumberedNext(c, s, input);
  }

  /** Everything that later turns add has a larger number than what was there. */
  lemma {:induction false} TurnsAreNumberedUp(c: Context, s: Run, requests: seq<TurnRequest>)
    ensures NumberedUp(s.log, Turns(c, s, requests).log)
    decreases |requests|
  {
    if requests != [] {
      var front, last := requests[..|requests| - 1], requests[|requests| - 1];
      TurnsAreNumberedUp(c, s, front);
      var before := Turns(c, s, front);
      var log := TurnNumbersUp(c.(cancelAt := last.cancelAt), before, last.input);
      NumberedUpFurther(s.log, before.log, log);
    }
  }

  lemma {:induction false} TurnsSplit(c: Context, s: Run, first: seq<TurnRequest>, later: seq<TurnRequest>)
    ensures Turns(c, s, first + later) == Turns(c, Turns(c, s, first), later)
    decreases |later|
  {
    if later == [] {
      assert first + later == first;
    } else {
      var front, last := later[..|later| - 1], later[|later| - 1];
      assert first + later == (first + front) + [last];
      TurnsSplit(c, s, first, front);
    }
  }

  /** The end of every turn that others follow is one: its last item may be forked at, and the next item begins a later turn. */
  lemma TurnEndsAreBoundaries(c: Context, s: Run, first: seq<TurnRequest>, later: seq<TurnRequest>)
    ensures var log, n := Turns(c, s, first + later).log, |Turns(c, s, first).log|;
            && n <= |log| && log[..n] == Turns(c, s, first).log
            && (n > 0 ==> IsTurnBoundary(log, n - 1))
            && (n < |log| ==> EndsTurn(log, n))
  {
    TurnsSplit(c, s, first, later);
    TurnsAreNumberedUp(c, Turns(c, s, first), later);
  }

  /** The first `k` items end a turn, and later items belong to later turns. */
  predicate EndsTurn(log: seq<SessionItem>, k: nat)
    requires k <= |log|
  {
    k < |log| && (k == 0 || log[k - 1].base.turn != log[k].base.turn)
  }

  /** The log is healthy, and every turn but possibly the last is closed. */
  ghost predicate HistoryClosed(log: seq<SessionItem>) {
    && Healthy(log)
    && forall k: nat | k <= |log| && EndsTurn(log, k) :: Closed(log[..k])
  }

  lemma ExtensionKeepsHistory(s: Run, s': Run, turn: nat)
    requires HistoryClosed(s.log) && Closed(s.log) && Extends(s, s', turn) && Healthy(s'.log)
    ensures HistoryClosed(s'.log)
  {
    forall k: nat | k <= |s'.log| && EndsTurn(s'.log, k) ensures Closed(s'.log[..k]) {
      if k < |s.log| {
        assert EndsTurn(s.log, k);
        assert s'.log[..k] == s.log[..k];
      } else {
        assert k == |s.log|;
        assert s'.log[..k] == s.log;
      }
    }
  }

  lemma TurnKeepsHistory(c: Context, s: Run, input: TurnInput)
    requires HistoryClosed(s.log)
    ensures HistoryClosed(Turn(c, s, input).0.log)
  {
    if Closed(s.log) {
      TurnKeepsLogHealthy(c, s, input);
      if NextTurn(s.log).Some? {
        ExtensionKeepsHistory(s, Turn(c, s, input).0, NextTurn(s.log).value);
      }
    } else {
      OpenLogRefusesTurns(c, s, input);
    }
  }

  /** Closed history: after any turns with any failing appends, every turn before the last is closed. */
  lemma {:induction false} TurnsKeepHistory(c: Context, s: Run, requests: seq<TurnRequest>)
    requires HistoryClosed(s.log)
    ensures HistoryClosed(Turns(c, s, requests).log)
    decreases |requests|
  {
    if requests != [] {
      var front := requests[..|requests| - 1];
      var last := requests[|requests| - 1];
      TurnsKeepHistory(c, s, front);
      TurnKeepsHistory(c.(cancelAt := last.cancelAt), Turns(c, s, front), last.input);
    }
  }

  /** Once calls are left pending, all further turns leave the log and the observers alone. */
  lemma {:induction false} OpenLogStaysOpen(c: Context, s: Run, requests: seq<TurnRequest>)
    requires !Closed(s.log)
    ensures Turns(c, s, requests).log == s.log && Turns(c, s, requests).trace == s.trace
    decreases |requests|
  {
    if requests != [] {
      var front := requests[..|requests| - 1];
      var last := requests[|requests| - 1];
      OpenLogStaysOpen(c, s, front);
      OpenLogRefusesTurns(c.(cancelAt := last.cancelAt), Turns(c, s, front), last.input);
    }
  }

  /** A fork at an accepted boundary again has every turn but possibly its last one closed, so turns can go on in it. */
  lemma ForkKeepsHistory(log: seq<SessionItem>, boundary: nat, child: Id)
    requires HistoryClosed(log) && boundary < |log| && IsTurnBoundary(log, boundary)
    ensures HistoryClosed(ForkedItems(log, boundary + 1, child))
  {
    var fork := ForkedItems(log, boundary + 1, child);
    PrefixIsHealthy(log, boundary + 1);
    assert Bodies(fork) == Bodies(log[..boundary + 1]);
    forall k: nat | k <= |fork| && EndsTurn(fork, k) ensures Closed(fork[..k]) {
      assert EndsTurn(log, k);
      assert Bodies(fork[..k]) == Bodies(log[..k]);
    }
  }

  lemma PrefixIsHealthy(log: seq<SessionItem>, n: nat)
    requires Healthy(log) && n <= |log|
    ensures Healthy(log[..n])
  {
    assert log == log[..n] + log[n..];
    BodiesAppend(log[..n], log[n..]);
    ScanAppend(START, Bodies(log[..n]), Bodies(log[n..]));
  }

  /** A new session starts that way, so every session and every fork of one stays that way. */
  lemma NewSessionsKeepHistory(c: Context, s: Run, requests: seq<TurnRequest>)
    requires s.log == []
    ensures HistoryClosed(Turns(c, s, requests).log)
  {
    assert Bodies(s.log) == [] && ScanFrom(START, []) == Ok(START);
    TurnsKeepHistory(c, s, requests);
  }

  /**
   * A fork at an accepted boundary materializes to the parent's messages for that prefix,
   * unless the boundary ends the last turn and that turn was left open.
   */
  lemma ForkMaterializes(log: seq<SessionItem>, parent: Id, boundary: nat, child: Id)
    requires HistoryClosed(log) && WellFormedLog(log, parent)
    requires boundary < |log| && IsTurnBoundary(log, boundary)
    ensures Closed(ForkedItems(log, boundary + 1, child)) <==> boundary + 1 < |log| || Closed(log)
    ensures Materialized(ForkedItems(log, boundary + 1, child)) == Materialized(log[..boundary + 1])
  {
    ForkWellFormed(log, boundary + 1, parent, child);
    if boundary + 1 < |log| {
      assert EndsTurn(log, boundary + 1);
    } else {
      assert log[..boundary + 1] == log;
    }
  }
}
