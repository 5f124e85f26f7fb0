/** What the turn protocol guarantees about calls and executions, read off any trace that follows it. */
module TurnGuarantees {
  import opened Protocol
  import opened Tools
  import opened SessionTypes
  import opened SessionStores
  import opened Materialize
  import opened ResponseBuilder
  import opened ResponseActions
  import opened ToolRuntimes
  import opened TurnEvents
  import opened TurnSpec
  import opened LogGrammar
  import opened TurnLog
  import opened TurnLedger
  import opened TurnProtocol

  lemma {:induction false} WatchedPrefix(outside: Outside, trace: seq<Observation>, i: nat)
    requires i <= |trace| && Watched(outside, trace).Some?
    ensures Watched(outside, trace[..i]).Some?
    ensures i < |trace| ==> After(outside, Watched(outside, trace[..i]).value, trace[i]).Some?
    decreases |trace|
  {
    if i == |trace| {
      assert trace[..i] == trace;
    } else {
      var front := trace[..|trace| - 1];
      WatchedPrefix(outside, front, i);
      assert front[..i] == trace[..i];
    }
  }

  // ---- Call bracketing ---------------------------------------------------

  datatype Bracket = Opened(llmCallId: Id) | Ended(llmCallId: Id)

  function BracketOf(o: Observation): seq<Bracket> {
    if o.Emitted? && o.event.LlmCallStarted? then [Opened(o.event.llmCallId)]
    else if o.Emitted? && o.event.LlmCallEnded? then [Ended(o.event.llmCallId)]
    else []
  }

  function Brackets(trace: seq<Observation>): seq<Bracket> {
    if trace == [] then [] else Brackets(trace[..|trace| - 1]) + BracketOf(trace[|trace| - 1])
  }

  /** Starts and ends alternate, and each end carries the id of the start before it. */
  predicate Alternating(brackets: seq<Bracket>) {
    forall i :: 0 <= i < |brackets| ==> AlternatesAt(brackets, i)
  }

  predicate AlternatesAt(brackets: seq<Bracket>, i: nat)
    requires i < |brackets|
  {
    if i % 2 == 0 then brackets[i].Opened? else brackets[i] == Ended(brackets[i - 1].llmCallId)
  }

  /** Brackets alternate, and the last one is open exactly during a call, with the call's id. */
  predicate Bracketed(brackets: seq<Bracket>, w: Watch) {
    && Alternating(brackets)
    && (w.InCall() <==> |brackets| % 2 == 1)
    && (w.InCall() ==> brackets[|brackets| - 1] == Opened(w.llmCallId))
  }

  lemma BracketStep(outside: Outside, w: Watch, o: Observation, brackets: seq<Bracket>)
    requires Bracketed(brackets, w) && After(outside, w, o).Some?
    ensures Bracketed(brackets + BracketOf(o), After(outside, w, o).value)
  {
    if BracketOf(o) == [] {
      assert brackets + BracketOf(o) == brackets;
      NoBracketKeepsCall(outside, w, o);
    } else {
      AlternatingSnoc(brackets, BracketOf(o)[0]);
    }
  }

  lemma NoBracketKeepsCall(outside: Outside, w: Watch, o: Observation)
    requires After(outside, w, o).Some? && BracketOf(o) == []
    ensures var w' := After(outside, w, o).value; (w'.InCall() <==> w.InCall()) && (w.InCall() ==> w'.llmCallId == w.llmCallId)
  {
  }

  lemma {:induction false} CallsAreBracketed(outside: Outside, trace: seq<Observation>)
    requires Watched(outside, trace).Some?
    ensures Bracketed(Brackets(trace), Watched(outside, trace).value)
    decreases |trace|
  {
    if trace != [] {
      var front := trace[..|trace| - 1];
      CallsAreBracketed(outside, front);
      BracketStep(outside, Watched(outside, front).value, trace[|trace| - 1], Brackets(front));
    }
  }

  lemma AlternatingSnoc(brackets: seq<Bracket>, last: Bracket)
    requires Alternating(brackets)
    requires if last.Opened? then |brackets| % 2 == 0
             else |brackets| % 2 == 1 && brackets[|brackets| - 1] == Opened(last.llmCallId)
    ensures Alternating(brackets + [last])
  {
    var all := brackets + [last];
    forall i | 0 <= i < |all| ensures AlternatesAt(all, i) {
      assert i < |brackets| ==> AlternatesAt(brackets, i);
    }
  }

  /** After any turn every started call has ended, once, before the next started. */
  lemma TurnClosesItsCalls(c: Context, s: Run, input: TurnInput)
    requires Orderly(c, s)
    ensures var brackets := Brackets(Turn(c, s, input).0.trace); Alternating(brackets) && |brackets| % 2 == 0
  {
    TurnFollowsProtocol(c, s, input);
    CallsAreBracketed(OutsideOf(c), Turn(c, s, input).0.trace);
  }

  /** A snapshot is shown only between the start and the end of its own call. */
  lemma UpdatesStayInTheirCall(outside: Outside, trace: seq<Observation>, i: nat)
    requires i < |trace| && Watched(outside, trace).Some?
    requires trace[i].Emitted? && trace[i].event.MessageUpdate?
    ensures var brackets := Brackets(trace[..i]);
            brackets != [] && brackets[|brackets| - 1] == Opened(trace[i].event.llmCallId)
  {
    WatchedPrefix(outside, trace, i);
    CallsAreBracketed(outside, trace[..i]);
    UpdateNeedsItsCall(outside, Watched(outside, trace[..i]).value, trace[i]);
  }

  lemma UpdateNeedsItsCall(outside: Outside, w: Watch, o: Observation)
    requires After(outside, w, o).Some? && o.Emitted? && o.event.MessageUpdate?
    ensures w.InCall() && w.llmCallId == o.event.llmCallId
  {
  }

  // ---- Attempt bound -----------------------------------------------------

  predicate IsStart(o: Observation) {
    o.Emitted? && o.event.LlmCallStarted?
  }

  function StartPositions(trace: seq<Observation>): set<nat> {
    set i | 0 <= i < |trace| && IsStart(trace[i])
  }

  function CallsStarted(trace: seq<Observation>): nat {
    |StartPositions(trace)|
  }

  lemma StartedSnoc(trace: seq<Observation>, o: Observation)
    ensures CallsStarted(trace + [o]) == CallsStarted(trace) + if IsStart(o) then 1 else 0
  {
    var here := if IsStart(o) then {|trace|} else {};
    assert StartPositions(trace + [o]) == StartPositions(trace) + here;
  }

  lemma EmitStarts(c: Context, s: Run, event: TurnEvent)
    ensures CallsStarted(Emit(c, s, event).0.trace) <=
            CallsStarted(s.trace) + if event.LlmCallStarted? then 1 else 0
  {
    StartedSnoc(s.trace, Emitted(event));
  }

  lemma EndOfStreamStarts(c: Context, s: Run, b: BuilderState, llmCallId: Id, delay: nat)
    ensures CallsStarted(EndOfStream(c, s, b, llmCallId, delay).0.trace) == CallsStarted(s.trace)
  {
    if FinishOf(b).Ok? { StartedSnoc(s.trace, Responded(llmCallId, FinishOf(b).value)); }
  }

  /** The next item either ends the call without a word, or is taken and its snapshot shown. */
  lemma NextItem(c: Context, s: Run, b: BuilderState, turn: nat, step: nat, llmCallId: Id, stream: ModelStream, i: nat)
    returns (taken: bool, s1: Run, b': BuilderState)
    requires i < |stream.items|
    ensures var call := ModelCall(c, s, b, turn, step, llmCallId, stream, i);
            if taken then
              && s1.trace == s.trace + [Emitted(MessageUpdate(turn, step, llmCallId, SnapshotOf(b')))]
              && call == ModelCall(c, s1, b', turn, step, llmCallId, stream, i + 1)
            else call.0.trace == s.trace
  {
    var next := stream.items[i];
    taken, s1, b' := false, s, b;
    if !Interrupted(c, s.now, next.delay) && next.item.Ok? && Applied(b, next.item.value).1.None? {
      taken, b' := true, Applied(b, next.item.value).0;
      s1 := s.Wait(next.delay).Show(MessageUpdate(turn, step, llmCallId, SnapshotOf(b')));
    }
  }

  lemma {:induction false} ModelCallStarts(c: Context, s: Run, b: BuilderState, turn: nat, step: nat, llmCallId: Id,
                                           stream: ModelStream, i: nat, call: (Run, Result<ModelResponse, LlmError>))
    requires i <= |stream.items| && call == ModelCall(c, s, b, turn, step, llmCallId, stream, i)
    ensures CallsStarted(call.0.trace) == CallsStarted(s.trace)
    decreases |stream.items| - i
  {
    if i == |stream.items| {
      EndOfStreamStarts(c, s, b, llmCallId, stream.endDelay);
    } else {
      var taken, s1, b' := NextItem(c, s, b, turn, step, llmCallId, stream, i);
      if taken {
        StartedSnoc(s.trace, Emitted(MessageUpdate(turn, step, llmCallId, SnapshotOf(b'))));
        ModelCallStarts(c, s1, b', turn, step, llmCallId, stream, i + 1, call);
      }
    }
  }

  lemma AttemptStarts(c: Context, s: Run, input: TurnInput, turn: nat, step: nat, request: ModelRequest, attempt: nat)
    ensures CallsStarted(Attempt(c, s, input, turn, step, request, attempt).0.trace) <= CallsStarted(s.trace) + 1
  {
    if !IsCancelled(c, s.now) {
      var id := s.now;
      var s0 := s.Tick().Show(LlmCallStarted(turn, step, id));
      StartedSnoc(s.trace, Emitted(LlmCallStarted(turn, step, id)));
      StartedSnoc(s0.trace, Requested(id, request));
      var s1 := s0.Observe(Requested(id, request));
      var call := ModelCall(c, s1, NewState(input.config.model), turn, step, id, c.world.stream(s1.now), 0);
      ModelCallStarts(c, s1, NewState(input.config.model), turn, step, id, c.world.stream(s1.now), 0, call);
      SettleStarts(c, call.0, input, turn, step, id, call.1, attempt);
    }
  }

  lemma SettleStarts(c: Context, s: Run, input: TurnInput, turn: nat, step: nat, llmCallId: Id,
                     result: Result<ModelResponse, LlmError>, attempt: nat)
    ensures CallsStarted(Settle(c, s, input, turn, step, llmCallId, result, attempt).0.trace) == CallsStarted(s.trace)
  {
    match result
    case Ok(response) =>
      StartedSnoc(s.trace, Emitted(LlmCallEnded(turn, step, llmCallId, CallFailed(UnusableResponse))));
      StartedSnoc(s.trace, Emitted(LlmCallEnded(turn, step, llmCallId, CallSucceeded(response.stopReason, response.usage))));
    case Err(error) =>
      StartedSnoc(s.trace, Emitted(LlmCallEnded(turn, step, llmCallId, FailureOutcome(error))));
  }

  lemma {:induction false} AttemptsStart(c: Context, s: Run, input: TurnInput, turn: nat, step: nat, request: ModelRequest, attempt: nat)
    requires attempt <= input.policy.maxLlmRetries + 1
    ensures CallsStarted(Attempts(c, s, input, turn, step, request, attempt).0.trace) <=
            CallsStarted(s.trace) + (input.policy.maxLlmRetries + 1 - attempt)
    decreases input.policy.maxLlmRetries + 1 - attempt
  {
    if attempt <= input.policy.maxLlmRetries {
      AttemptStarts(c, s, input, turn, step, request, attempt);
      var attempted := Attempt(c, s, input, turn, step, request, attempt);
      if attempted.1.None? {
        AttemptsStart(c, attempted.0, input, turn, step, request, attempt + 1);
      }
    }
  }

  lemma ExecuteStarts(c: Context, s: Run, call: ToolCall)
    ensures CallsStarted(Execute(c, s, call).0.trace) == CallsStarted(s.trace)
  {
    StartedSnoc(s.trace, ExecutionStarted(call, false, |s.log|, s.now + 1));
  }

  lemma ExecuteCallStarts(c: Context, s: Run, call: ToolCall)
    ensures CallsStarted(ExecuteCall(c, s, call).0.trace) == CallsStarted(s.trace)
  {
    var s1 := s.Tick();
    ExecuteStarts(c, s1, call);
    var given := ApprovalGiven(call, c.world.approval(s1.now), s1.now);
    StartedSnoc(s.trace, given);
    ExecuteStarts(c, s1.Wait(c.world.delay(s1.now)).Observe(given), call);
  }

  lemma {:induction false} CloseRemainingStarts(c: Context, s: Run, turn: nat, calls: seq<ToolCall>, k: nat, errors: seq<CommitError>)
    requires k <= |calls|
    ensures CallsStarted(CloseRemaining(c, s, turn, calls, k, errors).0.trace) <= CallsStarted(s.trace)
    decreases |calls| - k
  {
    if k < |calls| {
      var event := ToolResultRecorded(turn, ParentCancelled(calls[k]));
      EmitStarts(c, s, event);
      var emitted := Emit(c, s, event);
      CloseRemainingStarts(c, emitted.0, turn, calls, k + 1, if emitted.1.Some? then errors + [emitted.1.value] else errors);
    }
  }

  lemma {:induction false} ToolRoundStarts(c: Context, s: Run, turn: nat, calls: seq<ToolCall>, k: nat)
    requires k <= |calls|
    ensures CallsStarted(ToolRoundFrom(c, s, turn, calls, k).0.trace) <= CallsStarted(s.trace)
    decreases |calls| - k
  {
    if k < |calls| {
      ExecuteCallStarts(c, s, calls[k]);
      var executed := ExecuteCall(c, s, calls[k]);
      EmitStarts(c, executed.0, ToolResultRecorded(turn, executed.1.result));
      var emitted := Emit(c, executed.0, ToolResultRecorded(turn, executed.1.result));
      CloseRemainingStarts(c, emitted.0, turn, calls, k + 1, []);
      ToolRoundStarts(c, emitted.0, turn, calls, k + 1);
    }
  }

  lemma {:induction false} RecordCallsStarts(c: Context, s: Run, turn: nat, calls: seq<ToolCall>, k: nat)
    requires k <= |calls|
    ensures CallsStarted(RecordCalls(c, s, turn, calls, k).0.trace) <= CallsStarted(s.trace)
    decreases |calls| - k
  {
    if k < |calls| {
      EmitStarts(c, s, ToolCallRecorded(turn, calls[k]));
      RecordCallsStarts(c, Emit(c, s, ToolCallRecorded(turn, calls[k])).0, turn, calls, k + 1);
    }
  }

  lemma ActStarts(c: Context, s: Run, input: TurnInput, config: CallConfig, turn: nat, step: nat,
                  response: ModelResponse, action: ResponseAction, llmCallId: Id)
    ensures CallsStarted(Act(c, s, input, config, turn, step, response, action, llmCallId).0.trace) <= CallsStarted(s.trace)
  {
    var event := AssistantFinalized(turn, llmCallId, action.assistantBlocks);
    EmitStarts(c, s, event);
    var finalized := Emit(c, s, event);
    StartedSnoc(finalized.0.trace, Emitted(TurnEnded(turn)));
    if action.ToolRound? {
      RecordCallsStarts(c, finalized.0, turn, action.calls, 0);
      var recorded := RecordCalls(c, finalized.0, turn, action.calls, 0);
      ToolRoundStarts(c, recorded.0, turn, action.calls, 0);
      StartedSnoc(ToolRoundFrom(c, recorded.0, turn, action.calls, 0).0.trace, Emitted(TurnEnded(turn)));
    }
  }

  lemma StepStarts(c: Context, s: Run, input: TurnInput, config: CallConfig, turn: nat, step: nat)
    ensures CallsStarted(Step(c, s, input, config, turn, step).0.trace) <=
            CallsStarted(s.trace) + input.policy.maxLlmRetries + 1
  {
    if !IsCancelled(c, s.now) && Materialized(s.log).Ok? {
      var request := Compile(input, config, Materialized(s.log).value);
      AttemptsStart(c, s.Tick(), input, turn, step, request, 0);
      var attempts := Attempts(c, s.Tick(), input, turn, step, request, 0);
      if attempts.1.Got? {
        ActStarts(c, attempts.0, input, config, turn, step, attempts.1.response, attempts.1.action, attempts.1.llmCallId);
      }
    }
  }

  /** The model calls that the steps from `step` on may make. */
  function Budget(policy: TurnPolicy, step: nat): nat
    requires step <= policy.maxSteps
    decreases policy.maxSteps - step
  {
    if step == policy.maxSteps then 0 else policy.maxLlmRetries + 1 + Budget(policy, step + 1)
  }

  lemma {:induction false} BudgetProduct(policy: TurnPolicy, step: nat)
    requires step <= policy.maxSteps
    ensures Budget(policy, step) == (policy.maxSteps - step) * (policy.maxLlmRetries + 1)
    decreases policy.maxSteps - step
  {
    if step < policy.maxSteps {
      BudgetProduct(policy, step + 1);
    }
  }

  lemma {:induction false} StepsStart(c: Context, s: Run, input: TurnInput, config: CallConfig, turn: nat, step: nat)
    requires step <= input.policy.maxSteps
    ensures CallsStarted(Steps(c, s, input, config, turn, step).0.trace) <= CallsStarted(s.trace) + Budget(input.policy, step)
    decreases input.policy.maxSteps - step
  {
    if step < input.policy.maxSteps {
      StepStarts(c, s, input, config, turn, step);
      var stepped := Step(c, s, input, config, turn, step);
      if stepped.1.Continue? {
        StepsStart(c, stepped.0, input, stepped.1.config, turn, step + 1);
      }
    }
  }

  /** A turn makes at most `maxSteps` times `maxLlmRetries + 1` model calls, and at most four per step. */
  lemma TurnBoundsModelCalls(c: Context, s: Run, input: TurnInput)
    ensures CallsStarted(Turn(c, s, input).0.trace) <=
            CallsStarted(s.trace) + input.policy.maxSteps * (input.policy.maxLlmRetries + 1)
    ensures CallsStarted(Turn(c, s, input).0.trace) <= CallsStarted(s.trace) + input.policy.maxSteps * 4
  {
    var n, m := input.policy.maxSteps, input.policy.maxLlmRetries + 1;
    BudgetProduct(input.policy, 0);
    if Preflight(c, s, input).Ok? {
      PreflightTurn(c, s, input);
      assert n * m <= n * 4;
      var turn := Preflight(c, s, input).value;
      var s1 := s.Tick().Tick().Show(TurnStarted(turn));
      StartedSnoc(s.trace, Emitted(TurnStarted(turn)));
      if !IsCancelled(c, s1.now) {
        EmitStarts(c, s1.Tick(), UserPromptCommitted(turn, input.text));
        var prompted := Emit(c, s1.Tick(), UserPromptCommitted(turn, input.text));
        StepsStart(c, prompted.0, input, input.config, turn, 0);
      }
    }
  }

  /** A turn never ends for want of a response or of a terminal response, nor finds its own history unusable. */
  lemma TurnNeverRunsDry(c: Context, s: Run, input: TurnInput)
    ensures var outcome := Turn(c, s, input).1;
            outcome.Err? ==> !outcome.error.NoResponse? && !outcome.error.NoTerminalResponse?
    ensures Closed(s.log) ==> !(Turn(c, s, input).1.Err? && Turn(c, s, input).1.error.BadHistory?)
  {
    if Preflight(c, s, input).Ok? {
      PreflightTurn(c, s, input);
      var turn := Preflight(c, s, input).value;
      var s1 := s.Tick().Tick().Show(TurnStarted(turn));
      if !IsCancelled(c, s1.now) {
        PromptKeepsClosed(c, s1.Tick(), turn, input.text);
        var prompted := Emit(c, s1.Tick(), UserPromptCommitted(turn, input.text));
        if prompted.1.None? {
          StepsFacts(c, prompted.0, input, input.config, turn, 0);
          StepsNeverRunDry(c, prompted.0, input, input.config, turn, 0);
        }
      }
    }
  }

  lemma {:induction false} StepsNeverRunDry(c: Context, s: Run, input: TurnInput, config: CallConfig, turn: nat, step: nat)
    requires step < input.policy.maxSteps
    ensures var outcome := Steps(c, s, input, config, turn, step).1;
            outcome.Err? ==> !outcome.error.NoResponse? && !outcome.error.NoTerminalResponse?
    decreases input.policy.maxSteps - step
  {
    var stepped := Step(c, s, input, config, turn, step);
    if !IsCancelled(c, s.now) && Materialized(s.log).Ok? {
      var request := Compile(input, config, Materialized(s.log).value);
      AttemptsNeverBlameHistory(c, s.Tick(), input, turn, step, request, 0);
      var attempts := Attempts(c, s.Tick(), input, turn, step, request, 0);
      AttemptsGiveUp(c, s.Tick(), input, turn, step, request, 0);
      if attempts.1.Got? {
        ActNeverBlamesHistory(c, attempts.0, input, config, turn, step, attempts.1.response, attempts.1.action, attempts.1.llmCallId);
      }
    }
    if stepped.1.Continue? {
      StepsNeverRunDry(c, stepped.0, input, stepped.1.config, turn, step + 1);
    }
  }

  lemma {:induction false} AttemptsGiveUp(c: Context, s: Run, input: TurnInput, turn: nat, step: nat, request: ModelRequest, attempt: nat)
    requires attempt <= input.policy.maxLlmRetries + 1
    ensures var r := Attempts(c, s, input, turn, step, request, attempt).1; r.GaveUp? ==> !r.error.NoTerminalResponse?
    decreases input.policy.maxLlmRetries + 1 - attempt
  {
    if attempt <= input.policy.maxLlmRetries {
      var attempted := Attempt(c, s, input, turn, step, request, attempt);
      if attempted.1.None? {
        AttemptsGiveUp(c, attempted.0, input, turn, step, request, attempt + 1);
      }
    }
  }

  // ---- Execution discipline ----------------------------------------------

  /** The call was asked about after position `r`, and this was the answer. */
  predicate AnsweredSince(trace: seq<Observation>, r: nat, call: ToolCall, answer: ApprovalAnswer) {
    exists j :: r < j < |trace| && trace[j].ApprovalGiven? && trace[j].call == call && trace[j].answer == answer
  }

  /** The executor of the call was started after position `r`, at this time. */
  predicate StartedSince(trace: seq<Observation>, r: nat, call: ToolCall, time: nat) {
    exists j :: r < j < |trace| && trace[j].ExecutionStarted? && trace[j].call == call && trace[j].started == time
  }

  /** The response at `r` is the latest one. */
  predicate LatestResponse(trace: seq<Observation>, r: nat) {
    r < |trace| && trace[r].Responded? && forall j :: r < j < |trace| ==> !trace[j].Responded?
  }

  /** Since `r` only the first `x` of the calls have been started. */
  predicate StartedOnly(trace: seq<Observation>, r: nat, calls: seq<ToolCall>, x: nat)
    requires x <= |calls|
  {
    forall j :: r < j < |trace| && trace[j].ExecutionStarted? ==> trace[j].call in calls[..x]
  }

  /** How far a response has got: whether its text is recorded, how many calls, which results, and what was started. */
  datatype Progress = Progress(marked: bool, recorded: nat, results: seq<ToolResult>, started: nat)

  const NOTHING_DONE := Progress(false, 0, [], 0)

  predicate FitsCalls(progress: Progress, calls: seq<ToolCall>) {
    && progress.recorded <= |calls| && |progress.results| <= |calls| && progress.started <= |calls|
    && AnswersAll(progress.results, calls[..|progress.results|], 0)
  }

  /** The items of a response that has got this far. */
  function RoundItems(response: ModelResponse, progress: Progress): seq<ItemBody>
    requires FitsCalls(progress, CallsOf(response.content))
  {
    (if progress.marked then Marker(PlainOf(response.content)) else []) +
    CallBodies(CallsOf(response.content)[..progress.recorded]) + ResultBodies(progress.results)
  }

  /** The current response came at `r`, and what has been committed since is what its progress says. */
  predicate Story(trace: seq<Observation>, r: nat, response: ModelResponse, progress: Progress) {
    && LatestResponse(trace, r) && trace[r].response == response
    && FitsCalls(progress, CallsOf(response.content))
    && Committed(trace) == Committed(trace[..r]) + RoundItems(response, progress)
    && StartedOnly(trace, r, CallsOf(response.content), progress.started)
  }

  ghost predicate Explains(trace: seq<Observation>, w: Watch, r: nat, progress: Progress) {
    match w
    case Quiet => true
    case Calling(_, _, _) => true
    case Closing(_) => true
    case Answering(_, _, _, response) => progress == NOTHING_DONE && Story(trace, r, response, progress)
    case Finalizing(_, response) => UsableResponse(response) && progress == NOTHING_DONE && Story(trace, r, response, progress)
    case Recording(response, n) => UsableResponse(response) && progress == Progress(true, n, [], 0) && Story(trace, r, response, progress)
    case Executing(response, k, answer, started) =>
      var calls := CallsOf(response.content);
      && UsableResponse(response) && k < |calls|
      && progress == Progress(true, |calls|, progress.results, if started.Some? then k + 1 else k) && |progress.results| == k
      && Story(trace, r, response, progress)
      && (answer.Some? ==> AnsweredSince(trace, r, calls[k], answer.value))
      && (started.Some? ==> StartedSince(trace, r, calls[k], started.value))
  }

  lemma SinceSnoc(trace: seq<Observation>, o: Observation, r: nat, call: ToolCall)
    ensures forall answer :: AnsweredSince(trace, r, call, answer) ==> AnsweredSince(trace + [o], r, call, answer)
    ensures forall time :: StartedSince(trace, r, call, time) ==> StartedSince(trace + [o], r, call, time)
    ensures r < |trace| && o.ApprovalGiven? && o.call == call ==> AnsweredSince(trace + [o], r, call, o.answer)
    ensures r < |trace| && o.ExecutionStarted? && o.call == call ==> StartedSince(trace + [o], r, call, o.started)
  {
    var all := trace + [o];
    assert all[|trace|] == o;
    forall answer | AnsweredSince(trace, r, call, answer) ensures AnsweredSince(all, r, call, answer) {
      var j :| r < j < |trace| && trace[j].ApprovalGiven? && trace[j].call == call && trace[j].answer == answer;
      assert all[j] == trace[j];
    }
    forall time | StartedSince(trace, r, call, time) ensures StartedSince(all, r, call, time) {
      var j :| r < j < |trace| && trace[j].ExecutionStarted? && trace[j].call == call && trace[j].started == time;
      assert all[j] == trace[j];
    }
  }

  lemma StartedSnocOnly(trace: seq<Observation>, o: Observation, r: nat, calls: seq<ToolCall>, x: nat, x': nat)
    requires x <= x' <= |calls| && StartedOnly(trace, r, calls, x)
    requires o.ExecutionStarted? ==> x < x' && o.call == calls[x]
    ensures StartedOnly(trace + [o], r, calls, x')
  {
    var all := trace + [o];
    forall j | r < j < |all| && all[j].ExecutionStarted? ensures all[j].call in calls[..x'] {
      if j < |trace| {
        assert trace[j].call in calls[..x];
        assert calls[..x] == calls[..x'][..x];
      } else {
        assert calls[..x'][x] == o.call;
      }
    }
  }

  /** One more observation adds to the items of the round what it shows as committed. */
  lemma StorySnoc(trace: seq<Observation>, o: Observation, r: nat, response: ModelResponse, before: Progress, after: Progress)
    requires Story(trace, r, response, before) && !o.Responded? && FitsCalls(after, CallsOf(response.content))
    requires RoundItems(response, after) == RoundItems(response, before) + CommittedOf(o)
    requires before.started <= after.started
    requires o.ExecutionStarted? ==> before.started < after.started && o.call == CallsOf(response.content)[before.started]
    ensures Story(trace + [o], r, response, after)
  {
    StartedSnocOnly(trace, o, r, CallsOf(response.content), before.started, after.started);
    CommittedSnoc(trace, o);
    Regroup(Committed(trace[..r]), RoundItems(response, before), CommittedOf(o));
    assert (trace + [o])[..r] == trace[..r];
  }

  lemma NothingRecorded(response: ModelResponse)
    ensures FitsCalls(NOTHING_DONE, CallsOf(response.content)) && RoundItems(response, NOTHING_DONE) == []
  {
    assert CallBodies([]) == [] && ResultBodies([]) == [];
  }

  lemma TextRecorded(response: ModelResponse)
    ensures FitsCalls(Progress(true, 0, [], 0), CallsOf(response.content))
    ensures RoundItems(response, Progress(true, 0, [], 0)) == Marker(PlainOf(response.content))
  {
    NoRound(Marker(PlainOf(response.content)));
  }

  lemma CallRecorded(response: ModelResponse, n: nat)
    requires n < |CallsOf(response.content)|
    ensures FitsCalls(Progress(true, n, [], 0), CallsOf(response.content))
    ensures FitsCalls(Progress(true, n + 1, [], 0), CallsOf(response.content))
    ensures RoundItems(response, Progress(true, n + 1, [], 0)) ==
            RoundItems(response, Progress(true, n, [], 0)) + [CallItem(CallsOf(response.content)[n])]
  {
    var calls := CallsOf(response.content);
    assert ResultBodies([]) == [];
    assert CallBodies(calls[..n + 1]) == CallBodies(calls[..n]) + [CallItem(calls[n])];
  }

  lemma ResultRecorded(response: ModelResponse, results: seq<ToolResult>, result: ToolResult, x: nat, x': nat)
    requires var calls := CallsOf(response.content);
             && |results| < |calls| && Answers(result, calls[|results|]) && x <= |calls| && x' <= |calls|
             && FitsCalls(Progress(true, |calls|, results, x), calls)
    ensures var calls := CallsOf(response.content);
            && FitsCalls(Progress(true, |calls|, results + [result], x'), calls)
            && RoundItems(response, Progress(true, |calls|, results + [result], x')) ==
               RoundItems(response, Progress(true, |calls|, results, x)) + [ResultItem(result)]
  {
    var calls, more := CallsOf(response.content), results + [result];
    assert ResultBodies(more) == ResultBodies(results) + [ResultItem(result)];
    forall i | 0 <= i < |more| ensures Answers(more[i], calls[..|more|][i]) {
      if i < |results| { assert Answers(results[i], calls[..|results|][i]); }
    }
  }

  lemma ResponseArrives(trace: seq<Observation>, o: Observation)
    requires o.Responded?
    ensures Story(trace + [o], |trace|, o.response, NOTHING_DONE)
  {
    NothingRecorded(o.response);
    CommittedSnoc(trace, o);
    assert (trace + [o])[..|trace|] == trace;
  }

  /** Every trace that follows the protocol has such a story, up to any of its points. */
  lemma {:induction false} TraceHasStory(outside: Outside, trace: seq<Observation>) returns (r: nat, progress: Progress)
    requires Watched(outside, trace).Some?
    ensures Explains(trace, Watched(outside, trace).value, r, progress)
    decreases |trace|
  {
    r, progress := 0, NOTHING_DONE;
    if trace != [] {
      var front := trace[..|trace| - 1];
      var o := trace[|trace| - 1];
      assert trace == front + [o];
      r, progress := TraceHasStory(outside, front);
      var w, w' := Watched(outside, front).value, Watched(outside, trace).value;
      if o.Responded? {
        r, progress := |front|, NOTHING_DONE;
        ResponseArrives(front, o);
      } else if o.Emitted? {
        progress := EventContinuesStory(outside, front, w, o.event, w', r, progress);
      } else {
        progress := ToolContinuesStory(outside, front, w, o, w', r, progress);
      }
    }
  }

  lemma ToolContinuesStory(outside: Outside, trace: seq<Observation>, w: Watch, o: Observation, w': Watch, r: nat, before: Progress)
    returns (after: Progress)
    requires Explains(trace, w, r, before) && TurnProtocol.After(outside, w, o) == Some(w')
    requires o.Requested? || o.ApprovalGiven? || o.ExecutionStarted?
    ensures Explains(trace + [o], w', r, after)
  {
    after := before;
    if w.Executing? {
      after := before.(started := if w'.started.Some? then w.k + 1 else w.k);
      SinceSnoc(trace, o, r, CallsOf(w.response.content)[w.k]);
      StorySnoc(trace, o, r, w.response, before, after);
    }
  }

  /** The text of a response is recorded. */
  lemma TextContinuesStory(outside: Outside, trace: seq<Observation>, w: Watch, event: TurnEvent, w': Watch, r: nat)
    requires w.Finalizing? && Explains(trace, w, r, NOTHING_DONE) && AfterEvent(outside, w, event) == Some(w') && w'.Recording?
    ensures Explains(trace + [Emitted(event)], w', r, Progress(true, 0, [], 0))
  {
    NothingRecorded(w.response);
    TextRecorded(w.response);
    StorySnoc(trace, Emitted(event), r, w.response, NOTHING_DONE, Progress(true, 0, [], 0));
  }

  lemma CallContinuesStory(outside: Outside, trace: seq<Observation>, w: Watch, event: TurnEvent, w': Watch, r: nat)
    requires w.Recording? && Explains(trace, w, r, Progress(true, w.n, [], 0))
    requires AfterEvent(outside, w, event) == Some(w') && event.ToolCallRecorded?
    ensures Explains(trace + [Emitted(event)], w', r, Progress(true, w.n + 1, [], 0))
  {
    CallRecorded(w.response, w.n);
    StorySnoc(trace, Emitted(event), r, w.response, Progress(true, w.n, [], 0), Progress(true, w.n + 1, [], 0));
  }

  lemma ResultContinuesStory(outside: Outside, trace: seq<Observation>, w: Watch, event: TurnEvent, w': Watch, r: nat, before: Progress)
    returns (after: Progress)
    requires w.Executing? && Explains(trace, w, r, before) && AfterEvent(outside, w, event) == Some(w') && w'.Executing?
    ensures Explains(trace + [Emitted(event)], w', r, after)
  {
    after := before.(results := before.results + [event.result], started := w.k + 1);
    ResultRecorded(w.response, before.results, event.result, before.started, w.k + 1);
    StorySnoc(trace, Emitted(event), r, w.response, before, after);
  }

  lemma CallEndContinuesStory(outside: Outside, trace: seq<Observation>, w: Watch, event: TurnEvent, w': Watch, r: nat)
    requires Explains(trace, w, r, NOTHING_DONE) && w.Answering? && AfterEvent(outside, w, event) == Some(w') && w'.Finalizing?
    ensures Explains(trace + [Emitted(event)], w', r, NOTHING_DONE)
  {
    NothingRecorded(w.response);
    StorySnoc(trace, Emitted(event), r, w.response, NOTHING_DONE, NOTHING_DONE);
  }

  /** Which events lead on within a response. */
  lemma EventsOfResponse(outside: Outside, w: Watch, event: TurnEvent, w': Watch)
    requires AfterEvent(outside, w, event) == Some(w')
    ensures !w'.Answering? && (w'.Finalizing? ==> w.Answering?)
    ensures w'.Recording? ==> w.Finalizing? || (w.Recording? && event.ToolCallRecorded?)
    ensures w'.Executing? ==> w.Executing? || (w.Recording? && event.ToolCallRecorded?)
  {
  }

  lemma EventContinuesStory(outside: Outside, trace: seq<Observation>, w: Watch, event: TurnEvent, w': Watch, r: nat, before: Progress)
    returns (after: Progress)
    requires Explains(trace, w, r, before) && AfterEvent(outside, w, event) == Some(w')
    ensures Explains(trace + [Emitted(event)], w', r, after)
  {
    after := before;
    EventsOfResponse(outside, w, event, w');
    if w'.Finalizing? {
      CallEndContinuesStory(outside, trace, w, event, w', r);
    } else if w'.Recording? && w.Finalizing? {
      after := Progress(true, 0, [], 0);
      TextContinuesStory(outside, trace, w, event, w', r);
    } else if w.Recording? && (w'.Recording? || w'.Executing?) {
      after := Progress(true, w.n + 1, [], 0);
      CallContinuesStory(outside, trace, w, event, w', r);
    } else if w'.Executing? {
      after := ResultContinuesStory(outside, trace, w, event, w', r, before);
    }
  }

  /**
   * Execution discipline on a trace: when the executor of call `k` starts, what has been committed since the latest
   * response is its text, all of its calls and the results of the calls before `k`, in this order and nothing else;
   * only calls before `k` have been started, the token is not cancelled, and the runtime knows the tool, takes the
   * input, and either allows the tool outright or asks about it and the call has been approved since.
   */
  lemma ExecutionDiscipline(outside: Outside, trace: seq<Observation>, i: nat)
    returns (r: nat, k: nat, results: seq<ToolResult>)
    requires Watched(outside, trace).Some?
    requires i < |trace| && trace[i].ExecutionStarted?
    ensures LatestResponse(trace[..i], r)
    ensures var response := trace[r].response;
            var calls := CallsOf(response.content);
            && UsableResponse(response)
            && k < |calls| && trace[i].call == calls[k] && AnswersAll(results, calls[..k], 0)
            && Committed(trace[..i]) ==
               Committed(trace[..r]) + (Marker(PlainOf(response.content)) + CallBodies(calls) + ResultBodies(results))
            && StartedOnly(trace[..i], r, calls, k)
    ensures !trace[i].tokenCancelled
    ensures var call, runtime := trace[i].call, outside.runtime;
            && call.name in runtime.registry && runtime.registry[call.name](call.input)
            && call.name in runtime.permissions
            && (|| runtime.permissions[call.name].Allow?
                || (runtime.permissions[call.name].Ask? && AnsweredSince(trace[..i], r, call, Answered(Approved))))
  {
    WatchedPrefix(outside, trace, i);
    var before := trace[..i];
    var w := Watched(outside, before).value;
    var progress;
    r, progress := TraceHasStory(outside, before);
    k, results := w.k, progress.results;
    assert before[..r] == trace[..r];
    assert CallsOf(w.response.content)[..|CallsOf(w.response.content)|] == CallsOf(w.response.content);
  }

  /** Only a tool whose permission is to ask is asked about, once per call, before it runs, and the answer is the handler's. */
  lemma ApprovalDiscipline(outside: Outside, trace: seq<Observation>, i: nat) returns (r: nat, k: nat)
    requires Watched(outside, trace).Some?
    requires i < |trace| && trace[i].ApprovalGiven?
    ensures LatestResponse(trace[..i], r)
    ensures var calls := CallsOf(trace[r].response.content);
            && k < |calls| && trace[i].call == calls[k] && StartedOnly(trace[..i], r, calls, k)
    ensures var call, runtime := trace[i].call, outside.runtime;
            && call.name in runtime.registry && runtime.registry[call.name](call.input)
            && call.name in runtime.permissions && runtime.permissions[call.name].Ask?
            && trace[i].answer == outside.world.approval(trace[i].asked)
  {
    WatchedPrefix(outside, trace, i);
    var before := trace[..i];
    var w := Watched(outside, before).value;
    var progress;
    r, progress := TraceHasStory(outside, before);
    k := w.k;
  }

  lemma StartedIsWatched(trace: seq<Observation>, w: Watch, r: nat, progress: Progress, t: nat)
    requires w.Executing? && Explains(trace, w, r, progress) && StartedSince(trace, r, CallsOf(w.response.content)[w.k], t)
    ensures w.started.Some?
  {
    var calls := CallsOf(w.response.content);
    var j :| r < j < |trace| && trace[j].ExecutionStarted? && trace[j].call == calls[w.k] && trace[j].started == t;
    assert trace[j].call in calls[..progress.started];
    NotAmongEarlier(calls, w.k);
  }

  lemma NotAmongEarlier(calls: seq<ToolCall>, k: nat)
    requires DistinctIds(calls) && k < |calls|
    ensures calls[k] !in calls[..k]
  {
    forall m | 0 <= m < k ensures calls[m] != calls[k] {
      assert calls[m].toolUseId != calls[k].toolUseId;
    }
  }

  /** The result is what an executor of the call, started since `r`, returned. */
  ghost predicate ReturnedSince(world: World, trace: seq<Observation>, r: nat, call: ToolCall, result: ToolResult) {
    exists t :: StartedSince(trace, r, call, t) && world.execution(t) == Returned(result)
  }

  /**
   * Results are the executors' own: a committed result that is not "cancelled by parent" belongs to a call of the latest
   * response. If it reports success or failure, the executor of that call was started since and has returned it; and if
   * the executor was started, the result is what it returned, or says that the outcome is unknown.
   */
  lemma ResultsAreTheExecutors(outside: Outside, trace: seq<Observation>, i: nat) returns (r: nat, k: nat)
    requires Watched(outside, trace).Some? && i < |trace|
    requires trace[i].Emitted? && trace[i].event.ToolResultRecorded? && trace[i].event.result.status != Cancelled(ReasonParent)
    ensures LatestResponse(trace[..i], r)
    ensures var result, calls := trace[i].event.result, CallsOf(trace[r].response.content);
            && k < |calls| && Answers(result, calls[k])
            && (result.status.Succeeded? || result.status.Failed? ==>
                  ReturnedSince(outside.world, trace[..i], r, calls[k], result))
            && ((exists t :: StartedSince(trace[..i], r, calls[k], t)) ==>
                  result.status.OutcomeUnknown? || ReturnedSince(outside.world, trace[..i], r, calls[k], result))
  {
    WatchedPrefix(outside, trace, i);
    var before, result := trace[..i], trace[i].event.result;
    var w := Watched(outside, before).value;
    var progress;
    r, progress := TraceHasStory(outside, before);
    k := w.k;
    ResultFits(outside, before, w, r, progress, trace[i].event);
  }

  lemma ResultFits(outside: Outside, trace: seq<Observation>, w: Watch, r: nat, progress: Progress, event: TurnEvent)
    requires Explains(trace, w, r, progress) && AfterEvent(outside, w, event).Some? && event.ToolResultRecorded?
    requires event.result.status != Cancelled(ReasonParent)
    ensures w.Executing? && Answers(event.result, CallsOf(w.response.content)[w.k])
    ensures var call := CallsOf(w.response.content)[w.k];
            && (event.result.status.Succeeded? || event.result.status.Failed? ==>
                  ReturnedSince(outside.world, trace, r, call, event.result))
            && ((exists t :: StartedSince(trace, r, call, t)) ==>
                  event.result.status.OutcomeUnknown? || ReturnedSince(outside.world, trace, r, call, event.result))
  {
    var call := CallsOf(w.response.content)[w.k];
    if t :| StartedSince(trace, r, call, t) { StartedIsWatched(trace, w, r, progress, t); }
  }

  /**
   * Execution discipline over any run of turns of a fresh loop, whatever fails outside: the log that the executor of
   * call `k` finds is the log as it stood before the response, then the response's text, all of its calls, and one
   * result for each call before `k`. So no tool runs before its whole round and the earlier results are in the log.
   */
  lemma ExecutorsFindTheirRound(c: Context, s: Run, requests: seq<TurnRequest>, i: nat)
    returns (before: nat, r: nat, k: nat, results: seq<ToolResult>)
    requires s.trace == []
    requires var end := Turns(c, s, requests); i < |end.trace| && end.trace[i].ExecutionStarted?
    ensures var end := Turns(c, s, requests);
            && LatestResponse(end.trace[..i], r)
            && var response := end.trace[r].response;
               var calls := CallsOf(response.content);
               && UsableResponse(response)
               && k < |calls| && end.trace[i].call == calls[k] && AnswersAll(results, calls[..k], 0)
               && |s.log| <= before <= end.trace[i].logged <= |end.log|
               && Bodies(LogAt(end, i)[before..]) == Marker(PlainOf(response.content)) + CallBodies(calls) + ResultBodies(results)
               && Bodies(LogAt(end, i)[..before]) == Bodies(s.log) + Committed(end.trace[..r])
  {
    var end, base := Turns(c, s, requests), Bodies(s.log);
    TurnsFollowProtocol(c, s, requests);
    FreshLoopIsKept(s);
    TurnsKeepLedger(c, base, s, requests);
    r, k, results := ExecutionDiscipline(OutsideOf(c), end.trace, i);
    LogAtIsShown(base, end, i);
    var response := end.trace[r].response;
    var items := Marker(PlainOf(response.content)) + CallBodies(CallsOf(response.content)) + ResultBodies(results);
    before := |base + Committed(end.trace[..r])|;
    Regroup(base, Committed(end.trace[..r]), items);
    BodiesSplit(LogAt(end, i), base + Committed(end.trace[..r]), items);
  }

  lemma BodiesSplit(log: seq<SessionItem>, first: seq<ItemBody>, rest: seq<ItemBody>)
    requires Bodies(log) == first + rest
    ensures Bodies(log[..|first|]) == first && Bodies(log[|first|..]) == rest
  {
    assert |log| == |first| + |rest|;
    forall i | 0 <= i < |rest| ensures Bodies(log[|first|..])[i] == rest[i] {
      assert Bodies(log)[|first| + i] == rest[i];
    }
    forall i | 0 <= i < |first| ensures Bodies(log[..|first|])[i] == first[i] {
      assert Bodies(log)[i] == first[i];
    }
  }
}
