/** Tool rounds from the stream that asked for them to the request that reports them. */
module TurnRounds {
  import opened Protocol
  import opened Tools
  import opened SessionTypes
  import opened SessionStores
  import opened Materialize
  import opened LogGrammar
  import opened ResponseBuilder
  import opened StreamFold
  import opened ResponseActions
  import opened ToolRuntimes
  import opened TurnEvents
  import opened TurnSpec
  import opened TurnLog

  // ---- Round partition ---------------------------------------------------

  function ParentResults(calls: seq<ToolCall>, k: nat): (results: seq<ToolResult>)
    requires k <= |calls|
    ensures |results| == |calls| - k
    ensures forall i :: 0 <= i < |results| ==> results[i] == ParentCancelled(calls[k + i])
  {
    seq(|calls| - k, i requires 0 <= i < |calls| - k => ParentCancelled(calls[k + i]))
  }

  lemma {:induction false} CloseRemainingNotes(c: Context, s: Run, turn: nat, calls: seq<ToolCall>, k: nat, errors: seq<CommitError>)
    requires k <= |calls|
    ensures errors <= CloseRemaining(c, s, turn, calls, k, errors).1
    decreases |calls| - k
  {
    if k < |calls| {
      var emitted := Emit(c, s, ToolResultRecorded(turn, ParentCancelled(calls[k])));
      CloseRemainingNotes(c, emitted.0, turn, calls, k + 1, if emitted.1.Some? then errors + [emitted.1.value] else errors);
    }
  }

  /** Closing the remaining calls without a new error commits "cancelled by parent" for each of them. */
  lemma {:induction false} CloseRemainingIsParents(c: Context, s: Run, turn: nat, calls: seq<ToolCall>, k: nat, errors: seq<CommitError>)
    requires k <= |calls| && LastAtMost(s.log, turn) && CloseRemaining(c, s, turn, calls, k, errors).1 == errors
    requires forall i :: 0 <= i < |calls| ==> WellNamed(calls[i])
    ensures Adds(s, CloseRemaining(c, s, turn, calls, k, errors).0, turn, ResultBodies(ParentResults(calls, k)))
    decreases |calls| - k
  {
    if k == |calls| {
      AddsNothing(s, s, turn);
      assert ResultBodies(ParentResults(calls, k)) == [];
    } else {
      var result := ParentCancelled(calls[k]);
      EmitResult(c, s, turn, result, calls[k]);
      var emitted := Emit(c, s, ToolResultRecorded(turn, result));
      if emitted.1.Some? { CloseRemainingNotes(c, emitted.0, turn, calls, k + 1, errors + [emitted.1.value]); }
      CloseRemainingIsParents(c, emitted.0, turn, calls, k + 1, errors);
      ParentResultsOfRest(calls, k);
      AddsResults(s, emitted.0, CloseRemaining(c, s, turn, calls, k, errors).0, turn, [result], ParentResults(calls, k + 1));
    }
  }

  /** The first `a` results went through, result `a` aborted, and the rest were cancelled by their parent. */
  predicate Partitioned(results: seq<ToolResult>, calls: seq<ToolCall>, a: nat) {
    && AnswersAll(results, calls, 0)
    && a <= |calls|
    && (forall i :: 0 <= i < a ==> !results[i].status.Cancelled?)
    && (a < |calls| ==> AbortStatus(results[a].status))
    && (forall i :: a < i < |calls| ==> results[i] == ParentCancelled(calls[i]))
  }

  lemma PartitionCons(result: ToolResult, later: seq<ToolResult>, calls: seq<ToolCall>, a: nat)
    requires calls != [] && Answers(result, calls[0]) && !result.status.Cancelled?
    requires Partitioned(later, calls[1..], a)
    ensures Partitioned([result] + later, calls, a + 1)
  {
    var all := [result] + later;
    forall i | 0 <= i < |all| ensures Answers(all[i], calls[i]) {
      if i > 0 { assert all[i] == later[i - 1] && calls[i] == calls[1..][i - 1]; }
    }
    forall i | 0 <= i < a + 1 ensures !all[i].status.Cancelled? {
      if i > 0 { assert all[i] == later[i - 1]; }
    }
    forall i | a + 1 < i < |calls| ensures all[i] == ParentCancelled(calls[i]) {
      assert all[i] == later[i - 1] && calls[i] == calls[1..][i - 1];
    }
  }

  lemma PartitionAbort(result: ToolResult, calls: seq<ToolCall>)
    requires calls != [] && Answers(result, calls[0]) && AbortStatus(result.status)
    ensures Partitioned([result] + ParentResults(calls, 1), calls, 0)
  {
    var all := [result] + ParentResults(calls, 1);
    forall i | 0 < i < |calls| ensures all[i] == ParentCancelled(calls[i]) {
      assert all[i] == ParentResults(calls, 1)[i - 1];
    }
  }

  /** "Cancelled by parent" marks exactly the calls after the first one that aborted. */
  lemma PartitionMarks(results: seq<ToolResult>, calls: seq<ToolCall>, a: nat)
    requires Partitioned(results, calls, a)
    ensures |results| == |calls|
    ensures forall i :: 0 <= i < |calls| ==> (results[i].status == Cancelled(ReasonParent) <==> i > a)
  {
  }

  lemma ParentResultsOfRest(calls: seq<ToolCall>, k: nat)
    requires k < |calls|
    ensures ParentResults(calls, k + 1) == ParentResults(calls[k..], 1)
    ensures ParentResults(calls, k) == [ParentCancelled(calls[k])] + ParentResults(calls, k + 1)
  {
  }

  /** Running one call and committing its result. */
  lemma CallCommits(c: Context, s: Run, turn: nat, call: ToolCall)
    requires LastAtMost(s.log, turn) && WellNamed(call)
    ensures var executed := ExecuteCall(c, s, call);
            var emitted := Emit(c, executed.0, ToolResultRecorded(turn, executed.1.result));
            && (emitted.1.None? ==> Adds(s, emitted.0, turn, ResultBodies([executed.1.result])))
            && Answers(executed.1.result, call)
            && (executed.1.Completed? ==> !executed.1.result.status.Cancelled?)
            && (executed.1.Abort? ==>
                  AbortStatus(executed.1.result.status) && ErrorFits(executed.1.result.status, executed.1.error))
  {
    ExecuteCallResult(c, s, call);
    CallAdds(c, s, turn, call, ExecuteCall(c, s, call));
  }

  lemma AbortCloses(c: Context, s: Run, s1: Run, turn: nat, result: ToolResult, calls: seq<ToolCall>, k: nat)
    requires k < |calls| && LastAtMost(s1.log, turn) && Adds(s, s1, turn, ResultBodies([result]))
    requires CloseRemaining(c, s1, turn, calls, k + 1, []).1 == []
    requires forall i :: 0 <= i < |calls| ==> WellNamed(calls[i])
    ensures Adds(s, CloseRemaining(c, s1, turn, calls, k + 1, []).0, turn, ResultBodies([result] + ParentResults(calls, k + 1)))
  {
    CloseRemainingIsParents(c, s1, turn, calls, k + 1, []);
    AddsResults(s, s1, CloseRemaining(c, s1, turn, calls, k + 1, []).0, turn, [result], ParentResults(calls, k + 1));
  }

  lemma AbortPartitions(result: ToolResult, calls: seq<ToolCall>, k: nat)
    requires k < |calls| && Answers(result, calls[k]) && AbortStatus(result.status)
    ensures Partitioned([result] + ParentResults(calls, k + 1), calls[k..], 0)
  {
    ParentResultsOfRest(calls, k);
    PartitionAbort(result, calls[k..]);
  }

  /** The round's error names what stopped it: the cancellation of a call, the approval handler, or another failure of a tool. */
  predicate CauseFits(status: ToolResultStatus, r: Option<TurnError>) {
    && r.Some? && r.value.RoundAborted? && r.value.cause.Some?
    && (status == Cancelled(ReasonUser) ==> r.value.cause.value == CallCancelledCause)
    && (status == Cancelled(ReasonDisposed) <==> r.value.cause.value == ToolFailure(ApprovalHandlerFailed))
  }

  /** A round from call `k` on, when no append of it fails. */
  lemma {:induction false} RoundSplits(c: Context, s: Run, turn: nat, calls: seq<ToolCall>, k: nat, round: (Run, Option<TurnError>))
    returns (results: seq<ToolResult>, a: nat)
    requires k <= |calls| && LastAtMost(s.log, turn)
    requires round == ToolRoundFrom(c, s, turn, calls, k) && RoundLossless(round.1)
    requires forall i :: 0 <= i < |calls| ==> WellNamed(calls[i])
    ensures Adds(s, round.0, turn, ResultBodies(results)) && (round.1.None? <==> k + a == |calls|)
    ensures Partitioned(results, calls[k..], a)
    ensures k + a < |calls| ==> CauseFits(results[a].status, round.1)
    decreases |calls| - k
  {
    if k == |calls| {
      results, a := [], 0;
      AddsNothing(s, s, turn);
      assert ResultBodies([]) == [];
    } else {
      CallCommits(c, s, turn, calls[k]);
      var outcome := ExecuteCall(c, s, calls[k]).1;
      var s1 := Emit(c, ExecuteCall(c, s, calls[k]).0, ToolResultRecorded(turn, outcome.result)).0;
      RoundCases(c, s, turn, calls, k, outcome, s1);
      if outcome.Abort? {
        a := 0;
        results := RoundEnds(c, s, s1, round, turn, calls, k, outcome);
      } else {
        var later, a' := RoundSplits(c, s1, turn, calls, k + 1, round);
        results, a := [outcome.result] + later, a' + 1;
        RoundGoesOn(s, s1, round.0, turn, calls, k, outcome.result, later, a');
      }
    }
  }

  lemma RoundEnds(c: Context, s: Run, s1: Run, round: (Run, Option<TurnError>), turn: nat, calls: seq<ToolCall>, k: nat,
                  outcome: ToolCallOutcome)
    returns (results: seq<ToolResult>)
    requires k < |calls| && outcome.Abort? && Answers(outcome.result, calls[k])
    requires AbortStatus(outcome.result.status) && ErrorFits(outcome.result.status, outcome.error)
    requires LastAtMost(s1.log, turn) && Adds(s, s1, turn, ResultBodies([outcome.result]))
    requires CloseRemaining(c, s1, turn, calls, k + 1, []) == (round.0, [])
    requires round.1 == Some(RoundAborted(CauseOf(outcome), None, []))
    requires forall i :: 0 <= i < |calls| ==> WellNamed(calls[i])
    ensures Adds(s, round.0, turn, ResultBodies(results)) && Partitioned(results, calls[k..], 0)
    ensures |results| > 0 && CauseFits(results[0].status, round.1)
  {
    results := [outcome.result] + ParentResults(calls, k + 1);
    AbortCloses(c, s, s1, turn, outcome.result, calls, k);
    AbortPartitions(outcome.result, calls, k);
  }

  lemma RoundGoesOn(s: Run, s1: Run, end: Run, turn: nat, calls: seq<ToolCall>, k: nat, result: ToolResult,
                    later: seq<ToolResult>, a: nat)
    requires k < |calls| && Answers(result, calls[k]) && !result.status.Cancelled? && Partitioned(later, calls[k + 1..], a)
    requires Adds(s, s1, turn, ResultBodies([result])) && Adds(s1, end, turn, ResultBodies(later))
    ensures Adds(s, end, turn, ResultBodies([result] + later))
    ensures Partitioned([result] + later, calls[k..], a + 1)
  {
    AddsResults(s, s1, end, turn, [result], later);
    CompletedPartitions(result, later, calls, k, a);
  }

  lemma CompletedPartitions(result: ToolResult, later: seq<ToolResult>, calls: seq<ToolCall>, k: nat, a: nat)
    requires k < |calls| && Answers(result, calls[k]) && !result.status.Cancelled? && Partitioned(later, calls[k + 1..], a)
    ensures Partitioned([result] + later, calls[k..], a + 1)
  {
    assert calls[k..][1..] == calls[k + 1..];
    PartitionCons(result, later, calls[k..], a);
  }

  /**
   * Round partition: a round without a failed append commits one result per call in call order, and
   * "cancelled by parent" marks exactly the calls after the first one that aborted.
   */
  lemma RoundPartition(c: Context, s: Run, turn: nat, calls: seq<ToolCall>) returns (results: seq<ToolResult>, a: nat)
    requires LastAtMost(s.log, turn) && RoundLossless(ToolRoundFrom(c, s, turn, calls, 0).1)
    requires forall i :: 0 <= i < |calls| ==> WellNamed(calls[i])
    ensures var round := ToolRoundFrom(c, s, turn, calls, 0);
            Adds(s, round.0, turn, ResultBodies(results)) && (round.1.None? <==> a == |calls|)
    ensures AnswersAll(results, calls, 0)
    ensures forall i :: 0 <= i < |calls| ==> (results[i].status == Cancelled(ReasonParent) <==> i > a)
    ensures forall i :: a < i < |calls| ==>
              results[i] == ToolResult(calls[i].toolUseId, calls[i].name, Cancelled(ReasonParent), PlainText("parent tool call was cancelled"))
    ensures a < |calls| ==>
              AbortStatus(results[a].status) && CauseFits(results[a].status, ToolRoundFrom(c, s, turn, calls, 0).1)
    ensures forall i :: 0 <= i < a && i < |calls| ==> !results[i].status.Cancelled?
  {
    results, a := RoundSplits(c, s, turn, calls, 0, ToolRoundFrom(c, s, turn, calls, 0));
    assert calls[0..] == calls;
    PartitionMarks(results, calls, a);
  }

  // ---- From a stream to the next request ---------------------------------

  /** A model call that succeeds has folded its whole stream, and returns what the builder made of it. */
  lemma {:induction false} ModelCallFolds(c: Context, s: Run, b: BuilderState, turn: nat, step: nat,
                                          llmCallId: Id, stream: ModelStream, i: nat, model: string,
                                          events: seq<ModelStreamEvent>)
    returns (all: seq<ModelStreamEvent>)
    requires i <= |stream.items| && Fold(model, events) == Some(b)
    requires |events| == i && forall j :: 0 <= j < i ==> stream.items[j].item == Ok(events[j])
    ensures var call := ModelCall(c, s, b, turn, step, llmCallId, stream, i);
            call.1.Ok? ==>
              && |all| == |stream.items|
              && (forall j :: 0 <= j < |all| ==> stream.items[j].item == Ok(all[j]))
              && Accepted(model, all)
              && FinishOf(Fold(model, all).value) == Ok(call.1.value)
    decreases |stream.items| - i
  {
    all := events;
    if i < |stream.items| && stream.items[i].item.Ok? {
      var event := stream.items[i].item.value;
      var applied := Applied(b, event);
      FoldSnoc(NewState(model), events, event);
      if applied.1.None? {
        var s1 := s.Wait(stream.items[i].delay).Show(MessageUpdate(turn, step, llmCallId, SnapshotOf(applied.0)));
        all := ModelCallFolds(c, s1, applied.0, turn, step, llmCallId, stream, i + 1, model, events + [event]);
      }
    }
  }

  /** Each attempt that yields a response has folded some stream of the provider into it. */
  lemma {:induction false} AttemptsFold(c: Context, s: Run, input: TurnInput, turn: nat, step: nat,
                                        request: ModelRequest, attempt: nat)
    returns (time: nat, events: seq<ModelStreamEvent>)
    requires attempt <= input.policy.maxLlmRetries + 1
    ensures var r := Attempts(c, s, input, turn, step, request, attempt).1;
            r.Got? ==>
              && FromStream(c.world.stream(time), events)
              && Accepted(input.config.model, events)
              && FinishOf(Fold(input.config.model, events).value) == Ok(r.response)
    decreases input.policy.maxLlmRetries + 1 - attempt
  {
    time, events := 0, [];
    if attempt <= input.policy.maxLlmRetries && !IsCancelled(c, s.now) {
      var s1 := s.Tick().Show(LlmCallStarted(turn, step, s.now)).Observe(Requested(s.now, request));
      var model := input.config.model;
      var attempted := Attempt(c, s, input, turn, step, request, attempt);
      if attempted.1.None? {
        time, events := AttemptsFold(c, attempted.0, input, turn, step, request, attempt + 1);
      } else {
        time := s1.now;
        events := ModelCallFolds(c, s1, NewState(model), turn, step, s.now, c.world.stream(time), 0, model, []);
      }
    }
  }

  predicate FromStream(stream: ModelStream, events: seq<ModelStreamEvent>) {
    |events| == |stream.items| && forall j :: 0 <= j < |events| ==> stream.items[j].item == Ok(events[j])
  }

  /** The calls of a content are its tool slots. */
  lemma {:induction false} CallsAreSlots(content: seq<ContentBlock>)
    ensures |CallsOf(content)| == |ToolSlots(content)|
    ensures forall i :: 0 <= i < |CallsOf(content)| ==>
              ToolSlots(content)[i] == Slot(CallsOf(content)[i].toolUseId, Some((CallsOf(content)[i].name, CallsOf(content)[i].input)))
  {
    if content != [] {
      CallsAreSlots(content[..|content| - 1]);
    }
  }

  lemma {:induction false} PlainIsNonTool(content: seq<ContentBlock>)
    requires forall i :: 0 <= i < |content| ==> !content[i].ToolResultBlock?
    ensures PlainOf(content) == NonTool(content)
  {
    if content != [] {
      PlainIsNonTool(content[..|content| - 1]);
    }
  }

  /** The call asks for the tool started in this slot, with the name and input of its finish. */
  predicate CallMatches(call: ToolCall, slot: Slot) {
    slot == Slot(call.toolUseId, Some((call.name, call.input)))
  }

  /** What a closed round adds to the next request. */
  function RoundMessages(text: seq<ContentBlock>, calls: seq<ToolCall>, results: seq<ToolResult>): seq<Message> {
    (if text == [] then [] else [Message(Assistant, BlockMessage(text))]) +
    [Message(Assistant, BlockMessage(ToolUseBlocks(calls))), Message(User, BlockMessage(ResultBlocks(results)))]
  }

  /** The step came to a tool round and closed it: it went on, ran out of steps, or was aborted without a failed append. */
  predicate ClosesRound(r: StepResult) {
    StepLossless(r) && !(r.Stop? && r.outcome.Ok?)
  }

  /** What a step that closes a round did: it got a response that asks for tools, and acted on it. */
  lemma ClosedRoundActed(c: Context, s: Run, input: TurnInput, config: CallConfig, turn: nat, step: nat, attempts: (Run, AttemptsResult))
    requires Closed(s.log) && ClosesRound(Step(c, s, input, config, turn, step).1)
    requires attempts == Attempts(c, s.Tick(), input, turn, step, Compile(input, config, Materialized(s.log).value), 0)
    ensures attempts.1.Got? && attempts.1.action.ToolRound?
    ensures Step(c, s, input, config, turn, step) ==
            Act(c, attempts.0, input, config, turn, step, attempts.1.response, attempts.1.action, attempts.1.llmCallId)
  {
    AttemptsNeverBlameHistory(c, s.Tick(), input, turn, step, Compile(input, config, Materialized(s.log).value), 0);
  }

  /** With no append failing, every step whose response asks for tools closes its round. */
  lemma ToolRoundsAreClosed(c: Context, s: Run, input: TurnInput, config: CallConfig, turn: nat, step: nat)
    requires Closed(s.log) && LastAtMost(s.log, turn) && AllAppends(c) && !IsCancelled(c, s.now)
    requires var r := Attempts(c, s.Tick(), input, turn, step, Compile(input, config, Materialized(s.log).value), 0).1;
             r.Got? && r.action.ToolRound?
    ensures ClosesRound(Step(c, s, input, config, turn, step).1)
  {
    var request := Compile(input, config, Materialized(s.log).value);
    var attempts := Attempts(c, s.Tick(), input, turn, step, request, 0);
    AttemptsKeepLog(c, s.Tick(), input, turn, step, request, 0);
    var response, action, id := attempts.1.response, attempts.1.action, attempts.1.llmCallId;
    var f := ActAdds(c, attempts.0, input, config, turn, step, response, action, id);
    RoundsDoNotComplete(c, attempts.0, input, config, turn, step, response, action, id);
  }

  lemma RoundsDoNotComplete(c: Context, s: Run, input: TurnInput, config: CallConfig, turn: nat, step: nat,
                            response: ModelResponse, action: ResponseAction, llmCallId: Id)
    ensures var r := Act(c, s, input, config, turn, step, response, action, llmCallId).1;
            action.ToolRound? ==> !(r.Stop? && r.outcome.Ok?)
  {
  }

  /** A response folded from an accepted stream: its text is the stream's runs, its calls are the stream's tools. */
  lemma ResponseFromStream(model: string, events: seq<ModelStreamEvent>, response: ModelResponse)
    requires Accepted(model, events) && FinishOf(Fold(model, events).value) == Ok(response) && UsableResponse(response)
    ensures PlainOf(response.content) == RunBlocks(Runs(Pieces(events)))
    ensures CallsFit(CallsOf(response.content), events)
  {
    ResponseOfStream(model, events);
    CallsAreSlots(response.content);
    PlainIsNonTool(response.content);
  }

  /** The calls are the tools of the stream, in start order, each with its own finish. */
  predicate CallsFit(calls: seq<ToolCall>, events: seq<ModelStreamEvent>) {
    |calls| == |Slots(events)| && forall i :: 0 <= i < |calls| ==> CallMatches(calls[i], Slots(events)[i])
  }

  /** Acting on tool calls without a failed append adds the messages of one closed round. */
  lemma RoundMaterializes(c: Context, s: Run, input: TurnInput, config: CallConfig, turn: nat, step: nat,
                          response: ModelResponse, action: ResponseAction, llmCallId: Id) returns (results: seq<ToolResult>)
    requires Closed(s.log) && LastAtMost(s.log, turn) && Classified(response) == Ok(action) && action.ToolRound?
    requires StepLossless(Act(c, s, input, config, turn, step, response, action, llmCallId).1)
    ensures action.calls != [] && AnswersAll(results, action.calls, 0)
    ensures Materialized(Act(c, s, input, config, turn, step, response, action, llmCallId).0.log) ==
            Ok(Materialized(s.log).value + RoundMessages(action.assistantBlocks, action.calls, results))
  {
    ActionIsUsable(response, action);
    var f := ActAdds(c, s, input, config, turn, step, response, action, llmCallId);
    AddedFootprint(s, Act(c, s, input, config, turn, step, response, action, llmCallId).0, turn, f, action);
    results := f.results;
    assert FootprintMessages(f) == RoundMessages(action.assistantBlocks, action.calls, results);
  }

  /**
   * From a stream to the next request: after every closed tool round, whether the step goes on, runs out
   * of steps or was cancelled or aborted, the messages are the previous ones, then the text runs of the
   * accepted stream as one assistant message if there are any, then its tools in start order, each as its
   * own finish named it, then one result per call in call order.
   */
  lemma StreamToNextRequest(c: Context, s: Run, input: TurnInput, config: CallConfig, turn: nat, step: nat)
    returns (time: nat, events: seq<ModelStreamEvent>, calls: seq<ToolCall>, results: seq<ToolResult>)
    requires Closed(s.log) && LastAtMost(s.log, turn)
    requires ClosesRound(Step(c, s, input, config, turn, step).1)
    ensures FromStream(c.world.stream(time), events) && Accepted(input.config.model, events)
    ensures calls != [] && CallsFit(calls, events) && AnswersAll(results, calls, 0)
    ensures Materialized(Step(c, s, input, config, turn, step).0.log) ==
            Ok(Materialized(s.log).value + RoundMessages(RunBlocks(Runs(Pieces(events))), calls, results))
  {
    var request := Compile(input, config, Materialized(s.log).value);
    var attempts := Attempts(c, s.Tick(), input, turn, step, request, 0);
    ClosedRoundActed(c, s, input, config, turn, step, attempts);
    var response, action := attempts.1.response, attempts.1.action;
    AttemptsKeepLog(c, s.Tick(), input, turn, step, request, 0);
    time, events := AttemptsFold(c, s.Tick(), input, turn, step, request, 0);
    ClassifiesIffUsable(response);
    ResponseFromStream(input.config.model, events, response);
    calls := action.calls;
    results := RoundMaterializes(c, attempts.0, input, config, turn, step, response, action, attempts.1.llmCallId);
  }

  // ---- What the provider is asked ----------------------------------------

  /** Every request since position `from` is this one. */
  predicate AsksOnly(trace: seq<Observation>, from: nat, request: ModelRequest) {
    forall i :: from <= i < |trace| && trace[i].Requested? ==> trace[i].request == request
  }

  lemma {:induction false} ModelCallAsks(c: Context, s: Run, b: BuilderState, turn: nat, step: nat,
                                         llmCallId: Id, stream: ModelStream, i: nat, from: nat, request: ModelRequest)
    requires i <= |stream.items| && from <= |s.trace| && AsksOnly(s.trace, from, request)
    ensures var end := ModelCall(c, s, b, turn, step, llmCallId, stream, i).0;
            s.trace <= end.trace && AsksOnly(end.trace, from, request)
    decreases |stream.items| - i
  {
    if i < |stream.items| && stream.items[i].item.Ok? {
      var applied := Applied(b, stream.items[i].item.value);
      var s1 := s.Wait(stream.items[i].delay).Show(MessageUpdate(turn, step, llmCallId, SnapshotOf(applied.0)));
      ModelCallAsks(c, s1, applied.0, turn, step, llmCallId, stream, i + 1, from, request);
    }
  }

  /** All attempts of a step send the request compiled from the log as the step found it. */
  lemma {:induction false} AttemptsAskTheSame(c: Context, s: Run, input: TurnInput, turn: nat, step: nat,
                                              request: ModelRequest, attempt: nat, from: nat)
    requires attempt <= input.policy.maxLlmRetries + 1
    requires from <= |s.trace| && AsksOnly(s.trace, from, request)
    ensures var end := Attempts(c, s, input, turn, step, request, attempt).0;
            s.trace <= end.trace && AsksOnly(end.trace, from, request)
    decreases input.policy.maxLlmRetries + 1 - attempt
  {
    if attempt <= input.policy.maxLlmRetries && !IsCancelled(c, s.now) {
      var s1 := s.Tick().Show(LlmCallStarted(turn, step, s.now)).Observe(Requested(s.now, request));
      ModelCallAsks(c, s1, NewState(input.config.model), turn, step, s.now, c.world.stream(s1.now), 0, from, request);
      var call := ModelCall(c, s1, NewState(input.config.model), turn, step, s.now, c.world.stream(s1.now), 0);
      var attempted := Attempt(c, s, input, turn, step, request, attempt);
      assert attempted == Settle(c, call.0, input, turn, step, s.now, call.1, attempt);
      if attempted.1.None? {
        AttemptsAskTheSame(c, attempted.0, input, turn, step, request, attempt + 1, from);
      }
    }
  }
}
