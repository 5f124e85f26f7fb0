/** What a turn leaves in the conversation, what it asks the provider, and what its results and retries mean. */
module TurnStory {
  import opened Protocol
  import opened Tools
  import opened SessionTypes
  import opened SessionStores
  import opened Materialize
  import opened ResponseBuilder
  import opened StreamFold
  import opened ResponseActions
  import opened ToolRuntimes
  import opened TurnEvents
  import opened TurnSpec
  import opened TurnLog
  import opened TurnRounds

  // ---- The provider is asked with the log as it stands -----------------------

  predicate OfRound(event: TurnEvent) {
    event.AssistantFinalized? || event.ToolCallRecorded? || event.ToolResultRecorded?
  }

  /** Neither about the provider nor the beginning or end of a turn; and no executor starts once the token is cancelled. */
  predicate Aside(c: Context, o: Observation) {
    && !o.Requested? && !o.Responded?
    && (o.Emitted? ==> OfRound(o.event))
    && (o.ExecutionStarted? ==> !CancelledBy(c, o.started))
  }

  /** The trace has only grown, by such observations. */
  predicate NoAsk(c: Context, s: Run, s': Run) {
    s.trace <= s'.trace && forall i :: |s.trace| <= i < |s'.trace| ==> Aside(c, s'.trace[i])
  }

  lemma NoAskThen(c: Context, s0: Run, s1: Run, s2: Run)
    requires NoAsk(c, s0, s1) && NoAsk(c, s1, s2)
    ensures NoAsk(c, s0, s2)
  {
  }

  lemma EmitNoAsk(c: Context, s: Run, event: TurnEvent)
    requires OfRound(event)
    ensures NoAsk(c, s, Emit(c, s, event).0)
  {
  }

  lemma ExecuteNoAsk(c: Context, s: Run, call: ToolCall)
    ensures NoAsk(c, s, Execute(c, s, call).0)
  {
  }

  lemma AskApprovalNoAsk(c: Context, s: Run, call: ToolCall)
    ensures NoAsk(c, s, AskThenExecute(c, s, call).0)
  {
    var asked := s.Wait(c.world.delay(s.now)).Observe(ApprovalGiven(call, c.world.approval(s.now), s.now));
    ExecuteNoAsk(c, asked, call);
  }

  lemma ExecuteCallNoAsk(c: Context, s: Run, call: ToolCall)
    ensures NoAsk(c, s, ExecuteCall(c, s, call).0)
  {
    ExecuteNoAsk(c, s.Tick(), call);
    AskApprovalNoAsk(c, s.Tick(), call);
  }

  lemma {:induction false} CloseRemainingNoAsk(c: Context, s: Run, turn: nat, calls: seq<ToolCall>, k: nat, errors: seq<CommitError>)
    requires k <= |calls|
    ensures NoAsk(c, s, CloseRemaining(c, s, turn, calls, k, errors).0)
    decreases |calls| - k
  {
    if k < |calls| {
      var event := ToolResultRecorded(turn, ParentCancelled(calls[k]));
      EmitNoAsk(c, s, event);
      var emitted := Emit(c, s, event);
      CloseRemainingNoAsk(c, emitted.0, turn, calls, k + 1, if emitted.1.Some? then errors + [emitted.1.value] else errors);
    }
  }

  lemma {:induction false} ToolRoundNoAsk(c: Context, s: Run, turn: nat, calls: seq<ToolCall>, k: nat)
    requires k <= |calls|
    ensures NoAsk(c, s, ToolRoundFrom(c, s, turn, calls, k).0)
    decreases |calls| - k
  {
    if k < |calls| {
      ExecuteCallNoAsk(c, s, calls[k]);
      var executed := ExecuteCall(c, s, calls[k]);
      EmitNoAsk(c, executed.0, ToolResultRecorded(turn, executed.1.result));
      var emitted := Emit(c, executed.0, ToolResultRecorded(turn, executed.1.result));
      NoAskThen(c, s, executed.0, emitted.0);
      CloseRemainingNoAsk(c, emitted.0, turn, calls, k + 1, []);
      ToolRoundNoAsk(c, emitted.0, turn, calls, k + 1);
    }
  }

  lemma {:induction false} RecordCallsNoAsk(c: Context, s: Run, turn: nat, calls: seq<ToolCall>, k: nat)
    requires k <= |calls|
    ensures NoAsk(c, s, RecordCalls(c, s, turn, calls, k).0)
    decreases |calls| - k
  {
    if k < |calls| {
      EmitNoAsk(c, s, ToolCallRecorded(turn, calls[k]));
      RecordCallsNoAsk(c, Emit(c, s, ToolCallRecorded(turn, calls[k])).0, turn, calls, k + 1);
    }
  }

  lemma RoundedNoAsk(c: Context, s: Run, turn: nat, calls: seq<ToolCall>)
    ensures NoAsk(c, s, Rounded(c, s, turn, calls).0)
  {
    RecordCallsNoAsk(c, s, turn, calls, 0);
    var recorded := RecordCalls(c, s, turn, calls, 0).0;
    ToolRoundNoAsk(c, recorded, turn, calls, 0);
    NoAskThen(c, s, recorded, ToolRoundFrom(c, recorded, turn, calls, 0).0);
  }

  /** Acting on a response asks nothing, and then announces the end of the turn exactly if it completes it or no step is left. */
  lemma ActNoAsk(c: Context, s: Run, input: TurnInput, config: CallConfig, turn: nat, step: nat,
                 response: ModelResponse, action: ResponseAction, llmCallId: Id) returns (last: Run)
    ensures NoAsk(c, s, last)
    ensures var acted := Act(c, s, input, config, turn, step, response, action, llmCallId);
            if EndsTheTurn(acted.1) then acted.0 == last.Show(TurnEnded(turn)) else acted.0 == last
  {
    last := ActEnds(c, s, input, config, turn, step, response, action, llmCallId);
    var finalized := Emit(c, s, AssistantFinalized(turn, llmCallId, action.assistantBlocks)).0;
    EmitNoAsk(c, s, AssistantFinalized(turn, llmCallId, action.assistantBlocks));
    if action.ToolRound? {
      RoundedNoAsk(c, finalized, turn, action.calls);
      NoAskThen(c, s, finalized, Rounded(c, finalized, turn, action.calls).0);
    }
  }

  /** Whatever a step asks the provider, on any attempt: the system prompt, the messages of the log as the step found it, and the id to go on from. */
  lemma StepAsksTheLog(c: Context, s: Run, input: TurnInput, config: CallConfig, turn: nat, step: nat)
    requires Closed(s.log)
    ensures var end := Step(c, s, input, config, turn, step).0;
            && s.trace <= end.trace
            && forall i :: |s.trace| <= i < |end.trace| && end.trace[i].Requested? ==>
                 && end.trace[i].request.system == input.systemPrompt
                 && end.trace[i].request.messages == Materialized(s.log).value
                 && end.trace[i].request.previousResponseId == config.previousResponseId
  {
    if !IsCancelled(c, s.now) {
      var request := Compile(input, config, Materialized(s.log).value);
      AttemptsAskTheSame(c, s.Tick(), input, turn, step, request, 0, |s.trace|);
      var attempts := Attempts(c, s.Tick(), input, turn, step, request, 0);
      if attempts.1.Got? {
        var end := Step(c, s, input, config, turn, step).0;
        var last := ActNoAsk(c, attempts.0, input, config, turn, step, attempts.1.response, attempts.1.action, attempts.1.llmCallId);
        forall i | |s.trace| <= i < |end.trace| && end.trace[i].Requested? ensures end.trace[i].request == request {
          assert i >= |attempts.0.trace| && i < |last.trace| ==> Aside(c, last.trace[i]);
          assert i < |attempts.0.trace| && attempts.0.trace[i].Requested?;
        }
      }
    }
  }

  // ---- What a turn leaves ------------------------------------------------------

  /** A closed tool round: the stream that asked for it, what was called, and the results. */
  datatype RoundStory = RoundStory(time: nat, events: seq<ModelStreamEvent>, calls: seq<ToolCall>, results: seq<ToolResult>)

  /** The provider's stream was accepted, its tools are the calls, and each call has its result. */
  predicate GoodRound(c: Context, model: string, round: RoundStory) {
    && FromStream(c.world.stream(round.time), round.events) && Accepted(model, round.events)
    && round.calls != [] && CallsFit(round.calls, round.events)
    && AnswersAll(round.results, round.calls, 0)
  }

  predicate GoodRounds(c: Context, model: string, rounds: seq<RoundStory>) {
    forall i :: 0 <= i < |rounds| ==> GoodRound(c, model, rounds[i])
  }

  function RoundStoryMessages(round: RoundStory): seq<Message> {
    RoundMessages(RunBlocks(Runs(Pieces(round.events))), round.calls, round.results)
  }

  function RoundsMessages(rounds: seq<RoundStory>): seq<Message> {
    if rounds == [] then [] else RoundStoryMessages(rounds[0]) + RoundsMessages(rounds[1..])
  }

  function ReplyMessages(text: seq<ContentBlock>): seq<Message> {
    if text == [] then [] else [Message(Assistant, BlockMessage(text))]
  }

  /** The response is the fold of some provider stream, without tool calls, and its text is the stream's runs. */
  predicate IsReply(c: Context, model: string, response: ModelResponse, time: nat, events: seq<ModelStreamEvent>) {
    && FromStream(c.world.stream(time), events) && Accepted(model, events)
    && FinishOf(Fold(model, events).value) == Ok(response)
    && CallsOf(response.content) == []
    && PlainOf(response.content) == RunBlocks(Runs(Pieces(events)))
  }

  /** The outcome is a reply that has been committed after the messages, and the turn has been ended. */
  predicate Completed(c: Context, input: TurnInput, turn: nat, messages: seq<Message>, end: Run, response: ModelResponse,
                      time: nat, events: seq<ModelStreamEvent>)
  {
    && IsReply(c, input.config.model, response, time, events)
    && Materialized(end.log) == Ok(messages + ReplyMessages(PlainOf(response.content)))
    && end.trace != [] && end.trace[|end.trace| - 1] == Emitted(TurnEnded(turn))
  }

  lemma TerminalStep(c: Context, s: Run, input: TurnInput, config: CallConfig, turn: nat, step: nat)
    returns (time: nat, events: seq<ModelStreamEvent>)
    requires Closed(s.log) && LastAtMost(s.log, turn)
    requires var r := Step(c, s, input, config, turn, step).1; r.Stop? && r.outcome.Ok?
    ensures var stepped := Step(c, s, input, config, turn, step);
            Completed(c, input, turn, Materialized(s.log).value, stepped.0, stepped.1.outcome.value, time, events)
  {
    var request := Compile(input, config, Materialized(s.log).value);
    var attempts := Attempts(c, s.Tick(), input, turn, step, request, 0);
    var response, action := attempts.1.response, attempts.1.action;
    AttemptsKeepLog(c, s.Tick(), input, turn, step, request, 0);
    time, events := AttemptsFold(c, s.Tick(), input, turn, step, request, 0);
    ResponseOfStream(input.config.model, events);
    ClassifiesIffUsable(response);
    PlainIsNonTool(response.content);
    ActTerminates(c, attempts.0, input, config, turn, step, response, action, attempts.1.llmCallId);
  }

  lemma ActTerminates(c: Context, s: Run, input: TurnInput, config: CallConfig, turn: nat, step: nat,
                      response: ModelResponse, action: ResponseAction, llmCallId: Id)
    requires Closed(s.log) && LastAtMost(s.log, turn) && Classified(response) == Ok(action)
    requires var r := Act(c, s, input, config, turn, step, response, action, llmCallId).1; r.Stop? && r.outcome.Ok?
    ensures var acted := Act(c, s, input, config, turn, step, response, action, llmCallId);
            && action.Terminal? && acted.1.outcome.value == response
            && Materialized(acted.0.log) == Ok(Materialized(s.log).value + ReplyMessages(action.assistantBlocks))
            && acted.0.trace != [] && acted.0.trace[|acted.0.trace| - 1] == Emitted(TurnEnded(turn))
  {
    ActionIsUsable(response, action);
    FinalizeAdds(c, s, turn, llmCallId, action.assistantBlocks);
    OnlyTerminalCompletes(c, s, input, config, turn, step, response, action, llmCallId);
    var s1 := Emit(c, s, AssistantFinalized(turn, llmCallId, action.assistantBlocks)).0;
    ReplyMaterializes(s, s1, turn, action.assistantBlocks);
  }

  lemma ReplyMaterializes(s: Run, s1: Run, turn: nat, text: seq<ContentBlock>)
    requires Closed(s.log) && Adds(s, s1, turn, Marker(text))
    ensures Materialized(s1.log) == Ok(Materialized(s.log).value + ReplyMessages(text))
  {
    ClosedScan(s.log);
    ScanAppend(START, Bodies(s.log), Marker(text));
    ScanMarker(Materialized(s.log).value, text);
  }

  /** A tool round never completes a turn. */
  lemma OnlyTerminalCompletes(c: Context, s: Run, input: TurnInput, config: CallConfig, turn: nat, step: nat,
                   response: ModelResponse, action: ResponseAction, llmCallId: Id)
    ensures var acted := Act(c, s, input, config, turn, step, response, action, llmCallId);
            var finalized := Emit(c, s, AssistantFinalized(turn, llmCallId, action.assistantBlocks));
            acted.1.Stop? && acted.1.outcome.Ok? ==>
              && action.Terminal? && acted.1.outcome.value == response && finalized.1.None?
              && acted.0 == finalized.0.Show(TurnEnded(turn))
  {
  }

  /** What the outcome adds after the closed rounds: the reply, or nothing. */
  predicate Concluded(c: Context, input: TurnInput, turn: nat, messages: seq<Message>, end: Run, outcome: TurnOutcome,
                      time: nat, events: seq<ModelStreamEvent>)
  {
    match outcome
    case Ok(response) => Completed(c, input, turn, messages, end, response, time, events)
    case Err(_) => Materialized(end.log) == Ok(messages)
  }

  /** A turn has at most as many rounds as steps left, one less if it replies, all of them if it runs out of steps. */
  predicate FitsSteps(rounds: nat, left: nat, outcome: TurnOutcome) {
    && (if outcome.Ok? then rounds < left else 0 < rounds <= left)
    && (outcome.Err? && outcome.error.StepsExhausted? ==> rounds == left)
  }

  /** How a turn with `left` steps to go has ended, told by its rounds and its conclusion. */
  predicate Told(c: Context, input: TurnInput, turn: nat, messages: seq<Message>, left: nat, end: (Run, TurnOutcome),
                 rounds: seq<RoundStory>, time: nat, events: seq<ModelStreamEvent>)
  {
    && GoodRounds(c, input.config.model, rounds)
    && FitsSteps(|rounds|, left, end.1)
    && Concluded(c, input, turn, messages + RoundsMessages(rounds), end.0, end.1, time, events)
  }

  lemma {:induction false} StepsStory(c: Context, s: Run, input: TurnInput, config: CallConfig, turn: nat, step: nat,
                                      left: nat, messages: seq<Message>, end: (Run, TurnOutcome))
    returns (rounds: seq<RoundStory>, time: nat, events: seq<ModelStreamEvent>)
    requires step + left == input.policy.maxSteps && Materialized(s.log) == Ok(messages) && LastAtMost(s.log, turn)
    requires end == Steps(c, s, input, config, turn, step) && StepLossless(Stop(end.1))
    ensures Told(c, input, turn, messages, left, end, rounds, time, events)
    decreases left
  {
    var next, r := StepsUnfold(c, s, input, config, turn, step, end);
    if r.Stop? {
      rounds, time, events := LastStepStory(c, s, input, config, turn, step, left, messages, end);
    } else {
      var round, more := ClosedStep(c, s, input, config, turn, step, messages, next, r);
      var later;
      later, time, events := StepsStory(c, next, input, r.config, turn, step + 1, left - 1, more, end);
      rounds := TellRound(c, input, turn, messages, left, end, round, later, time, events);
    }
  }

  lemma StepsUnfold(c: Context, s: Run, input: TurnInput, config: CallConfig, turn: nat, step: nat, end: (Run, TurnOutcome))
    returns (next: Run, r: StepResult)
    requires step <= input.policy.maxSteps
    requires end == Steps(c, s, input, config, turn, step) && StepLossless(Stop(end.1))
    ensures step < input.policy.maxSteps && (next, r) == Step(c, s, input, config, turn, step)
    ensures if r.Stop? then end == (next, r.outcome) && StepLossless(r)
            else end == Steps(c, next, input, r.config, turn, step + 1)
  {
    var stepped := Step(c, s, input, config, turn, step);
    next, r := stepped.0, stepped.1;
  }

  lemma LastStepStory(c: Context, s: Run, input: TurnInput, config: CallConfig, turn: nat, step: nat,
                      left: nat, messages: seq<Message>, end: (Run, TurnOutcome))
    returns (rounds: seq<RoundStory>, time: nat, events: seq<ModelStreamEvent>)
    requires left > 0 && step + left == input.policy.maxSteps && Materialized(s.log) == Ok(messages) && LastAtMost(s.log, turn)
    requires Step(c, s, input, config, turn, step) == (end.0, Stop(end.1)) && StepLossless(Stop(end.1))
    ensures Told(c, input, turn, messages, left, end, rounds, time, events)
  {
    rounds, time, events := [], 0, [];
    if end.1.Ok? {
      time, events := TerminalStep(c, s, input, config, turn, step);
      assert messages + [] == messages;
    } else {
      var round, _ := ClosedStep(c, s, input, config, turn, step, messages, end.0, Stop(end.1));
      rounds := [round];
      OnlyRound(round);
    }
  }

  lemma TellRound(c: Context, input: TurnInput, turn: nat, messages: seq<Message>, left: nat, end: (Run, TurnOutcome),
                  round: RoundStory, later: seq<RoundStory>, time: nat, events: seq<ModelStreamEvent>)
    returns (rounds: seq<RoundStory>)
    requires GoodRound(c, input.config.model, round) && left > 0
    requires Told(c, input, turn, messages + RoundStoryMessages(round), left - 1, end, later, time, events)
    ensures Told(c, input, turn, messages, left, end, rounds, time, events)
  {
    rounds := FirstRound(c, input.config.model, messages, round, later);
  }

  lemma OnlyRound(round: RoundStory)
    ensures RoundsMessages([round]) == RoundStoryMessages(round)
  {
    assert RoundsMessages([round][1..]) == [];
  }

  lemma FirstRound(c: Context, model: string, messages: seq<Message>, round: RoundStory, later: seq<RoundStory>)
    returns (rounds: seq<RoundStory>)
    requires GoodRound(c, model, round) && GoodRounds(c, model, later)
    ensures |rounds| == |later| + 1 && GoodRounds(c, model, rounds)
    ensures messages + RoundsMessages(rounds) == messages + RoundStoryMessages(round) + RoundsMessages(later)
  {
    rounds := [round] + later;
    Regroup(messages, RoundStoryMessages(round), RoundsMessages(later));
  }

  /** The last step of a turn is the only one that runs out of steps. */
  lemma ExhaustedAtLastStep(c: Context, s: Run, input: TurnInput, config: CallConfig, turn: nat, step: nat)
    requires Closed(s.log)
    ensures var r := Step(c, s, input, config, turn, step).1;
            r.Stop? && r.outcome.Err? && r.outcome.error.StepsExhausted? ==> step + 1 == input.policy.maxSteps
  {
    AttemptsNeverBlameHistory(c, s.Tick(), input, turn, step, Compile(input, config, Materialized(s.log).value), 0);
    var attempts := Attempts(c, s.Tick(), input, turn, step, Compile(input, config, Materialized(s.log).value), 0);
    if attempts.1.Got? && attempts.1.action.ToolRound? {
      var action := attempts.1.action;
      var s1 := Emit(c, attempts.0, AssistantFinalized(turn, attempts.1.llmCallId, action.assistantBlocks)).0;
      RoundError(c, RecordCalls(c, s1, turn, action.calls, 0).0, turn, action.calls, 0);
    }
  }

  lemma ClosedStep(c: Context, s: Run, input: TurnInput, config: CallConfig, turn: nat, step: nat,
                   messages: seq<Message>, next: Run, r: StepResult)
    returns (round: RoundStory, more: seq<Message>)
    requires Materialized(s.log) == Ok(messages) && LastAtMost(s.log, turn)
    requires (next, r) == Step(c, s, input, config, turn, step) && ClosesRound(r)
    ensures GoodRound(c, input.config.model, round) && more == messages + RoundStoryMessages(round)
    ensures Materialized(next.log) == Ok(more) && LastAtMost(next.log, turn)
    ensures r.Stop? && r.outcome.Err? && r.outcome.error.StepsExhausted? ==> step + 1 == input.policy.maxSteps
  {
    StepFacts(c, s, input, config, turn, step);
    ExhaustedAtLastStep(c, s, input, config, turn, step);
    var time, events, calls, results := StreamToNextRequest(c, s, input, config, turn, step);
    round := RoundStory(time, events, calls, results);
    more := messages + RoundStoryMessages(round);
  }

  /**
   * A turn that returns a response, runs out of steps, or is aborted or cancelled in a tool round without a failed
   * append, has put into the conversation the prompt, its closed tool rounds, each asked for by an accepted stream
   * of the provider, and the reply if there is one, in this order.
   */
  lemma ClosedTurn(c: Context, s: Run, input: TurnInput)
    returns (turn: nat, rounds: seq<RoundStory>, time: nat, events: seq<ModelStreamEvent>)
    requires StepLossless(Stop(Turn(c, s, input).1))
    ensures Closed(s.log) && NextTurn(s.log) == Some(turn)
    ensures Told(c, input, turn, Materialized(s.log).value + [Message(User, TextMessage(input.text))],
                 input.policy.maxSteps, Turn(c, s, input), rounds, time, events)
  {
    PreflightTurn(c, s, input);
    turn := Preflight(c, s, input).value;
    var s1 := s.Tick().Tick().Show(TurnStarted(turn)).Tick();
    PromptAsked(c, s1, turn, input.text);
    var prompted := Emit(c, s1, UserPromptCommitted(turn, input.text));
    var messages := Materialized(s.log).value + [Message(User, TextMessage(input.text))];
    rounds, time, events := StepsStory(c, prompted.0, input, input.config, turn, 0, input.policy.maxSteps, messages, Turn(c, s, input));
  }

  lemma PromptAsked(c: Context, s: Run, turn: nat, text: string)
    requires Closed(s.log) && LastAtMost(s.log, turn) && text != ""
    requires Emit(c, s, UserPromptCommitted(turn, text)).1.None?
    ensures var prompted := Emit(c, s, UserPromptCommitted(turn, text)).0;
            && LastAtMost(prompted.log, turn)
            && Materialized(prompted.log) == Ok(Materialized(s.log).value + [Message(User, TextMessage(text))])
  {
    EmitAdds(c, s, UserPromptCommitted(turn, text));
    ScanSnoc(START, Bodies(s.log), UserMessage(text));
  }

  // ---- What a result says about its call -------------------------------------

  /** Whether the call's executor was started between the two states. */
  predicate Ran(s: Run, s': Run, call: ToolCall) {
    exists i :: |s.trace| <= i < |s'.trace| && s'.trace[i].ExecutionStarted? && s'.trace[i].call == call
  }

  /** The call was asked about between the two states, and this was the answer. */
  predicate AskedAbout(s: Run, s': Run, call: ToolCall, answer: ApprovalAnswer) {
    && |s'.trace| > |s.trace|
    && s'.trace[|s.trace|].ApprovalGiven? && s'.trace[|s.trace|].call == call && s'.trace[|s.trace|].answer == answer
  }

  ghost predicate RefusedByUser(s: Run, s': Run, call: ToolCall) {
    exists reason :: AskedAbout(s, s', call, Answered(DeniedBecause(reason)))
  }

  /** What the status says: the executor ran, or why it did not. */
  ghost predicate StatusTells(c: Context, s: Run, executed: (Run, ToolCallOutcome), call: ToolCall) {
    var status, ran := executed.1.result.status, Ran(s, executed.0, call);
    && (ran ==> status.Succeeded? || status.Failed? || status.OutcomeUnknown?)
    && (status.Succeeded? || status.Failed? ==> ran)
    && (status.Denied? <==> RefusedByUser(s, executed.0, call))
    && (status.Denied? ==> executed.1.result.content.PlainText?
                           && AskedAbout(s, executed.0, call, Answered(DeniedBecause(executed.1.result.content.text))))
    && !status.UnknownTool? && !status.InvalidArguments?
    && (status.OutcomeUnknown? ==> ran || (executed.0.now > 0 && CancelledBy(c, executed.0.now - 1)))
  }

  lemma ExecuteTells(c: Context, s: Run, call: ToolCall)
    ensures var executed := Execute(c, s, call);
            var status := executed.1.result.status;
            && s.trace <= executed.0.trace
            && (if executed.0.trace == s.trace then
                  status == Cancelled(ReasonUser) || (status.OutcomeUnknown? && executed.0.now > 0 && CancelledBy(c, executed.0.now - 1))
                else executed.0.trace == s.trace + [ExecutionStarted(call, false, |s.log|, s.now + 1)]
                     && (status.Succeeded? || status.Failed? || status.OutcomeUnknown?))
  {
  }

  lemma ExecuteTellsStatus(c: Context, s: Run, call: ToolCall)
    ensures StatusTells(c, s, Execute(c, s, call), call)
  {
    ExecuteTells(c, s, call);
    var end := Execute(c, s, call).0;
    if end.trace != s.trace {
      assert end.trace[|s.trace|].ExecutionStarted? && end.trace[|s.trace|].call == call;
    }
  }

  lemma AskTellsStatus(c: Context, s: Run, call: ToolCall)
    ensures StatusTells(c, s, AskThenExecute(c, s, call), call)
  {
    var asked := s.Wait(c.world.delay(s.now)).Observe(ApprovalGiven(call, c.world.approval(s.now), s.now));
    ExecuteTells(c, asked, call);
    var end := AskThenExecute(c, s, call).0;
    if !IsCancelled(c, s.now + c.world.delay(s.now)) && c.world.approval(s.now) == Answered(Approved) {
      if end.trace != asked.trace {
        assert end.trace[|asked.trace|].ExecutionStarted? && end.trace[|asked.trace|].call == call;
      }
    }
  }

  /**
   * A result tells truly what became of its call: an unknown tool or invalid input was found before anything
   * ran, a denial is the user's, and a call that is reported cancelled never reached its executor.
   */
  lemma ResultTellsWhatHappened(c: Context, s: Run, call: ToolCall)
    requires Constructed(c.runtime)
    ensures var executed := ExecuteCall(c, s, call);
            var status, ran := executed.1.result.status, Ran(s, executed.0, call);
            && (status.UnknownTool? <==> !IsCancelled(c, s.now) && call.name !in c.runtime.registry)
            && (status.InvalidArguments? <==>
                  !IsCancelled(c, s.now) && call.name in c.runtime.registry && !c.runtime.registry[call.name](call.input))
            && (status.Denied? <==> RefusedByUser(s, executed.0, call))
            && (status.Denied? ==> executed.1.result.content.PlainText?
                                   && AskedAbout(s, executed.0, call, Answered(DeniedBecause(executed.1.result.content.text))))
            && (status.Succeeded? || status.Failed? ==> ran)
            && (ran ==> status.Succeeded? || status.Failed? || status.OutcomeUnknown?)
            && (status.Cancelled? ==> !ran)
            && (status.OutcomeUnknown? ==> ran || (executed.0.now > 0 && CancelledBy(c, executed.0.now - 1)))
            && (status.UnknownTool? ==> executed.1.result.content == PlainText("unknown tool: " + call.name))
    ensures CancelledBy(c, s.now) ==>
              ExecuteCall(c, s, call) ==
              (s.Tick(), Abort(ToolResult(call.toolUseId, call.name, Cancelled(ReasonUser),
                                          PlainText("tool call cancelled before execution")), None))
  {
    ConstructedRuntimeHasNoFallback(c.runtime, call);
    ExecuteTellsStatus(c, s.Tick(), call);
    AskTellsStatus(c, s.Tick(), call);
  }

  /** A call whose token is not cancelled before it is over runs exactly if its tool allows it, or asks and is answered yes. */
  lemma RunsIffPermitted(c: Context, s: Run, call: ToolCall)
    requires Constructed(c.runtime) && !CancelledBy(c, ExecuteCall(c, s, call).0.now)
    ensures var after, runtime := ExecuteCall(c, s, call).0, c.runtime;
            var usable := call.name in runtime.registry && runtime.registry[call.name](call.input);
            && ((exists answer :: AskedAbout(s, after, call, answer)) <==> usable && runtime.permissions[call.name].Ask?)
            && (Ran(s, after, call) <==>
                  usable && (runtime.permissions[call.name].Allow? || AskedAbout(s, after, call, Answered(Approved))))
  {
    var after := ExecuteCall(c, s, call).0;
    if call.name in c.runtime.registry && c.runtime.registry[call.name](call.input) {
      if c.runtime.permissions[call.name].Allow? {
        RunsUncancelled(c, s.Tick(), call);
        assert after.trace[|s.trace|].ExecutionStarted? && after.trace[|s.trace|].call == call;
      } else {
        var given := ApprovalGiven(call, c.world.approval(s.now + 1), s.now + 1);
        AsksUncancelled(c, s.Tick(), call);
        assert AskedAbout(s, after, call, given.answer);
        if given.answer == Answered(Approved) {
          assert after.trace[|s.trace| + 1].ExecutionStarted? && after.trace[|s.trace| + 1].call == call;
        }
      }
    }
  }

  lemma RunsUncancelled(c: Context, s: Run, call: ToolCall)
    requires !CancelledBy(c, Execute(c, s, call).0.now)
    ensures Execute(c, s, call).0.trace == s.trace + [ExecutionStarted(call, false, |s.log|, s.now + 1)]
  {
  }

  lemma AsksUncancelled(c: Context, s: Run, call: ToolCall)
    requires !CancelledBy(c, AskThenExecute(c, s, call).0.now)
    ensures var given, after := ApprovalGiven(call, c.world.approval(s.now), s.now), AskThenExecute(c, s, call).0;
            && s.trace + [given] <= after.trace
            && (if given.answer != Answered(Approved) then after.trace == s.trace + [given]
                else |after.trace| == |s.trace| + 2 && after.trace[|s.trace| + 1].ExecutionStarted? && after.trace[|s.trace| + 1].call == call)
  {
    var given := ApprovalGiven(call, c.world.approval(s.now), s.now);
    var asked := s.Wait(c.world.delay(s.now)).Observe(given);
    if given.answer == Answered(Approved) && !IsCancelled(c, s.now + c.world.delay(s.now)) {
      RunsUncancelled(c, asked, call);
    }
  }

  /** An outcome that nobody knows. */
  function Unknown(call: ToolCall): ToolResult {
    ToolResult(call.toolUseId, call.name, OutcomeUnknown, PlainText("tool execution outcome is unknown"))
  }

  /** A result that an executor may give for a call: its own identity, and a status that says how it ended. */
  predicate ProperAnswer(call: ToolCall, result: ToolResult) {
    && result.toolUseId == call.toolUseId && result.name == call.name
    && (result.status.Succeeded? || result.status.Failed? || result.status.OutcomeUnknown?)
  }

  /** What the executor that was started at this time makes of the call: its own proper answer, or an unknown outcome. */
  predicate OutcomeOfStart(c: Context, call: ToolCall, started: nat, outcome: ToolCallOutcome) {
    if CancelledBy(c, started + c.world.delay(started)) then outcome == Abort(Unknown(call), None)
    else
      match c.world.execution(started)
      case ExecutorFailed => outcome == Abort(Unknown(call), Some(ExecutorError))
      case Returned(result) =>
        if ProperAnswer(call, result) then outcome == ToolCallOutcome.Completed(result)
        else
          var error := if result.toolUseId != call.toolUseId || result.name != call.name then IdentityMismatch else PipelineOwnedStatus;
          outcome == Abort(Unknown(call), Some(error))
  }

  /** Whatever executor was started since, it decided the outcome. */
  predicate Decided(c: Context, s: Run, call: ToolCall, executed: (Run, ToolCallOutcome)) {
    forall i :: |s.trace| <= i < |executed.0.trace| && executed.0.trace[i].ExecutionStarted? ==>
      OutcomeOfStart(c, call, executed.0.trace[i].started, executed.1)
  }

  /** What became of a call whose executor was started depends on nothing but that executor and the cancellation of the token. */
  lemma ExecutorDecides(c: Context, s: Run, call: ToolCall)
    ensures Decided(c, s, call, ExecuteCall(c, s, call))
  {
    match GateOf(c.runtime, call)
    case MayRun => StartDecides(c, s.Tick(), call);
    case MustAsk => AskDecides(c, s.Tick(), call);
    case _ =>
  }

  lemma AskDecides(c: Context, s: Run, call: ToolCall)
    ensures Decided(c, s, call, AskThenExecute(c, s, call))
  {
    StartDecides(c, s.Wait(c.world.delay(s.now)).Observe(ApprovalGiven(call, c.world.approval(s.now), s.now)), call);
  }

  lemma StartDecides(c: Context, s: Run, call: ToolCall)
    ensures var executed := Execute(c, s, call);
            executed.0.trace == s.trace ||
            (executed.0.trace == s.trace + [ExecutionStarted(call, false, |s.log|, s.now + 1)]
             && OutcomeOfStart(c, call, s.now + 1, executed.1))
  {
  }

  /** The call was stopped at the user's wish, with this message. */
  function StoppedWith(call: ToolCall, message: string): ToolCallOutcome {
    Abort(ToolResult(call.toolUseId, call.name, Cancelled(ReasonUser), PlainText(message)), None)
  }

  /** What an answer other than a yes makes of its call. */
  predicate OutcomeOfAnswer(call: ToolCall, answer: ApprovalAnswer, outcome: ToolCallOutcome) {
    match answer
    case Answered(Approved) => true
    case Answered(DeniedBecause(reason)) =>
      outcome == ToolCallOutcome.Completed(ToolResult(call.toolUseId, call.name, Denied, PlainText(reason)))
    case Answered(ApprovalCancelled) => outcome == StoppedWith(call, "tool approval cancelled")
    case HandlerFailed =>
      outcome == Abort(ToolResult(call.toolUseId, call.name, Cancelled(ReasonDisposed), PlainText("tool approval handler failed")),
                       Some(ApprovalHandlerFailed))
  }

  /** A call that was asked about and not approved comes to what the answer says. */
  lemma AnswerDecides(c: Context, s: Run, call: ToolCall, answer: ApprovalAnswer)
    requires AskedAbout(s, ExecuteCall(c, s, call).0, call, answer)
    ensures OutcomeOfAnswer(call, answer, ExecuteCall(c, s, call).1)
  {
    match GateOf(c.runtime, call)
    case MayRun => ExecuteTells(c, s.Tick(), call);
    case MustAsk => AskTold(c, s.Tick(), call, answer);
    case _ =>
  }

  lemma AskTold(c: Context, s: Run, call: ToolCall, answer: ApprovalAnswer)
    requires AskedAbout(s, AskThenExecute(c, s, call).0, call, answer)
    ensures OutcomeOfAnswer(call, answer, AskThenExecute(c, s, call).1)
  {
    if answer == Answered(Approved) {
    } else if !IsCancelled(c, s.now + c.world.delay(s.now)) && c.world.approval(s.now) == Answered(Approved) {
      ExecuteTells(c, s.Wait(c.world.delay(s.now)).Observe(ApprovalGiven(call, c.world.approval(s.now), s.now)), call);
    }
  }

  /** Stopped before the executor: before anything was done, while being asked about, or too close to the start to know. */
  predicate StoppedEarly(c: Context, call: ToolCall, executed: (Run, ToolCallOutcome)) {
    && CancelledBy(c, executed.0.now)
    && (|| executed.1 == StoppedWith(call, "tool call cancelled before execution")
        || executed.1 == StoppedWith(call, "tool approval cancelled")
        || executed.1 == Abort(Unknown(call), None))
  }

  ghost predicate NotApproved(s: Run, s': Run, call: ToolCall) {
    exists answer :: answer != Answered(Approved) && AskedAbout(s, s', call, answer)
  }

  /** A call that could be run was run, was answered by something else than a yes, or was stopped by the cancelled token. */
  lemma RunOrStopped(c: Context, s: Run, call: ToolCall)
    requires Constructed(c.runtime) && call.name in c.runtime.registry && c.runtime.registry[call.name](call.input)
    ensures var executed := ExecuteCall(c, s, call);
            Ran(s, executed.0, call) || NotApproved(s, executed.0, call) || StoppedEarly(c, call, executed)
  {
    ConstructedRuntimeHasNoFallback(c.runtime, call);
    if !IsCancelled(c, s.now) {
      if c.runtime.permissions[call.name].Allow? {
        ExecutedOrStopped(c, s.Tick(), call);
      } else {
        AskedOrStopped(c, s.Tick(), call);
        var answer, after := c.world.approval(s.now + 1), ExecuteCall(c, s, call).0;
        assert AskedAbout(s.Tick(), after, call, answer) ==> AskedAbout(s, after, call, answer);
      }
    }
  }

  lemma ExecutedOrStopped(c: Context, s: Run, call: ToolCall)
    ensures Ran(s, Execute(c, s, call).0, call) || StoppedEarly(c, call, Execute(c, s, call))
  {
    var end := Execute(c, s, call).0;
    ExecuteTells(c, s, call);
    if end.trace != s.trace { assert end.trace[|s.trace|].ExecutionStarted? && end.trace[|s.trace|].call == call; }
  }

  lemma AskedOrStopped(c: Context, s: Run, call: ToolCall)
    ensures var executed, answer := AskThenExecute(c, s, call), c.world.approval(s.now);
            || Ran(s, executed.0, call)
            || (answer != Answered(Approved) && AskedAbout(s, executed.0, call, answer))
            || StoppedEarly(c, call, executed)
  {
    if !IsCancelled(c, s.now + c.world.delay(s.now)) {
      var answer, end := c.world.approval(s.now), AskThenExecute(c, s, call).0;
      var asked := s.Wait(c.world.delay(s.now)).Observe(ApprovalGiven(call, answer, s.now));
      if answer == Answered(Approved) {
        ExecutedOrStopped(c, asked, call);
        if Ran(asked, end, call) {
          var i :| |asked.trace| <= i < |end.trace| && end.trace[i].ExecutionStarted? && end.trace[i].call == call;
        }
      }
    }
  }

  // ---- When a model call is repeated -----------------------------------------

  /** The call of this attempt was made, and ended in a failure the provider calls recoverable. */
  predicate EndedRecoverably(s: Run, s': Run, turn: nat, step: nat) {
    && |s'.trace| > |s.trace|
    && s'.trace[|s'.trace| - 1] == Emitted(LlmCallEnded(turn, step, s.now, CallFailed(RequestFailure(Recoverable))))
  }

  /** An attempt is followed by another exactly after a recoverable failure, while retries remain and nobody cancelled. */
  lemma RetriesIffRecoverable(c: Context, s: Run, input: TurnInput, turn: nat, step: nat, request: ModelRequest, attempt: nat)
    ensures var attempted := Attempt(c, s, input, turn, step, request, attempt);
            attempted.1.None? <==>
              && EndedRecoverably(s, attempted.0, turn, step)
              && attempt < input.policy.maxLlmRetries
              && !IsCancelled(c, attempted.0.now - 1)
  {
    if !IsCancelled(c, s.now) {
      var s1 := s.Tick().Show(LlmCallStarted(turn, step, s.now)).Observe(Requested(s.now, request));
      var stream := c.world.stream(s1.now);
      var call := ModelCall(c, s1, NewState(input.config.model), turn, step, s.now, stream, 0);
      ModelCallAsks(c, s1, NewState(input.config.model), turn, step, s.now, stream, 0, |s1.trace|, request);
      SettleRetries(c, call.0, input, turn, step, s.now, call.1, attempt);
    }
  }

  lemma SettleRetries(c: Context, s: Run, input: TurnInput, turn: nat, step: nat, llmCallId: Id,
                      result: Result<ModelResponse, LlmError>, attempt: nat)
    ensures var settled := Settle(c, s, input, turn, step, llmCallId, result, attempt);
            var ended := Emitted(LlmCallEnded(turn, step, llmCallId, CallFailed(RequestFailure(Recoverable))));
            && |settled.0.trace| == |s.trace| + 1
            && (settled.1.None? <==>
                  settled.0.trace[|s.trace|] == ended && attempt < input.policy.maxLlmRetries
                  && !IsCancelled(c, settled.0.now - 1))
  {
  }
}
