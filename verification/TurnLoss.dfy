/** When a turn leaves the log open: exactly when a call or a result of its last round could not be appended. */
module TurnLoss {
  import opened Protocol
  import opened Tools
  import opened SessionTypes
  import opened SessionStores
  import opened Materialize
  import opened LogGrammar
  import opened ResponseBuilder
  import opened ResponseActions
  import opened ToolRuntimes
  import opened TurnEvents
  import opened TurnSpec
  import opened TurnLog
  import opened TurnStory

  // ---- An unanswered call leaves the log open --------------------------------

  /** Fewer than `n` increasing positions below `n` leave one out. */
  lemma {:induction false} LeftOut(positions: seq<nat>, n: nat) returns (k: nat)
    requires |positions| < n
    requires forall i :: 0 <= i < |positions| ==> positions[i] < n
    requires forall i, j :: 0 <= i < j < |positions| ==> positions[i] < positions[j]
    ensures k < n && k !in positions
    decreases n
  {
    if positions == [] || positions[|positions| - 1] != n - 1 {
      k := n - 1;
      forall i | 0 <= i < |positions| ensures positions[i] != k {
        assert positions[i] <= positions[|positions| - 1];
      }
    } else {
      k := LeftOut(positions[..|positions| - 1], n - 1);
    }
  }

  lemma LeftOutIsUnanswered(results: seq<ToolResult>, calls: seq<ToolCall>, positions: seq<nat>, k: nat)
    requires DistinctIds(calls) && AnswersAt(results, calls, positions, 0) && k < |calls| && k !in positions
    ensures calls[k].toolUseId !in ResultIds(results)
  {
    forall i | 0 <= i < |results| ensures results[i].toolUseId != calls[k].toolUseId {
      assert Answers(results[i], calls[positions[i]]);
      assert positions[i] < k || k < positions[i] by { assert positions[i] in positions; }
    }
  }

  lemma SomeCallUnanswered(results: seq<ToolResult>, calls: seq<ToolCall>, positions: seq<nat>) returns (id: string)
    requires DistinctIds(calls) && AnswersAt(results, calls, positions, 0) && |results| < |calls|
    ensures id in CallMap(calls) && id !in ResultIds(results)
  {
    var k := LeftOut(positions, |calls|);
    LeftOutIsUnanswered(results, calls, positions, k);
    CallMapLookup(calls);
    id := calls[k].toolUseId;
  }

  lemma RestStaysOpen(messages: seq<Message>, f: Footprint)
    requires DistinctIds(f.calls) && AnswersAt(f.results, f.calls, f.positions, 0) && |f.results| < |f.calls|
    ensures var scan := ScanFrom(Scan(messages, Idle), CallBodies(f.calls) + ResultBodies(f.results));
            scan.Ok? && !scan.value.phase.Idle?
  {
    AnswersSettle(f.results, f.calls, f.positions);
    ScanRound(messages, f.calls, f.results);
    var id := SomeCallUnanswered(f.results, f.calls, f.positions);
    assert id in CallMap(f.calls) - ResultIds(f.results);
  }

  lemma FootprintStaysOpen(messages: seq<Message>, f: Footprint, blocks: seq<ContentBlock>)
    requires f.marker == Marker(blocks)
    requires DistinctIds(f.calls) && AnswersAt(f.results, f.calls, f.positions, 0) && |f.results| < |f.calls|
    ensures var scan := ScanFrom(Scan(messages, Idle), FootprintBodies(f)); scan.Ok? && !scan.value.phase.Idle?
  {
    ScanMarker(messages, blocks);
    Regroup(f.marker, CallBodies(f.calls), ResultBodies(f.results));
    ScanAppend(Scan(messages, Idle), f.marker, CallBodies(f.calls) + ResultBodies(f.results));
    RestStaysOpen(messages + MarkerMessages(f.marker), f);
  }

  lemma FewerResultsStayOpen(s: Run, s': Run, turn: nat, f: Footprint, action: ResponseAction)
    requires Closed(s.log) && Adds(s, s', turn, FootprintBodies(f)) && Leaves(f, action)
    requires DistinctIds(CallsOfAction(action)) && f.calls == CallsOfAction(action) && |f.results| < |f.calls|
    ensures !Closed(s'.log)
  {
    ScanAppend(START, Bodies(s.log), FootprintBodies(f));
    ClosedScan(s.log);
    FootprintStaysOpen(Materialized(s.log).value, f, action.assistantBlocks);
  }

  // ---- A lost result ----------------------------------------------------------

  /** The round was aborted, and the commit of a result or of a cleanup failed. */
  predicate LostResult(r: TurnOutcome) {
    r.Err? && r.error.RoundAborted? && !RoundLossless(Some(r.error))
  }

  lemma RoundLosesResult(c: Context, s: Run, s1: Run, s2: Run, turn: nat, action: ResponseAction)
    requires Closed(s.log) && Adds(s, s1, turn, Marker(action.assistantBlocks)) && action.ToolRound?
    requires DistinctIds(action.calls) && forall i :: 0 <= i < |action.calls| ==> WellNamed(action.calls[i])
    requires var rounded := Rounded(c, s1, turn, action.calls);
             s2.log == rounded.0.log && rounded.1.Some? && rounded.1.value.RoundAborted? && !RoundLossless(rounded.1)
    ensures !Closed(s2.log)
  {
    var f := RoundLeaves(c, s, s1, turn, action);
    SameLogAdds(s, Rounded(c, s1, turn, action.calls).0, s2, turn, FootprintBodies(f));
    FewerResultsStayOpen(s, s2, turn, f, action);
  }

  // ---- Every exit of a turn ---------------------------------------------------

  predicate EndsInCall(log: seq<SessionItem>) {
    log != [] && log[|log| - 1].body.CallItem?
  }

  /** An append failed while the calls of a round were being recorded, after the first of them. */
  predicate LostCall(r: TurnOutcome, log: seq<SessionItem>) {
    r.Err? && r.error.CommitFailed? && EndsInCall(log)
  }

  predicate Loses(r: TurnOutcome, log: seq<SessionItem>) {
    LostResult(r) || LostCall(r, log)
  }

  lemma ClosedEndsInNoCall(log: seq<SessionItem>)
    requires Closed(log)
    ensures !EndsInCall(log)
  {
    if log != [] {
      var bodies := Bodies(log);
      assert bodies == bodies[..|bodies| - 1] + [bodies[|bodies| - 1]];
      ScanSnoc(START, bodies[..|bodies| - 1], bodies[|bodies| - 1]);
    }
  }

  lemma SameBodiesClose(s: Run, s1: Run, turn: nat)
    requires Closed(s.log) && Adds(s, s1, turn, [])
    ensures Closed(s1.log) && !EndsInCall(s1.log)
  {
    assert Bodies(s.log) + [] == Bodies(s.log);
    ClosedEndsInNoCall(s1.log);
  }

  lemma CallsDecideClosing(s: Run, s1: Run, turn: nat, calls: seq<ToolCall>)
    requires Closed(s.log) && Adds(s, s1, turn, CallBodies(calls))
    ensures Closed(s1.log) <==> !EndsInCall(s1.log)
  {
    if calls == [] {
      assert CallBodies(calls) == [];
      SameBodiesClose(s, s1, turn);
    } else {
      assert Bodies(s1.log)[|s1.log| - 1] == CallBodies(calls)[|calls| - 1];
      if Closed(s1.log) { ClosedEndsInNoCall(s1.log); }
    }
  }

  /** Recording that stops at a failed append leaves the log closed exactly if no call has got into it. */
  lemma RecordingClosesIff(c: Context, s: Run, turn: nat, calls: seq<ToolCall>)
    requires Closed(s.log) && LastAtMost(s.log, turn) && RecordCalls(c, s, turn, calls, 0).1.Some?
    requires forall i :: 0 <= i < |calls| ==> WellNamed(calls[i])
    ensures var log := RecordCalls(c, s, turn, calls, 0).0.log; Closed(log) <==> !EndsInCall(log)
  {
    var recorded := RecordCalls(c, s, turn, calls, 0).0;
    var n := RecordCallsAdds(c, s, turn, calls, 0);
    CallsDecideClosing(s, recorded, turn, calls[0..n]);
  }

  /** A response whose round was not carried through: its text, its calls or a result could not be appended. */
  lemma FailedActClosesIff(c: Context, s: Run, input: TurnInput, config: CallConfig, turn: nat, step: nat,
                           response: ModelResponse, action: ResponseAction, llmCallId: Id, acted: (Run, StepResult))
    requires Closed(s.log) && LastAtMost(s.log, turn) && Classified(response) == Ok(action)
    requires acted == Act(c, s, input, config, turn, step, response, action, llmCallId) && !StepLossless(acted.1)
    ensures Closed(acted.0.log) <==> !Loses(acted.1.outcome, acted.0.log)
  {
    ActionIsUsable(response, action);
    FinalizeAdds(c, s, turn, llmCallId, action.assistantBlocks);
    ActCases(c, s, input, config, turn, step, response, action, llmCallId);
    var finalized := Emit(c, s, AssistantFinalized(turn, llmCallId, action.assistantBlocks));
    if finalized.1.Some? {
      SameBodiesClose(s, finalized.0, turn);
      assert acted.1 == Stop(Err(CommitFailed(finalized.1.value)));
    } else {
      ReplyMaterializes(s, finalized.0, turn, action.assistantBlocks);
      if RecordCalls(c, finalized.0, turn, action.calls, 0).1.Some? {
        RecordingClosesIff(c, finalized.0, turn, action.calls);
      } else {
        RoundError(c, RecordCalls(c, finalized.0, turn, action.calls, 0).0, turn, action.calls, 0);
        RoundLosesResult(c, s, finalized.0, acted.0, turn, action);
      }
    }
  }

  lemma ActClosesIff(c: Context, s: Run, input: TurnInput, config: CallConfig, turn: nat, step: nat,
                     response: ModelResponse, action: ResponseAction, llmCallId: Id)
    requires Closed(s.log) && LastAtMost(s.log, turn) && Classified(response) == Ok(action)
    ensures var acted := Act(c, s, input, config, turn, step, response, action, llmCallId);
            Closed(acted.0.log) <==> !(acted.1.Stop? && Loses(acted.1.outcome, acted.0.log))
  {
    var acted := Act(c, s, input, config, turn, step, response, action, llmCallId);
    if StepLossless(acted.1) {
      ActionIsUsable(response, action);
      var f := ActAdds(c, s, input, config, turn, step, response, action, llmCallId);
      AddedFootprint(s, acted.0, turn, f, action);
    } else {
      FailedActClosesIff(c, s, input, config, turn, step, response, action, llmCallId, acted);
    }
  }

  lemma StepClosesIff(c: Context, s: Run, input: TurnInput, config: CallConfig, turn: nat, step: nat)
    requires Closed(s.log) && LastAtMost(s.log, turn)
    ensures var stepped := Step(c, s, input, config, turn, step);
            Closed(stepped.0.log) <==> !(stepped.1.Stop? && Loses(stepped.1.outcome, stepped.0.log))
  {
    if !IsCancelled(c, s.now) {
      var request := Compile(input, config, Materialized(s.log).value);
      var attempts := Attempts(c, s.Tick(), input, turn, step, request, 0);
      AttemptsKeepLog(c, s.Tick(), input, turn, step, request, 0);
      AttemptsNeverBlameHistory(c, s.Tick(), input, turn, step, request, 0);
      if attempts.1.Got? {
        ActClosesIff(c, attempts.0, input, config, turn, step, attempts.1.response, attempts.1.action, attempts.1.llmCallId);
      }
    }
  }

  lemma {:induction false} StepsCloseIff(c: Context, s: Run, input: TurnInput, config: CallConfig, turn: nat, step: nat,
                                         end: (Run, TurnOutcome))
    requires step <= input.policy.maxSteps && Closed(s.log) && LastAtMost(s.log, turn)
    requires end == Steps(c, s, input, config, turn, step)
    ensures Closed(end.0.log) <==> !Loses(end.1, end.0.log)
    decreases input.policy.maxSteps - step
  {
    if step < input.policy.maxSteps {
      StepClosesIff(c, s, input, config, turn, step);
      var stepped := Step(c, s, input, config, turn, step);
      if stepped.1.Continue? {
        StepFacts(c, s, input, config, turn, step);
        StepsCloseIff(c, stepped.0, input, stepped.1.config, turn, step + 1, end);
      }
    }
  }

  /**
   * On every exit, the log materializes after the turn exactly if it did before and the turn has neither been aborted
   * in a round with a failed commit or cleanup, nor ended in a failed commit with a call as the last item of the log.
   */
  lemma TurnClosesIff(c: Context, s: Run, input: TurnInput)
    ensures var end := Turn(c, s, input);
            Closed(end.0.log) <==> Closed(s.log) && !LostResult(end.1) && !LostCall(end.1, end.0.log)
  {
    if !Closed(s.log) {
      OpenLogRefusesTurns(c, s, input);
    } else if Preflight(c, s, input).Ok? {
      PreflightTurn(c, s, input);
      var turn := Preflight(c, s, input).value;
      var s1 := s.Tick().Tick().Show(TurnStarted(turn));
      if !IsCancelled(c, s1.now) {
        PromptKeepsClosed(c, s1.Tick(), turn, input.text);
        var prompted := Emit(c, s1.Tick(), UserPromptCommitted(turn, input.text));
        if prompted.1.Some? {
          ClosedEndsInNoCall(prompted.0.log);
        } else {
          StepsCloseIff(c, prompted.0, input, input.config, turn, 0, Turn(c, s, input));
        }
      }
    }
  }

  // ---- It can happen ---------------------------------------------------------

  /** A provider that asks for two tools, a session whose appends fail from some time on, and no tools. */
  function LossyContext(from: nat, sessionId: Id): Context {
    Context(World(time => AskingStream(), time => HandlerFailed, time => ExecutorFailed, time => 0, time => time < from),
            None, sessionId, ToolRuntime(map[], map[], false))
  }

  const FIRST := ToolCall("t", "x", Json("{}"))

  const SECOND := ToolCall("u", "x", Json("{}"))

  function AskingStream(): ModelStream {
    ModelStream([StreamItem(0, Ok(ToolUseStarted("t", "x"))),
                 StreamItem(0, Ok(ToolUseFinished("t", "x", Json("{}")))),
                 StreamItem(0, Ok(ToolUseStarted("u", "x"))),
                 StreamItem(0, Ok(ToolUseFinished("u", "x", Json("{}")))),
                 StreamItem(0, Ok(Finished(ToolUseStop, None, None)))], 0)
  }

  function AskingResponse(model: string): ModelResponse {
    ModelResponse([ToolUse("t", "x", Json("{}")), ToolUse("u", "x", Json("{}"))], ToolUseStop, None, Some(model), None)
  }

  lemma ToolFolds(b: BuilderState, id: string, name: string, input: Json) returns (started: BuilderState, ended: BuilderState)
    requires !b.finished && b.openPart.NoPart? && b.openTools == []
    ensures Applied(b, ToolUseStarted(id, name)) == (started, None)
    ensures Applied(started, ToolUseFinished(id, name, input)) == (ended, None)
    ensures ended == b.(content := b.content + [ToolUse(id, name, input)])
  {
    started := b.(openTools := [OpenTool(id, name, "", None)]);
    assert b.openTools + [OpenTool(id, name, "", None)] == started.openTools;
    var done := OpenTool(id, name, "", Some((name, input)));
    var queued := started.(openTools := [done]);
    assert started.openTools[0 := done] == [done];
    ended := b.(content := b.content + [ToolUse(id, name, input)]);
    assert queued.content + [FinishedBlock(done)] == ended.content && queued.openTools[1..] == [];
    assert FlushedTools(queued) == FlushedTools(ended) == ended;
  }

  lemma AskingCall(c: Context, s: Run, turn: nat, step: nat, id: Id, model: string)
    requires c.cancelAt.None?
    ensures var call := ModelCall(c, s, NewState(model), turn, step, id, AskingStream(), 0);
            call.0.log == s.log && call.0.now == s.now + 6 && call.1 == Ok(AskingResponse(model))
  {
    var b0 := NewState(model);
    var b1, b2 := ToolFolds(b0, "t", "x", Json("{}"));
    var b3, b4 := ToolFolds(b2, "u", "x", Json("{}"));
    var b5 := b4.(stopReason := Some(ToolUseStop), finished := true);
    assert b5.content == AskingResponse(model).content;
    var s1 := CallMoves(c, s, b0, b1, turn, step, id, 0);
    var s2 := CallMoves(c, s1, b1, b2, turn, step, id, 1);
    var s3 := CallMoves(c, s2, b2, b3, turn, step, id, 2);
    var s4 := CallMoves(c, s3, b3, b4, turn, step, id, 3);
    var s5 := CallMoves(c, s4, b4, b5, turn, step, id, 4);
  }

  lemma CallMoves(c: Context, s: Run, b: BuilderState, b': BuilderState, turn: nat, step: nat, id: Id, i: nat) returns (s': Run)
    requires c.cancelAt.None? && i < |AskingStream().items|
    requires Applied(b, AskingStream().items[i].item.value) == (b', None)
    ensures s'.log == s.log && s'.now == s.now + 1
    ensures ModelCall(c, s, b, turn, step, id, AskingStream(), i) == ModelCall(c, s', b', turn, step, id, AskingStream(), i + 1)
  {
    s' := s.Wait(0).Show(MessageUpdate(turn, step, id, SnapshotOf(b')));
  }

  lemma AskingClassified(model: string)
    ensures Classified(AskingResponse(model)) == Ok(ToolRound([], [FIRST, SECOND]))
  {
    var content := AskingResponse(model).content;
    assert content[..1][..0] == [] && content[..1] == [ToolUse("t", "x", Json("{}"))];
    assert !IsWhitespace("t"[0]) && !IsWhitespace("u"[0]) && !IsWhitespace("x"[0]);
    assert SplitBlocks([]) == Ok(([], [])) && CallIds([]) == {} && [] + [FIRST] == [FIRST];
    assert SplitBlocks(content[..1]) == Ok(([], [FIRST]));
    assert [FIRST] + [SECOND] == [FIRST, SECOND];
  }

  lemma AskingAttempts(c: Context, s: Run, input: TurnInput, turn: nat, step: nat, request: ModelRequest)
    requires c.cancelAt.None? && forall time: nat :: c.world.stream(time) == AskingStream()
    ensures var attempts := Attempts(c, s, input, turn, step, request, 0);
            && attempts.0.log == s.log && attempts.0.now == s.now + 7
            && attempts.1 == Got(AskingResponse(input.config.model), ToolRound([], [FIRST, SECOND]), s.now)
  {
    var s1 := s.Tick().Show(LlmCallStarted(turn, step, s.now)).Observe(Requested(s.now, request));
    AskingCall(c, s1, turn, step, s.now, input.config.model);
    AskingClassified(input.config.model);
    assert c.world.stream(s1.now) == AskingStream();
  }

  /** Item number `n` of the session, committed in its first turn. */
  function Item(time: nat, n: nat, sessionId: Id, body: ItemBody): SessionItem {
    SessionItem(SessionItemBase(time, n, sessionId, 0, time), body)
  }

  function Prompted(input: TurnInput, sessionId: Id): seq<SessionItem> {
    [Item(3, 0, sessionId, UserMessage(input.text))]
  }

  /** The prompt and a call. */
  function OneCall(input: TurnInput, sessionId: Id): seq<SessionItem> {
    Prompted(input, sessionId) + [Item(12, 1, sessionId, CallItem(FIRST))]
  }

  function BothCalls(input: TurnInput, sessionId: Id): seq<SessionItem> {
    OneCall(input, sessionId) + [Item(13, 2, sessionId, CallItem(SECOND))]
  }

  lemma LossyRecording(from: nat, s: Run, input: TurnInput, sessionId: Id)
    requires s.now == 12 && s.log == Prompted(input, sessionId) && from > 12
    ensures var recorded := RecordCalls(LossyContext(from, sessionId), s, 0, [FIRST, SECOND], 0);
            if from == 13 then recorded.0.log == OneCall(input, sessionId) && recorded.1 == Some(AppendFailed)
            else recorded.0.log == BothCalls(input, sessionId) && recorded.1.None? && recorded.0.now == 14
  {
    var c, calls := LossyContext(from, sessionId), [FIRST, SECOND];
    assert !IsWhitespace("t"[0]) && !IsWhitespace("u"[0]) && !IsWhitespace("x"[0]);
    var s1 := Emit(c, s, ToolCallRecorded(0, FIRST)).0;
    assert s1.log == OneCall(input, sessionId) && s1.now == 13;
    RecordCallsUnfold(c, s, 0, calls, 0);
    RecordCallsUnfold(c, s1, 0, calls, 1);
  }

  lemma ResultLost(c: Context, s: Run, turn: nat, result: ToolResult, call: ToolCall)
    requires LastAtMost(s.log, turn) && WellNamed(call) && Answers(result, call) && !c.world.appendOk(s.now)
    ensures Emit(c, s, ToolResultRecorded(turn, result)) == (s.Tick(), Some(AppendFailed))
  {
  }

  lemma LossyRound(s: Run, input: TurnInput, sessionId: Id)
    requires s.now == 14 && s.log == BothCalls(input, sessionId)
    ensures var round := ToolRoundFrom(LossyContext(15, sessionId), s, 0, [FIRST, SECOND], 0);
            round == (s.Tick().Tick().Tick(), Some(RoundAborted(None, Some(AppendFailed), [AppendFailed])))
  {
    var c, calls := LossyContext(15, sessionId), [FIRST, SECOND];
    var s1 := s.Tick();
    var result := WithStatus(FIRST, UnknownTool, PlainText("unknown tool: " + FIRST.name));
    assert ExecuteCall(c, s, FIRST) == (s1, Completed(result));
    assert !IsWhitespace("t"[0]) && !IsWhitespace("u"[0]) && !IsWhitespace("x"[0]);
    ResultLost(c, s1, 0, result, FIRST);
    ResultLost(c, s1.Tick(), 0, ParentCancelled(SECOND), SECOND);
    CloseRemainingUnfold(c, s1.Tick(), 0, calls, 1, []);
    assert NotedError([], Some(AppendFailed)) == [AppendFailed];
    assert CloseRemaining(c, s1.Tick().Tick(), 0, calls, 2, [AppendFailed]) == (s1.Tick().Tick(), [AppendFailed]);
    assert CloseRemaining(c, s1.Tick(), 0, calls, 1, []) == (s1.Tick().Tick(), [AppendFailed]);
  }

  /** The turn from its prompt on. */
  lemma LossyStep(from: nat, s: Run, input: TurnInput, sessionId: Id)
    requires from == 13 || from == 15
    requires s.now == 4 && s.log == Prompted(input, sessionId) && Closed(s.log) && input.policy.maxSteps > 0
    ensures var end := Steps(LossyContext(from, sessionId), s, input, input.config, 0, 0);
            if from == 13 then end.0.log == OneCall(input, sessionId) && end.1 == Err(CommitFailed(AppendFailed))
            else end.0.log == BothCalls(input, sessionId) && end.1 == Err(RoundAborted(None, Some(AppendFailed), [AppendFailed]))
  {
    var c, request := LossyContext(from, sessionId), Compile(input, input.config, Materialized(s.log).value);
    AskingAttempts(c, s.Tick(), input, 0, 0, request);
    var attempts := Attempts(c, s.Tick(), input, 0, 0, request, 0);
    var finalized := Emit(c, attempts.0, AssistantFinalized(0, attempts.1.llmCallId, []));
    LossyRecording(from, finalized.0, input, sessionId);
    if from == 15 {
      LossyRound(RecordCalls(c, finalized.0, 0, [FIRST, SECOND], 0).0, input, sessionId);
    }
    assert Step(c, s, input, input.config, 0, 0) ==
           Act(c, attempts.0, input, input.config, 0, 0, attempts.1.response, attempts.1.action, attempts.1.llmCallId);
  }

  /**
   * In a fresh session, appends that fail from time 3 on leave nothing, from time 13 on the prompt and the first call,
   * and from time 15 on the prompt and both calls.
   */
  lemma LossyTurn(from: nat, input: TurnInput, sessionId: Id)
    requires ValidPolicy(input.policy) && input.text != "" && (from == 3 || from == 13 || from == 15)
    ensures var end := Turn(LossyContext(from, sessionId), Run([], [], 0), input);
            && end.0.log == (if from == 3 then [] else if from == 13 then OneCall(input, sessionId) else BothCalls(input, sessionId))
            && end.1 == Err(if from == 15 then RoundAborted(None, Some(AppendFailed), [AppendFailed]) else CommitFailed(AppendFailed))
  {
    var c, s := LossyContext(from, sessionId), Run([], [], 0);
    assert Materialized([]) == Ok([]) by { assert Bodies([]) == []; }
    var s1 := s.Tick().Tick().Show(TurnStarted(0)).Tick();
    if from > 3 {
      var prompted := Emit(c, s1, UserPromptCommitted(0, input.text));
      assert prompted.0.log == Prompted(input, sessionId) && prompted.0.now == 4 && prompted.1.None?;
      PromptAsked(c, s1, 0, input.text);
      LossyStep(from, prompted.0, input, sessionId);
    }
  }

  /** The error alone does not tell: a lost prompt and a lost call are reported alike, and only the call leaves the log open. */
  lemma ErrorAloneDoesNotTell(input: TurnInput, sessionId: Id)
    requires ValidPolicy(input.policy) && input.text != ""
    ensures var prompt := Turn(LossyContext(3, sessionId), Run([], [], 0), input);
            var call := Turn(LossyContext(13, sessionId), Run([], [], 0), input);
            prompt.1 == call.1 && Closed(prompt.0.log) && !Closed(call.0.log)
  {
    LossyTurn(3, input, sessionId);
    LossyTurn(13, input, sessionId);
    TurnClosesIff(LossyContext(13, sessionId), Run([], [], 0), input);
    assert Materialized([]) == Ok([]) by { assert Bodies([]) == []; }
  }

  /**
   * So a lost call or a lost result leaves a log that is open, can still be forked at its last item, and refuses every
   * turn from then on, in the parent and in every fork.
   */
  lemma DanglingForkIsReachable(from: nat, input: TurnInput, parent: Id, child: Id, c: Context, time: nat, next: TurnInput)
    requires ValidPolicy(input.policy) && input.text != "" && (from == 13 || from == 15)
    ensures var log := Turn(LossyContext(from, parent), Run([], [], 0), input).0.log;
            && log != [] && !Closed(log) && IsTurnBoundary(log, |log| - 1)
            && var fork := Run(ForkedItems(log, |log|, child), [], time);
               !Closed(fork.log) && Turn(c, fork, next).1.Err? && Turn(c, fork, next).0.log == fork.log
               && Turn(c, fork, next).0.trace == []
  {
    var log := Turn(LossyContext(from, parent), Run([], [], 0), input).0.log;
    LossyTurn(from, input, parent);
    TurnClosesIff(LossyContext(from, parent), Run([], [], 0), input);
    ForkWholeStaysOpen(log, child);
    OpenLogRefusesTurns(c, Run(ForkedItems(log, |log|, child), [], time), next);
  }

  lemma ForkWholeStaysOpen(log: seq<SessionItem>, child: Id)
    requires !Closed(log)
    ensures !Closed(ForkedItems(log, |log|, child))
  {
    assert Bodies(ForkedItems(log, |log|, child)) == Bodies(log);
  }
}
