/** What the provider is asked, how each model call ends, and that nothing starts once the token is cancelled. */
module TurnRequests {
  import opened Protocol
  import opened SessionTypes
  import opened SessionStores
  import opened Materialize
  import opened ResponseBuilder
  import opened StreamFold
  import opened ResponseActions
  import opened TurnEvents
  import opened TurnSpec
  import opened TurnLog
  import opened TurnLedger
  import opened TurnStory

  // ---- How a model call ends -----------------------------------------------

  /** When the item is waited for, if the call's stream is opened at `start`. */
  function TimeAt(items: seq<StreamItem>, start: nat, i: nat): nat
    requires i <= |items|
  {
    if i == 0 then start else TimeAt(items, start, i - 1) + items[i - 1].delay + 1
  }

  /** The token is cancelled before the wait is over. */
  predicate CutOff(c: Context, time: nat, delay: nat) {
    c.cancelAt.Some? && delay > 0 && c.cancelAt.value < time + delay
  }

  predicate Unrecovered(r: Result<ModelResponse, LlmError>) {
    r.Err? && r.error.RequestFailed? && r.error.kind.Unrecoverable?
  }

  /** The first events of the stream came in time and were taken. */
  predicate CameIn(c: Context, start: nat, model: string, stream: ModelStream, events: seq<ModelStreamEvent>) {
    && |events| <= |stream.items| && Fold(model, events).Some?
    && forall j :: 0 <= j < |events| ==> CameAt(c, start, stream.items, events, j)
  }

  predicate CameAt(c: Context, start: nat, items: seq<StreamItem>, events: seq<ModelStreamEvent>, j: nat)
    requires j < |events| <= |items|
  {
    items[j].item == Ok(events[j]) && !CutOff(c, TimeAt(items, start, j), items[j].delay)
  }

  /**
   * The call ends behind these events: cancelled, with the stream's own error, with an unrecoverable error because the
   * builder refuses the next event or the stream is over too soon, or with the response.
   */
  predicate CallEnds(c: Context, start: nat, model: string, stream: ModelStream, events: seq<ModelStreamEvent>,
                     r: Result<ModelResponse, LlmError>)
    requires CameIn(c, start, model, stream, events)
  {
    var n := |events|;
    var time := TimeAt(stream.items, start, n);
    if n == |stream.items| then
      if CutOff(c, time, stream.endDelay) then r == Err(LlmCancelled(ByUser))
      else if Accepted(model, events) then r == FinishOf(Fold(model, events).value)
      else Unrecovered(r)
    else if CutOff(c, time, stream.items[n].delay) then r == Err(LlmCancelled(ByUser))
    else if stream.items[n].item.Err? then r == Err(stream.items[n].item.error)
    else Fold(model, events + [stream.items[n].item.value]).None? && Unrecovered(r)
  }

  /** One snapshot per event, of all events up to it. */
  function Updates(model: string, turn: nat, step: nat, llmCallId: Id, events: seq<ModelStreamEvent>): seq<Observation>
    requires Fold(model, events).Some?
  {
    if events == [] then []
    else
      FoldSnoc(NewState(model), events[..|events| - 1], events[|events| - 1]);
      assert events == events[..|events| - 1] + [events[|events| - 1]];
      Updates(model, turn, step, llmCallId, events[..|events| - 1]) +
      [Emitted(MessageUpdate(turn, step, llmCallId, SnapshotOf(Fold(model, events).value)))]
  }

  function Reply(llmCallId: Id, r: Result<ModelResponse, LlmError>): seq<Observation> {
    if r.Ok? then [Responded(llmCallId, r.value)] else []
  }

  lemma BuilderErrorsAreFinal(b: BuilderState, event: ModelStreamEvent)
    ensures Applied(b, event).1.Some? ==> Unrecovered(Err(Applied(b, event).1.value))
    ensures FinishOf(b).Err? ==> Unrecovered(FinishOf(b))
  {
  }

  /** The call took these events, showed a snapshot of each, and ended behind them. */
  ghost predicate CallTold(c: Context, start: nat, model: string, stream: ModelStream, turn: nat, step: nat, llmCallId: Id,
                           before: seq<Observation>, events: seq<ModelStreamEvent>, call: (Run, Result<ModelResponse, LlmError>))
  {
    && CameIn(c, start, model, stream, events) && CallEnds(c, start, model, stream, events, call.1)
    && call.0.trace == before + Updates(model, turn, step, llmCallId, events) + Reply(llmCallId, call.1)
  }

  lemma StreamEnds(c: Context, s: Run, b: BuilderState, turn: nat, step: nat, llmCallId: Id, stream: ModelStream, model: string,
                   start: nat, before: seq<Observation>, events: seq<ModelStreamEvent>, call: (Run, Result<ModelResponse, LlmError>))
    requires CameIn(c, start, model, stream, events) && |events| == |stream.items| && Fold(model, events) == Some(b)
    requires s.now == TimeAt(stream.items, start, |events|) && s.trace == before + Updates(model, turn, step, llmCallId, events)
    requires call == EndOfStream(c, s, b, llmCallId, stream.endDelay)
    ensures CallTold(c, start, model, stream, turn, step, llmCallId, before, events, call)
  {
    BuilderErrorsAreFinal(b, Finished(EndTurn, None, None));
    assert call.0.trace == s.trace + Reply(llmCallId, call.1);
  }

  lemma OneMoreCame(c: Context, start: nat, model: string, stream: ModelStream, events: seq<ModelStreamEvent>, event: ModelStreamEvent)
    requires CameIn(c, start, model, stream, events) && |events| < |stream.items|
    requires stream.items[|events|].item == Ok(event) && Fold(model, events + [event]).Some?
    requires !CutOff(c, TimeAt(stream.items, start, |events|), stream.items[|events|].delay)
    ensures CameIn(c, start, model, stream, events + [event])
  {
    var more := events + [event];
    forall j | 0 <= j < |more| ensures CameAt(c, start, stream.items, more, j) {
      if j < |events| { assert CameAt(c, start, stream.items, events, j); }
    }
  }

  /** The snapshot after one more event. */
  lemma UpdateShown(s: Run, s1: Run, turn: nat, step: nat, llmCallId: Id, model: string, before: seq<Observation>,
                    events: seq<ModelStreamEvent>, event: ModelStreamEvent)
    requires Fold(model, events).Some? && Fold(model, events + [event]).Some?
    requires s.trace == before + Updates(model, turn, step, llmCallId, events)
    requires s1.trace == s.trace + [Emitted(MessageUpdate(turn, step, llmCallId, SnapshotOf(Fold(model, events + [event]).value)))]
    ensures s1.trace == before + Updates(model, turn, step, llmCallId, events + [event])
  {
    UpdatesSnoc(model, turn, step, llmCallId, events, event);
    Regroup(before, Updates(model, turn, step, llmCallId, events),
            [Emitted(MessageUpdate(turn, step, llmCallId, SnapshotOf(Fold(model, events + [event]).value)))]);
  }

  /** A call that stops at its next item. */
  lemma CallStops(c: Context, s: Run, b: BuilderState, turn: nat, step: nat, llmCallId: Id, stream: ModelStream, model: string,
                  start: nat, before: seq<Observation>, events: seq<ModelStreamEvent>, call: (Run, Result<ModelResponse, LlmError>))
    requires CameIn(c, start, model, stream, events) && |events| < |stream.items| && Fold(model, events) == Some(b)
    requires s.now == TimeAt(stream.items, start, |events|) && s.trace == before + Updates(model, turn, step, llmCallId, events)
    requires call == ModelCall(c, s, b, turn, step, llmCallId, stream, |events|)
    requires var next := stream.items[|events|];
             CutOff(c, s.now, next.delay) || next.item.Err? || Fold(model, events + [next.item.value]).None?
    ensures CallTold(c, start, model, stream, turn, step, llmCallId, before, events, call)
  {
    assert s.trace + [] == s.trace;
    var next := stream.items[|events|];
    if next.item.Ok? {
      FoldSnoc(NewState(model), events, next.item.value);
      BuilderErrorsAreFinal(b, next.item.value);
    }
  }

  /** A call that takes its next item. */
  lemma CallGoesOn(c: Context, s: Run, b: BuilderState, turn: nat, step: nat, llmCallId: Id, stream: ModelStream, model: string,
                   events: seq<ModelStreamEvent>, event: ModelStreamEvent) returns (b': BuilderState, s1: Run)
    requires |events| < |stream.items| && Fold(model, events) == Some(b)
    requires !CutOff(c, s.now, stream.items[|events|].delay) && stream.items[|events|].item == Ok(event)
    requires Fold(model, events + [event]).Some?
    ensures Fold(model, events + [event]) == Some(b') && s1.now == s.now + stream.items[|events|].delay + 1
    ensures s1.trace == s.trace + [Emitted(MessageUpdate(turn, step, llmCallId, SnapshotOf(b')))]
    ensures ModelCall(c, s, b, turn, step, llmCallId, stream, |events|) ==
            ModelCall(c, s1, b', turn, step, llmCallId, stream, |events| + 1)
  {
    FoldSnoc(NewState(model), events, event);
    b' := Fold(model, events + [event]).value;
    s1 := s.Wait(stream.items[|events|].delay).Show(MessageUpdate(turn, step, llmCallId, SnapshotOf(b')));
  }

  lemma {:induction false} ModelCallEnds(c: Context, s: Run, b: BuilderState, turn: nat, step: nat, llmCallId: Id,
                                         stream: ModelStream, model: string, start: nat, before: seq<Observation>,
                                         events: seq<ModelStreamEvent>, call: (Run, Result<ModelResponse, LlmError>))
    returns (all: seq<ModelStreamEvent>)
    requires CameIn(c, start, model, stream, events) && s.now == TimeAt(stream.items, start, |events|)
    requires Fold(model, events) == Some(b) && s.trace == before + Updates(model, turn, step, llmCallId, events)
    requires call == ModelCall(c, s, b, turn, step, llmCallId, stream, |events|)
    ensures CallTold(c, start, model, stream, turn, step, llmCallId, before, all, call)
    decreases |stream.items| - |events|
  {
    var i := |events|;
    all := events;
    if i == |stream.items| {
      StreamEnds(c, s, b, turn, step, llmCallId, stream, model, start, before, events, call);
    } else if CutOff(c, s.now, stream.items[i].delay) || stream.items[i].item.Err?
              || Fold(model, events + [stream.items[i].item.value]).None? {
      CallStops(c, s, b, turn, step, llmCallId, stream, model, start, before, events, call);
    } else {
      var event := stream.items[i].item.value;
      var b', s1 := CallGoesOn(c, s, b, turn, step, llmCallId, stream, model, events, event);
      OneMoreCame(c, start, model, stream, events, event);
      UpdateShown(s, s1, turn, step, llmCallId, model, before, events, event);
      all := ModelCallEnds(c, s1, b', turn, step, llmCallId, stream, model, start, before, events + [event], call);
    }
  }

  lemma UpdatesSnoc(model: string, turn: nat, step: nat, llmCallId: Id, events: seq<ModelStreamEvent>, event: ModelStreamEvent)
    requires Fold(model, events).Some? && Fold(model, events + [event]).Some?
    ensures Updates(model, turn, step, llmCallId, events + [event]) ==
            Updates(model, turn, step, llmCallId, events) +
            [Emitted(MessageUpdate(turn, step, llmCallId, SnapshotOf(Fold(model, events + [event]).value)))]
  {
    assert (events + [event])[..|events|] == events;
  }

  /** How the end of a call is announced. */
  ghost predicate EndedAs(r: Result<ModelResponse, LlmError>, outcome: LlmCallOutcome) {
    match r
    case Ok(response) =>
      if UsableResponse(response) then outcome == CallSucceeded(response.stopReason, response.usage)
      else outcome == CallFailed(UnusableResponse)
    case Err(RequestFailed(kind, _)) => outcome == CallFailed(RequestFailure(kind))
    case Err(LlmCancelled(reason)) => outcome == CallCancelled(reason)
  }

  /** What an attempt hands on: its usable response, its error, or nothing if the call is to be repeated. */
  ghost predicate HandsOn(r: Result<ModelResponse, LlmError>, llmCallId: Id, next: Option<AttemptsResult>) {
    match r
    case Ok(response) =>
      if UsableResponse(response) then
        next == Some(Got(response, if response.stopReason.ToolUseStop? then ToolRound(PlainOf(response.content), CallsOf(response.content))
                                   else Terminal(PlainOf(response.content)), llmCallId))
      else next.Some? && next.value.GaveUp? && next.value.error.InvalidResponse?
    case Err(error) =>
      || next == Some(GaveUp(ModelFailed(error)))
      || (error.RequestFailed? && error.kind.Recoverable? && (next.None? || next == Some(GaveUp(CancelledInBackoff))))
  }

  lemma SettleTells(c: Context, s: Run, input: TurnInput, turn: nat, step: nat, llmCallId: Id,
                    r: Result<ModelResponse, LlmError>, attempt: nat) returns (outcome: LlmCallOutcome)
    ensures var settled := Settle(c, s, input, turn, step, llmCallId, r, attempt);
            && settled.0.trace == s.trace + [Emitted(LlmCallEnded(turn, step, llmCallId, outcome))]
            && EndedAs(r, outcome) && HandsOn(r, llmCallId, settled.1)
  {
    var settled := Settle(c, s, input, turn, step, llmCallId, r, attempt);
    outcome := settled.0.trace[|s.trace|].event.outcome;
    if r.Ok? { ClassifiesIffUsable(r.value); }
  }

  /** What an attempt shows and asks before its stream begins. */
  function Opening(turn: nat, step: nat, llmCallId: Id, request: ModelRequest): seq<Observation> {
    [Emitted(LlmCallStarted(turn, step, llmCallId)), Requested(llmCallId, request)]
  }

  /**
   * One attempt, from its start to its end, is determined by the stream that the provider gives to it: one request, one
   * snapshot per event that was taken, the response if there is one, and the end with an outcome that fits.
   */
  lemma AttemptTells(c: Context, s: Run, input: TurnInput, turn: nat, step: nat, request: ModelRequest, attempt: nat)
    returns (events: seq<ModelStreamEvent>, r: Result<ModelResponse, LlmError>, outcome: LlmCallOutcome)
    requires !CancelledBy(c, s.now)
    ensures var attempted := Attempt(c, s, input, turn, step, request, attempt);
            var model, start := input.config.model, s.now + 1;
            && CameIn(c, start, model, c.world.stream(start), events)
            && CallEnds(c, start, model, c.world.stream(start), events, r)
            && attempted.0.trace == s.trace + Opening(turn, step, s.now, request) + Updates(model, turn, step, s.now, events)
                                    + Reply(s.now, r) + [Emitted(LlmCallEnded(turn, step, s.now, outcome))]
            && EndedAs(r, outcome) && HandsOn(r, s.now, attempted.1)
  {
    var model, stream := input.config.model, c.world.stream(s.now + 1);
    var s1 := s.Tick().Show(LlmCallStarted(turn, step, s.now)).Observe(Requested(s.now, request));
    Regroup(s.trace, [Emitted(LlmCallStarted(turn, step, s.now))], [Requested(s.now, request)]);
    assert s1.trace == s.trace + Opening(turn, step, s.now, request);
    assert s1.trace == s1.trace + Updates(model, turn, step, s.now, []);
    var call := ModelCall(c, s1, NewState(model), turn, step, s.now, stream, 0);
    events := ModelCallEnds(c, s1, NewState(model), turn, step, s.now, stream, model, s.now + 1, s1.trace, [], call);
    r := call.1;
    outcome := SettleTells(c, call.0, input, turn, step, s.now, r, attempt);
  }

  lemma CancelledAttempt(c: Context, s: Run, input: TurnInput, turn: nat, step: nat, request: ModelRequest, attempt: nat)
    requires CancelledBy(c, s.now)
    ensures var attempted := Attempt(c, s, input, turn, step, request, attempt);
            attempted.0.trace == s.trace && attempted.1 == Some(GaveUp(TurnCancelled))
  {
  }

  // ---- What a turn asks -----------------------------------------------------

  /** The id of the latest response since `from` that had one, or else the one the turn began with. */
  function LatestId(trace: seq<Observation>, from: nat, given: Option<string>): Option<string> {
    if |trace| <= from then given
    else
      var last := trace[|trace| - 1];
      if last.Responded? && last.response.responseId.Some? then last.response.responseId
      else LatestId(trace[..|trace| - 1], from, given)
  }

  /** What a turn is about: the log before anything was shown, where its trace begins, and its input. */
  datatype Asking = Asking(base: seq<ItemBody>, from: nat, input: TurnInput)

  /** The request carries the system prompt, the whole conversation as committed so far, and the latest response's id. */
  predicate AsksConversation(a: Asking, trace: seq<Observation>, request: ModelRequest) {
    && request.system == a.input.systemPrompt
    && MaterializeBodies(a.base + Committed(trace)) == Ok(request.messages)
    && request.previousResponseId == LatestId(trace, a.from, a.input.config.previousResponseId)
  }

  /** What may come next in a turn. */
  predicate Proper(c: Context, a: Asking, trace: seq<Observation>, o: Observation) {
    && (o.Requested? ==> AsksConversation(a, trace, o.request))
    && (o.Emitted? && o.event.LlmCallStarted? ==> !CancelledBy(c, o.event.llmCallId))
    && (o.ExecutionStarted? ==> !CancelledBy(c, o.started))
  }

  predicate AllProper(c: Context, a: Asking, trace: seq<Observation>) {
    if |trace| <= a.from then true
    else AllProper(c, a, trace[..|trace| - 1]) && Proper(c, a, trace[..|trace| - 1], trace[|trace| - 1])
  }

  lemma {:induction false} EachIsProper(c: Context, a: Asking, trace: seq<Observation>, i: nat)
    requires AllProper(c, a, trace) && a.from <= i < |trace|
    ensures Proper(c, a, trace[..i], trace[i])
    decreases |trace|
  {
    if i < |trace| - 1 {
      EachIsProper(c, a, trace[..|trace| - 1], i);
      assert trace[..|trace| - 1][..i] == trace[..i];
    }
  }

  /** So far the turn was proper, and would go on from this id. */
  predicate Asks(c: Context, a: Asking, s: Run, id: Option<string>) {
    && Kept(a.base, s.log, s.trace)
    && a.from <= |s.trace|
    && AllProper(c, a, s.trace)
    && LatestId(s.trace, a.from, a.input.config.previousResponseId) == id
  }

  lemma ProperSnoc(c: Context, a: Asking, trace: seq<Observation>, o: Observation)
    requires AllProper(c, a, trace) && Proper(c, a, trace, o)
    ensures AllProper(c, a, trace + [o])
  {
    assert (trace + [o])[..|trace|] == trace;
  }

  lemma LatestSnoc(trace: seq<Observation>, o: Observation, from: nat, given: Option<string>)
    requires from <= |trace|
    ensures LatestId(trace + [o], from, given) ==
            if o.Responded? && o.response.responseId.Some? then o.response.responseId else LatestId(trace, from, given)
  {
    assert (trace + [o])[..|trace|] == trace;
  }

  /** More observations, none of them a request or a response. */
  lemma {:induction false} GoesOnProper(c: Context, a: Asking, trace: seq<Observation>, more: seq<Observation>)
    requires a.from <= |trace| && AllProper(c, a, trace)
    requires forall i :: 0 <= i < |more| ==> !more[i].Responded? && forall t :: Proper(c, a, t, more[i])
    ensures AllProper(c, a, trace + more)
    ensures forall given :: LatestId(trace + more, a.from, given) == LatestId(trace, a.from, given)
    decreases |more|
  {
    if more == [] {
      assert trace + more == trace;
    } else {
      var front, last := more[..|more| - 1], more[|more| - 1];
      assert trace + more == (trace + front) + [last];
      GoesOnProper(c, a, trace, front);
      ProperSnoc(c, a, trace + front, last);
      forall given ensures LatestId(trace + more, a.from, given) == LatestId(trace, a.from, given) {
        LatestSnoc(trace + front, last, a.from, given);
      }
    }
  }

  function IdAfter(response: ModelResponse, id: Option<string>): Option<string> {
    if response.responseId.Some? then response.responseId else id
  }

  /** So far the turn was proper, and this is the request to go on with. */
  predicate ReadyFor(c: Context, a: Asking, trace: seq<Observation>, request: ModelRequest) {
    && a.from <= |trace| && AllProper(c, a, trace) && AsksConversation(a, trace, request)
  }

  lemma OpeningIsProper(c: Context, a: Asking, trace: seq<Observation>, turn: nat, step: nat, llmCallId: Id, request: ModelRequest)
    requires ReadyFor(c, a, trace, request) && !CancelledBy(c, llmCallId)
    ensures ReadyFor(c, a, trace + Opening(turn, step, llmCallId, request), request)
  {
    var started, asked := Emitted(LlmCallStarted(turn, step, llmCallId)), Requested(llmCallId, request);
    var given := a.input.config.previousResponseId;
    ProperSnoc(c, a, trace, started);
    StillAsks(a, trace, started, request);
    ProperSnoc(c, a, trace + [started], asked);
    StillAsks(a, trace + [started], asked, request);
    Regroup(trace, [started], [asked]);
    assert [started] + [asked] == Opening(turn, step, llmCallId, request);
  }

  /** Nothing has been committed or answered in between, so the request is still the right one. */
  lemma StillAsks(a: Asking, trace: seq<Observation>, o: Observation, request: ModelRequest)
    requires a.from <= |trace| && AsksConversation(a, trace, request) && CommittedOf(o) == [] && !o.Responded?
    ensures AsksConversation(a, trace + [o], request)
  {
    LatestSnoc(trace, o, a.from, a.input.config.previousResponseId);
    CommittedSnoc(trace, o);
    assert Committed(trace) + [] == Committed(trace);
  }

  lemma {:induction false} UpdatesAreAside(model: string, turn: nat, step: nat, llmCallId: Id, events: seq<ModelStreamEvent>)
    requires Fold(model, events).Some?
    ensures forall i :: 0 <= i < |Updates(model, turn, step, llmCallId, events)| ==>
              var o := Updates(model, turn, step, llmCallId, events)[i]; o.Emitted? && o.event.MessageUpdate?
    decreases |events|
  {
    if events != [] {
      FoldSnoc(NewState(model), events[..|events| - 1], events[|events| - 1]);
      assert events == events[..|events| - 1] + [events[|events| - 1]];
      UpdatesAreAside(model, turn, step, llmCallId, events[..|events| - 1]);
    }
  }

  lemma UpdatesAreProper(c: Context, a: Asking, trace: seq<Observation>, request: ModelRequest, more: seq<Observation>)
    requires ReadyFor(c, a, trace, request)
    requires forall i :: 0 <= i < |more| ==> more[i].Emitted? && more[i].event.MessageUpdate?
    ensures ReadyFor(c, a, trace + more, request)
    decreases |more|
  {
    if more == [] {
      assert trace + more == trace;
    } else {
      var front, last := more[..|more| - 1], more[|more| - 1];
      assert trace + more == (trace + front) + [last];
      UpdatesAreProper(c, a, trace, request, front);
      ProperSnoc(c, a, trace + front, last);
      StillAsks(a, trace + front, last, request);
    }
  }

  /** One call to the provider: its id, the events it took, what came of it and how its end was announced. */
  datatype CallStory = CallStory(llmCallId: Id, events: seq<ModelStreamEvent>, r: Result<ModelResponse, LlmError>, outcome: LlmCallOutcome)

  predicate Plausible(c: Context, model: string, story: CallStory) {
    Fold(model, story.events).Some? && !CancelledBy(c, story.llmCallId)
  }

  function OfCall(model: string, turn: nat, step: nat, request: ModelRequest, story: CallStory): seq<Observation>
    requires Fold(model, story.events).Some?
  {
    Opening(turn, step, story.llmCallId, request) + Updates(model, turn, step, story.llmCallId, story.events)
    + Reply(story.llmCallId, story.r) + [Emitted(LlmCallEnded(turn, step, story.llmCallId, story.outcome))]
  }

  /** A call without a response leaves the conversation to be asked again; one with a response is the last of its step. */
  lemma CallIsProper(c: Context, a: Asking, trace: seq<Observation>, turn: nat, step: nat, request: ModelRequest, model: string,
                     story: CallStory)
    requires ReadyFor(c, a, trace, request) && Plausible(c, model, story)
    ensures var all := trace + OfCall(model, turn, step, request, story);
            && AllProper(c, a, all)
            && (story.r.Err? ==> ReadyFor(c, a, all, request))
            && LatestId(all, a.from, a.input.config.previousResponseId) ==
               if story.r.Ok? then IdAfter(story.r.value, request.previousResponseId) else request.previousResponseId
  {
    var opening, updates := Opening(turn, step, story.llmCallId, request), Updates(model, turn, step, story.llmCallId, story.events);
    var ended := Emitted(LlmCallEnded(turn, step, story.llmCallId, story.outcome));
    OpeningIsProper(c, a, trace, turn, step, story.llmCallId, request);
    UpdatesAreAside(model, turn, step, story.llmCallId, story.events);
    UpdatesAreProper(c, a, trace + opening, request, updates);
    Regroup(trace, opening, updates);
    EndIsProper(c, a, trace + opening + updates, request, story.llmCallId, story.r, ended);
    Regroup(trace, opening + updates, Reply(story.llmCallId, story.r));
    Regroup(trace, opening + updates + Reply(story.llmCallId, story.r), [ended]);
  }

  lemma EndIsProper(c: Context, a: Asking, trace: seq<Observation>, request: ModelRequest, llmCallId: Id,
                    r: Result<ModelResponse, LlmError>, ended: Observation)
    requires ReadyFor(c, a, trace, request) && ended.Emitted? && ended.event.LlmCallEnded?
    ensures var all := trace + Reply(llmCallId, r) + [ended];
            && AllProper(c, a, all)
            && (r.Err? ==> ReadyFor(c, a, all, request))
            && LatestId(all, a.from, a.input.config.previousResponseId) ==
               if r.Ok? then IdAfter(r.value, request.previousResponseId) else request.previousResponseId
  {
    var given := a.input.config.previousResponseId;
    if r.Ok? {
      ProperSnoc(c, a, trace, Responded(llmCallId, r.value));
      LatestSnoc(trace, Responded(llmCallId, r.value), a.from, given);
    } else {
      assert trace + [] == trace;
      StillAsks(a, trace, ended, request);
    }
    ProperSnoc(c, a, trace + Reply(llmCallId, r), ended);
    LatestSnoc(trace + Reply(llmCallId, r), ended, a.from, given);
  }

  /** The calls of one step. */
  function OfCalls(model: string, turn: nat, step: nat, request: ModelRequest, stories: seq<CallStory>): seq<Observation>
    requires forall i :: 0 <= i < |stories| ==> Fold(model, stories[i].events).Some?
  {
    if stories == [] then []
    else OfCall(model, turn, step, request, stories[0]) + OfCalls(model, turn, step, request, stories[1..])
  }

  /** Plausible calls of which at most the last has a response. */
  predicate PlausibleCalls(c: Context, model: string, stories: seq<CallStory>) {
    && (forall i :: 0 <= i < |stories| ==> Plausible(c, model, stories[i]))
    && (forall i :: 0 <= i < |stories| - 1 ==> stories[i].r.Err?)
  }

  function IdAfterCalls(stories: seq<CallStory>, id: Option<string>): Option<string> {
    if stories == [] || stories[|stories| - 1].r.Err? then id else IdAfter(stories[|stories| - 1].r.value, id)
  }

  lemma {:induction false} CallsAreProper(c: Context, a: Asking, trace: seq<Observation>, turn: nat, step: nat, request: ModelRequest,
                                          model: string, stories: seq<CallStory>)
    requires ReadyFor(c, a, trace, request) && PlausibleCalls(c, model, stories)
    ensures var all := trace + OfCalls(model, turn, step, request, stories);
            && AllProper(c, a, all)
            && LatestId(all, a.from, a.input.config.previousResponseId) == IdAfterCalls(stories, request.previousResponseId)
    decreases |stories|
  {
    if stories == [] {
      assert trace + [] == trace;
    } else {
      var first, later := OfCall(model, turn, step, request, stories[0]), OfCalls(model, turn, step, request, stories[1..]);
      CallIsProper(c, a, trace, turn, step, request, model, stories[0]);
      Regroup(trace, first, later);
      if |stories| == 1 {
        assert trace + first + [] == trace + first;
      } else {
        PlausibleRest(c, model, stories);
        CallsAreProper(c, a, trace + first, turn, step, request, model, stories[1..]);
      }
    }
  }

  lemma PlausibleRest(c: Context, model: string, stories: seq<CallStory>)
    requires PlausibleCalls(c, model, stories) && |stories| > 1
    ensures stories[0].r.Err? && PlausibleCalls(c, model, stories[1..])
    ensures forall id :: IdAfterCalls(stories[1..], id) == IdAfterCalls(stories, id)
  {
  }

  /** One attempt shows one call, or none if the token is cancelled before it. */
  lemma AttemptTold(c: Context, s: Run, input: TurnInput, turn: nat, step: nat, request: ModelRequest, attempt: nat,
                    attempted: (Run, Option<AttemptsResult>)) returns (stories: seq<CallStory>)
    requires attempted == Attempt(c, s, input, turn, step, request, attempt)
    ensures |stories| <= 1 && PlausibleCalls(c, input.config.model, stories)
    ensures attempted.0.trace == s.trace + OfCalls(input.config.model, turn, step, request, stories)
    ensures attempted.1.None? ==> forall i :: 0 <= i < |stories| ==> stories[i].r.Err?
    ensures attempted.1.Some? && attempted.1.value.Got? ==> stories != [] && stories[0].r == Ok(attempted.1.value.response)
    ensures attempted.1.Some? && attempted.1.value.GaveUp? && stories != [] && stories[0].r.Ok? ==> !UsableResponse(stories[0].r.value)
  {
    stories := [];
    if CancelledBy(c, s.now) {
      CancelledAttempt(c, s, input, turn, step, request, attempt);
      assert s.trace + [] == s.trace;
    } else {
      var events, r, outcome := AttemptTells(c, s, input, turn, step, request, attempt);
      var story := CallStory(s.now, events, r, outcome);
      stories := [story];
      OneCallTold(s.trace, input.config.model, turn, step, request, story);
    }
  }

  lemma OneCallTold(trace: seq<Observation>, model: string, turn: nat, step: nat, request: ModelRequest, story: CallStory)
    requires Fold(model, story.events).Some?
    ensures trace + OfCalls(model, turn, step, request, [story]) ==
            trace + Opening(turn, step, story.llmCallId, request) + Updates(model, turn, step, story.llmCallId, story.events)
            + Reply(story.llmCallId, story.r) + [Emitted(LlmCallEnded(turn, step, story.llmCallId, story.outcome))]
  {
    assert [story][1..] == [];
    assert OfCall(model, turn, step, request, story) + [] == OfCall(model, turn, step, request, story);
  }

  /** The next attempt, and whether another one follows. */
  lemma NextAttemptTold(c: Context, s: Run, input: TurnInput, turn: nat, step: nat, request: ModelRequest, attempt: nat,
                        end: (Run, AttemptsResult)) returns (stories: seq<CallStory>, s1: Run, goesOn: bool)
    requires attempt <= input.policy.maxLlmRetries
    requires end == Attempts(c, s, input, turn, step, request, attempt)
    ensures |stories| <= 1 && PlausibleCalls(c, input.config.model, stories)
    ensures s1.trace == s.trace + OfCalls(input.config.model, turn, step, request, stories)
    ensures goesOn ==> (forall i :: 0 <= i < |stories| ==> stories[i].r.Err?)
    ensures goesOn ==> end == Attempts(c, s1, input, turn, step, request, attempt + 1)
    ensures !goesOn ==> end.0 == s1 && (end.1.Got? ==> stories != [] && stories[0].r == Ok(end.1.response))
  {
    AttemptsUnfold(c, s, input, turn, step, request, attempt);
    var attempted := Attempt(c, s, input, turn, step, request, attempt);
    stories := AttemptTold(c, s, input, turn, step, request, attempt, attempted);
    s1, goesOn := attempted.0, attempted.1.None?;
  }

  /** The attempts of a step show one call each, all with the same request; only the last can have a response. */
  lemma {:induction false} AttemptsTold(c: Context, s: Run, input: TurnInput, turn: nat, step: nat, request: ModelRequest,
                                        attempt: nat, end: (Run, AttemptsResult)) returns (stories: seq<CallStory>)
    requires attempt <= input.policy.maxLlmRetries + 1
    requires end == Attempts(c, s, input, turn, step, request, attempt)
    ensures PlausibleCalls(c, input.config.model, stories)
    ensures end.0.trace == s.trace + OfCalls(input.config.model, turn, step, request, stories)
    ensures end.1.Got? ==> stories != [] && stories[|stories| - 1].r == Ok(end.1.response)
    decreases input.policy.maxLlmRetries + 1 - attempt
  {
    if attempt > input.policy.maxLlmRetries {
      stories := [];
      assert s.trace + [] == s.trace;
    } else {
      var first, s1, goesOn := NextAttemptTold(c, s, input, turn, step, request, attempt, end);
      stories := first;
      if goesOn {
        var later := AttemptsTold(c, s1, input, turn, step, request, attempt + 1, end);
        stories := CallsConcat(s.trace, c, input.config.model, turn, step, request, first, later);
      }
    }
  }

  lemma CallsConcat(trace: seq<Observation>, c: Context, model: string, turn: nat, step: nat, request: ModelRequest,
                    first: seq<CallStory>, later: seq<CallStory>) returns (stories: seq<CallStory>)
    requires |first| <= 1 && PlausibleCalls(c, model, first) && PlausibleCalls(c, model, later)
    requires forall i :: 0 <= i < |first| ==> first[i].r.Err?
    ensures stories == first + later && PlausibleCalls(c, model, stories)
    ensures trace + OfCalls(model, turn, step, request, stories) ==
            trace + OfCalls(model, turn, step, request, first) + OfCalls(model, turn, step, request, later)
  {
    stories := first + later;
    if first == [] {
      assert stories == later && trace + [] == trace;
    } else {
      assert stories[1..] == later && first[1..] == [];
      var one := OfCall(model, turn, step, request, first[0]);
      assert one + [] == one;
      Regroup(trace, one, OfCalls(model, turn, step, request, later));
    }
  }

  lemma AttemptsAsk(c: Context, a: Asking, s: Run, turn: nat, step: nat, request: ModelRequest, id: Option<string>,
                    end: (Run, AttemptsResult)) returns (next: Option<string>)
    requires Asks(c, a, s, id) && AsksConversation(a, s.trace, request)
    requires end == Attempts(c, s, a.input, turn, step, request, 0)
    ensures Asks(c, a, end.0, next)
    ensures end.1.Got? ==> next == IdAfter(end.1.response, id)
  {
    var stories := AttemptsTold(c, s, a.input, turn, step, request, 0, end);
    CallsAreProper(c, a, s.trace, turn, step, request, a.input.config.model, stories);
    AttemptsKept(c, a.base, s, a.input, turn, step, request, 0, end);
    next := IdAfterCalls(stories, id);
  }

  lemma ActAsks(c: Context, a: Asking, s: Run, config: CallConfig, turn: nat, step: nat, response: ModelResponse,
                action: ResponseAction, llmCallId: Id, id: Option<string>, acted: (Run, StepResult))
    requires Asks(c, a, s, id)
    requires acted == Act(c, s, a.input, config, turn, step, response, action, llmCallId)
    ensures Asks(c, a, acted.0, id)
  {
    var last := ActNoAsk(c, s, a.input, config, turn, step, response, action, llmCallId);
    var more, given := last.trace[|s.trace|..], a.input.config.previousResponseId;
    assert last.trace == s.trace + more;
    forall i | 0 <= i < |more| ensures Aside(c, more[i]) { assert more[i] == last.trace[|s.trace| + i]; }
    GoesOnProper(c, a, s.trace, more);
    ProperSnoc(c, a, last.trace, Emitted(TurnEnded(turn)));
    LatestSnoc(last.trace, Emitted(TurnEnded(turn)), a.from, given);
    ActKept(c, a.base, s, a.input, config, turn, step, response, action, llmCallId);
  }

  lemma ActGoesOnFrom(c: Context, s: Run, input: TurnInput, config: CallConfig, turn: nat, step: nat,
                      response: ModelResponse, action: ResponseAction, llmCallId: Id)
    ensures var acted := Act(c, s, input, config, turn, step, response, action, llmCallId);
            acted.1.Continue? ==> acted.1.config.previousResponseId == IdAfter(response, config.previousResponseId)
  {
  }

  lemma StepAsks(c: Context, a: Asking, s: Run, config: CallConfig, turn: nat, step: nat, stepped: (Run, StepResult))
    returns (next: Option<string>)
    requires Asks(c, a, s, config.previousResponseId) && Closed(s.log) && LastAtMost(s.log, turn)
    requires stepped == Step(c, s, a.input, config, turn, step)
    ensures Asks(c, a, stepped.0, next) && (stepped.1.Continue? ==> next == stepped.1.config.previousResponseId)
  {
    next := config.previousResponseId;
    if !IsCancelled(c, s.now) {
      var request := Compile(a.input, config, Materialized(s.log).value);
      var attempts := Attempts(c, s.Tick(), a.input, turn, step, request, 0);
      assert MaterializeBodies(a.base + Committed(s.trace)) == Materialized(s.log);
      next := AttemptsAsk(c, a, s.Tick(), turn, step, request, config.previousResponseId, attempts);
      if attempts.1.Got? {
        var response, action, id := attempts.1.response, attempts.1.action, attempts.1.llmCallId;
        ActAsks(c, a, attempts.0, config, turn, step, response, action, id, next, stepped);
        ActGoesOnFrom(c, attempts.0, a.input, config, turn, step, response, action, id);
      }
    }
  }

  lemma {:induction false} StepsAsk(c: Context, a: Asking, s: Run, config: CallConfig, turn: nat, step: nat, end: (Run, TurnOutcome))
    returns (next: Option<string>)
    requires step <= a.input.policy.maxSteps
    requires Asks(c, a, s, config.previousResponseId) && Closed(s.log) && LastAtMost(s.log, turn)
    requires end == Steps(c, s, a.input, config, turn, step)
    ensures Asks(c, a, end.0, next)
    decreases a.input.policy.maxSteps - step
  {
    next := config.previousResponseId;
    if step < a.input.policy.maxSteps {
      var stepped := Step(c, s, a.input, config, turn, step);
      next := StepAsks(c, a, s, config, turn, step, stepped);
      if stepped.1.Continue? {
        StepFacts(c, s, a.input, config, turn, step);
        next := StepsAsk(c, a, stepped.0, stepped.1.config, turn, step + 1, end);
      }
    }
  }

  lemma PromptAsks(c: Context, a: Asking, s: Run, turn: nat, prompted: (Run, Option<CommitError>))
    requires a.from == |s.trace| && Kept(a.base, s.log, s.trace)
    requires prompted == Emit(c, s.Tick().Tick().Show(TurnStarted(turn)).Tick(), UserPromptCommitted(turn, a.input.text))
    ensures Asks(c, a, s.Tick().Tick().Show(TurnStarted(turn)), a.input.config.previousResponseId)
    ensures Asks(c, a, prompted.0, a.input.config.previousResponseId)
  {
    var given := a.input.config.previousResponseId;
    var started, text := Emitted(TurnStarted(turn)), Emitted(UserPromptCommitted(turn, a.input.text));
    var s1 := s.Tick().Tick().Show(TurnStarted(turn));
    ProperSnoc(c, a, s.trace, started);
    LatestSnoc(s.trace, started, a.from, given);
    KeptShow(a.base, s, s1, started);
    EmitKept(c, a.base, s1.Tick(), UserPromptCommitted(turn, a.input.text));
    ProperSnoc(c, a, s1.trace, text);
    LatestSnoc(s1.trace, text, a.from, given);
  }

  /**
   * Every request of a turn, on every attempt of every step, carries the system prompt, the conversation exactly as
   * committed by then, and the id of the turn's latest response that had one, or else the one it was given. No model
   * call and no executor is started once the token is cancelled.
   */
  lemma TurnAsksTheConversation(c: Context, base: seq<ItemBody>, s: Run, input: TurnInput)
    requires Kept(base, s.log, s.trace)
    ensures var end := Turn(c, s, input).0;
            && |s.trace| <= |end.trace|
            && forall i :: |s.trace| <= i < |end.trace| ==> Proper(c, Asking(base, |s.trace|, input), end.trace[..i], end.trace[i])
  {
    var a := Asking(base, |s.trace|, input);
    if Preflight(c, s, input).Ok? {
      PreflightTurn(c, s, input);
      var turn := Preflight(c, s, input).value;
      var s1 := s.Tick().Tick().Show(TurnStarted(turn));
      var prompted := Emit(c, s1.Tick(), UserPromptCommitted(turn, input.text));
      PromptAsks(c, a, s, turn, prompted);
      PromptKeepsClosed(c, s1.Tick(), turn, input.text);
      if !IsCancelled(c, s1.now) && prompted.1.None? {
        var next := StepsAsk(c, a, prompted.0, input.config, turn, 0, Turn(c, s, input));
      }
    }
    ProperThroughout(c, a, Turn(c, s, input).0.trace);
  }

  lemma ProperThroughout(c: Context, a: Asking, trace: seq<Observation>)
    requires AllProper(c, a, trace)
    ensures forall i :: a.from <= i < |trace| ==> Proper(c, a, trace[..i], trace[i])
  {
    forall i | a.from <= i < |trace| ensures Proper(c, a, trace[..i], trace[i]) { EachIsProper(c, a, trace, i); }
  }

  /** So it is in each turn of any run of turns of a fresh loop. */
  lemma TurnsAskTheConversation(c: Context, s: Run, front: seq<TurnRequest>, last: TurnRequest)
    requires s.trace == []
    ensures var before, after := Turns(c, s, front), Turns(c, s, front + [last]);
            && |before.trace| <= |after.trace|
            && forall i :: |before.trace| <= i < |after.trace| ==>
                 Proper(c.(cancelAt := last.cancelAt), Asking(Bodies(s.log), |before.trace|, last.input), after.trace[..i], after.trace[i])
  {
    FreshLoopIsKept(s);
    TurnsKeepLedger(c, Bodies(s.log), s, front);
    assert (front + [last])[..|front|] == front;
    TurnAsksTheConversation(c.(cancelAt := last.cancelAt), Bodies(s.log), Turns(c, s, front), last.input);
  }

  // ---- The beginning and the end of a turn ------------------------------------

  predicate IsTurnMark(o: Observation) {
    o.Emitted? && (o.event.TurnStarted? || o.event.TurnEnded?)
  }

  /** The trace has only grown, without a beginning or an end of a turn. */
  predicate Within(before: seq<Observation>, after: seq<Observation>) {
    before <= after && forall i :: |before| <= i < |after| ==> !IsTurnMark(after[i])
  }

  lemma CallIsWithin(trace: seq<Observation>, model: string, turn: nat, step: nat, request: ModelRequest, story: CallStory)
    requires Fold(model, story.events).Some?
    ensures Within(trace, trace + OfCall(model, turn, step, request, story))
  {
    UpdatesAreAside(model, turn, step, story.llmCallId, story.events);
  }

  /** The calls of a step neither begin nor end a turn. */
  lemma {:induction false} CallsAreWithin(trace: seq<Observation>, model: string, turn: nat, step: nat, request: ModelRequest,
                                          stories: seq<CallStory>)
    requires forall i :: 0 <= i < |stories| ==> Fold(model, stories[i].events).Some?
    ensures Within(trace, trace + OfCalls(model, turn, step, request, stories))
    decreases |stories|
  {
    if stories != [] {
      var first, later := OfCall(model, turn, step, request, stories[0]), OfCalls(model, turn, step, request, stories[1..]);
      CallIsWithin(trace, model, turn, step, request, stories[0]);
      CallsAreWithin(trace + first, model, turn, step, request, stories[1..]);
      Regroup(trace, first, later);
    }
  }

  lemma AttemptsWithin(c: Context, s: Run, input: TurnInput, turn: nat, step: nat, request: ModelRequest, end: (Run, AttemptsResult))
    requires end == Attempts(c, s, input, turn, step, request, 0)
    ensures Within(s.trace, end.0.trace)
  {
    var stories := AttemptsTold(c, s, input, turn, step, request, 0, end);
    CallsAreWithin(s.trace, input.config.model, turn, step, request, stories);
  }

  /** Within the turn, and then its end if the outcome is to be announced. */
  predicate Announced(before: seq<Observation>, last: seq<Observation>, after: seq<Observation>, turn: nat, ends: bool) {
    Within(before, last) && after == last + if ends then [Emitted(TurnEnded(turn))] else []
  }

  lemma StepAnnounces(c: Context, s: Run, input: TurnInput, config: CallConfig, turn: nat, step: nat, stepped: (Run, StepResult))
    returns (last: seq<Observation>)
    requires Closed(s.log) && stepped == Step(c, s, input, config, turn, step)
    ensures Announced(s.trace, last, stepped.0.trace, turn, EndsTheTurn(stepped.1))
  {
    last := stepped.0.trace;
    if !IsCancelled(c, s.now) {
      var request := Compile(input, config, Materialized(s.log).value);
      var attempts := Attempts(c, s.Tick(), input, turn, step, request, 0);
      AttemptsWithin(c, s.Tick(), input, turn, step, request, attempts);
      AttemptsNeverBlameHistory(c, s.Tick(), input, turn, step, request, 0);
      if attempts.1.Got? {
        var acted := ActNoAsk(c, attempts.0, input, config, turn, step, attempts.1.response, attempts.1.action, attempts.1.llmCallId);
        AsideIsWithin(c, attempts.0, acted);
        last := acted.trace;
      }
    }
    assert stepped.0.trace + [] == stepped.0.trace;
    assert last + [] == last;
  }

  lemma AsideIsWithin(c: Context, s: Run, s': Run)
    requires NoAsk(c, s, s')
    ensures Within(s.trace, s'.trace)
  {
    forall i | |s.trace| <= i < |s'.trace| ensures !IsTurnMark(s'.trace[i]) { assert Aside(c, s'.trace[i]); }
  }

  lemma {:induction false} StepsAnnounce(c: Context, s: Run, input: TurnInput, config: CallConfig, turn: nat, step: nat,
                                         end: (Run, TurnOutcome)) returns (last: seq<Observation>)
    requires step <= input.policy.maxSteps && Closed(s.log) && LastAtMost(s.log, turn)
    requires end == Steps(c, s, input, config, turn, step)
    ensures Announced(s.trace, last, end.0.trace, turn, EndsTheTurn(Stop(end.1)))
    decreases input.policy.maxSteps - step
  {
    last := s.trace;
    assert last + [] == last;
    if step < input.policy.maxSteps {
      var stepped := Step(c, s, input, config, turn, step);
      last := StepAnnounces(c, s, input, config, turn, step, stepped);
      if stepped.1.Continue? {
        StepFacts(c, s, input, config, turn, step);
        assert last + [] == last;
        last := StepsAnnounce(c, stepped.0, input, stepped.1.config, turn, step + 1, end);
      }
    }
  }

  /** A turn begins: policy and text are usable, the log can be sent, a number is left, and nobody has cancelled. */
  predicate Begins(c: Context, s: Run, input: TurnInput) {
    && PolicyInRange(input.policy) && input.text != ""
    && !CancelledBy(c, s.now) && !CancelledBy(c, s.now + 1)
    && Closed(s.log) && (s.log == [] || s.log[|s.log| - 1].base.turn < U64_MAX)
  }

  function NextNumber(log: seq<SessionItem>): nat {
    if log == [] then 0 else log[|log| - 1].base.turn + 1
  }

  lemma BeginsIffPassed(c: Context, s: Run, input: TurnInput)
    ensures Begins(c, s, input) <==> Preflight(c, s, input).Ok?
    ensures Begins(c, s, input) ==> Preflight(c, s, input).value == NextNumber(s.log)
  {
  }

  lemma RefusedTurn(c: Context, s: Run, input: TurnInput)
    requires !Begins(c, s, input)
    ensures var end := Turn(c, s, input); end.0.trace == s.trace && end.1.Err? && !end.1.error.StepsExhausted?
  {
    BeginsIffPassed(c, s, input);
  }

  lemma BegunTurn(c: Context, s: Run, input: TurnInput, s1: Run, end: (Run, TurnOutcome)) returns (last: seq<Observation>)
    requires Begins(c, s, input) && end == Turn(c, s, input)
    requires s1 == s.Tick().Tick().Show(TurnStarted(NextNumber(s.log)))
    ensures Announced(s1.trace, last, end.0.trace, NextNumber(s.log), EndsTheTurn(Stop(end.1)))
  {
    BeginsIffPassed(c, s, input);
    PreflightTurn(c, s, input);
    var turn := NextNumber(s.log);
    var prompted := Emit(c, s1.Tick(), UserPromptCommitted(turn, input.text));
    PromptKeepsClosed(c, s1.Tick(), turn, input.text);
    last := s1.trace;
    assert last + [] == last;
    if !IsCancelled(c, s1.now) {
      last := prompted.0.trace;
      assert last + [] == last;
      if prompted.1.None? {
        last := StepsAnnounce(c, prompted.0, input, input.config, turn, 0, end);
      }
    }
  }

  /**
   * A turn shows anything exactly if it begins, first its beginning with the next number; and it shows its end, as the
   * very last thing, exactly if it returns a response or has run out of steps.
   */
  lemma TurnShowsItsEnds(c: Context, s: Run, input: TurnInput) returns (last: seq<Observation>)
    ensures var end, turn := Turn(c, s, input), if s.log == [] then 0 else s.log[|s.log| - 1].base.turn + 1;
            if Begins(c, s, input) then
              Announced(s.trace + [Emitted(TurnStarted(turn))], last, end.0.trace, turn,
                        end.1.Ok? || end.1.error.StepsExhausted?)
            else end.0.trace == s.trace && end.1.Err? && !end.1.error.StepsExhausted?
  {
    last := s.trace;
    if Begins(c, s, input) {
      last := BegunTurn(c, s, input, s.Tick().Tick().Show(TurnStarted(NextNumber(s.log))), Turn(c, s, input));
    } else {
      RefusedTurn(c, s, input);
    }
  }

  /** Cancelled before its prompt is committed, a turn commits nothing. */
  lemma CancelledBeforePrompt(c: Context, s: Run, input: TurnInput)
    requires CancelledBy(c, s.now + 2)
    ensures Turn(c, s, input).0.log == s.log
    ensures Begins(c, s, input) ==> Turn(c, s, input).1 == Err(TurnCancelled)
  {
    BeginsIffPassed(c, s, input);
  }
}
