/** What a host is shown of a turn, derived event by event. */
module ProgressEvents {
  import opened Protocol
  import opened Tools
  import opened SessionTypes
  import opened TurnEvents
  import opened TurnSpec
  import opened TurnProtocol
  import opened TurnGuarantees

  datatype ProgressEvent =
    | ShowTurnStarted(turn: nat)
    | ShowCallStarted(turn: nat, step: nat, llmCallId: Id)
    | ShowSnapshot(turn: nat, step: nat, llmCallId: Id, updateIndex: nat, snapshot: ModelResponseSnapshot)
    | ShowToolCall(turn: nat, call: ToolCall)
    | ShowToolResult(turn: nat, result: ToolResult)
    | ShowCallEnded(turn: nat, step: nat, llmCallId: Id, outcome: LlmCallOutcome)
    | ShowFinalized(turn: nat, llmCallId: Id, blocks: seq<ContentBlock>)
    | ShowTurnEnded(turn: nat)

  datatype ActiveCall = ActiveCall(turn: nat, step: nat, llmCallId: Id, nextUpdateIndex: nat)
  {
    predicate Is(turn: nat, step: nat, llmCallId: Id) {
      this.turn == turn && this.step == step && this.llmCallId == llmCallId
    }
  }

  datatype DeriveError = UpdateIndexOverflow

  type Derivation = (Option<ActiveCall>, Result<Option<ProgressEvent>, DeriveError>)

  function Derived(active: Option<ActiveCall>, event: TurnEvent): Derivation {
    match event
    case TurnStarted(turn) => (active, Ok(Some(ShowTurnStarted(turn))))
    case LlmCallStarted(turn, step, id) =>
      (Some(ActiveCall(turn, step, id, 0)), Ok(Some(ShowCallStarted(turn, step, id))))
    case MessageUpdate(turn, step, id, snapshot) =>
      if active.None? || !active.value.Is(turn, step, id) then (active, Ok(None))
      else
        var index := active.value.nextUpdateIndex;
        if index >= U32_MAX then (active, Err(UpdateIndexOverflow))
        else (Some(active.value.(nextUpdateIndex := index + 1)), Ok(Some(ShowSnapshot(turn, step, id, index, snapshot))))
    case ToolCallRecorded(turn, call) => (active, Ok(Some(ShowToolCall(turn, call))))
    case ToolResultRecorded(turn, result) => (active, Ok(Some(ShowToolResult(turn, result))))
    case LlmCallEnded(turn, step, id, outcome) =>
      (if active.Some? && active.value.Is(turn, step, id) then None else active,
       Ok(Some(ShowCallEnded(turn, step, id, outcome))))
    case AssistantFinalized(turn, id, blocks) => (active, Ok(Some(ShowFinalized(turn, id, blocks))))
    case TurnEnded(turn) => (active, Ok(Some(ShowTurnEnded(turn))))
    case _ => (active, Ok(None))
  }

  class ProgressState {
    var activeCall: Option<ActiveCall>

    constructor ()
      ensures activeCall == None
    {
      activeCall := None;
    }

    method DeriveProgress(event: TurnEvent) returns (r: Result<Option<ProgressEvent>, DeriveError>)
      modifies this
      ensures (activeCall, r) == Derived(old(activeCall), event)
    {
      match event {
        case TurnStarted(turn) => return Ok(Some(ShowTurnStarted(turn)));
        case LlmCallStarted(turn, step, id) =>
          activeCall := Some(ActiveCall(turn, step, id, 0));
          return Ok(Some(ShowCallStarted(turn, step, id)));
        case MessageUpdate(turn, step, id, snapshot) =>
          if activeCall.None? || !activeCall.value.Is(turn, step, id) {
            return Ok(None);
          }
          var updateIndex := activeCall.value.nextUpdateIndex;
          if updateIndex >= U32_MAX {
            return Err(UpdateIndexOverflow);
          }
          activeCall := Some(activeCall.value.(nextUpdateIndex := updateIndex + 1));
          return Ok(Some(ShowSnapshot(turn, step, id, updateIndex, snapshot)));
        case ToolCallRecorded(turn, call) => return Ok(Some(ShowToolCall(turn, call)));
        case ToolResultRecorded(turn, result) => return Ok(Some(ShowToolResult(turn, result)));
        case LlmCallEnded(turn, step, id, outcome) =>
          if activeCall.Some? && activeCall.value.Is(turn, step, id) {
            activeCall := None;
          }
          return Ok(Some(ShowCallEnded(turn, step, id, outcome)));
        case AssistantFinalized(turn, id, blocks) => return Ok(Some(ShowFinalized(turn, id, blocks)));
        case TurnEnded(turn) => return Ok(Some(ShowTurnEnded(turn)));
        case _ => return Ok(None);
      }
    }
  }

  /** The active call after every event of a trace has been derived in turn. */
  function Followed(trace: seq<Observation>): Option<ActiveCall> {
    if trace == [] then None
    else
      var last := trace[|trace| - 1];
      var active := Followed(trace[..|trace| - 1]);
      if last.Emitted? then Derived(active, last.event).0 else active
  }

  /** How many updates the last started call has shown. */
  function UpdatesShown(trace: seq<Observation>): nat {
    if trace == [] then 0
    else
      var last := trace[|trace| - 1];
      if !last.Emitted? then UpdatesShown(trace[..|trace| - 1])
      else if last.event.LlmCallStarted? then 0
      else UpdatesShown(trace[..|trace| - 1]) + if last.event.MessageUpdate? then 1 else 0
  }

  /** During a call exactly that call is active, and its next index is the number of updates shown. */
  predicate Tracks(active: Option<ActiveCall>, w: Watch, shown: nat) {
    if w.InCall() then
      active == Some(ActiveCall(w.turn, w.step, w.llmCallId, if shown < U32_MAX then shown else U32_MAX))
    else active == None
  }

  lemma {:induction false} ActiveCallTracksWatch(outside: Outside, trace: seq<Observation>)
    requires Watched(outside, trace).Some?
    ensures Tracks(Followed(trace), Watched(outside, trace).value, UpdatesShown(trace))
    decreases |trace|
  {
    if trace != [] {
      ActiveCallTracksWatch(outside, trace[..|trace| - 1]);
    }
  }

  /**
   * In a trace that follows the turn protocol no update is discarded: the updates of a call are numbered
   * 0, 1, 2, ..., and only an update whose number would be the largest 32-bit value, or beyond, fails.
   */
  lemma UpdatesAreNumbered(outside: Outside, trace: seq<Observation>, i: nat)
    requires Watched(outside, trace).Some? && i < |trace|
    requires trace[i].Emitted? && trace[i].event.MessageUpdate?
    ensures var update, n := trace[i].event, UpdatesShown(trace[..i]);
            Derived(Followed(trace[..i]), update).1 ==
            if n < U32_MAX then Ok(Some(ShowSnapshot(update.turn, update.step, update.llmCallId, n, update.snapshot)))
            else Err(UpdateIndexOverflow)
  {
    WatchedPrefix(outside, trace, i);
    ActiveCallTracksWatch(outside, trace[..i]);
  }

  /** The event that a host was shown. */
  function ShownFor(shown: ProgressEvent): TurnEvent {
    match shown
    case ShowTurnStarted(turn) => TurnStarted(turn)
    case ShowCallStarted(turn, step, id) => LlmCallStarted(turn, step, id)
    case ShowSnapshot(turn, step, id, _, snapshot) => MessageUpdate(turn, step, id, snapshot)
    case ShowToolCall(turn, call) => ToolCallRecorded(turn, call)
    case ShowToolResult(turn, result) => ToolResultRecorded(turn, result)
    case ShowCallEnded(turn, step, id, outcome) => LlmCallEnded(turn, step, id, outcome)
    case ShowFinalized(turn, id, blocks) => AssistantFinalized(turn, id, blocks)
    case ShowTurnEnded(turn) => TurnEnded(turn)
  }

  /** Events of which a host is shown nothing: the prompt it gave itself, and what is about the context window. */
  predicate NotForHosts(event: TurnEvent) {
    || event.UserPromptCommitted? || event.CompactionApplied? || event.CompactionRecommended?
    || event.ContextPreflightEnded? || event.ContextPostflightEnded?
  }

  /**
   * A host can tell every event from what it is shown: nothing of it is lost or changed, and nothing is shown only of
   * events that are not for hosts and of updates of a call that is not the active one.
   */
  lemma NothingIsLostOnHosts(active: Option<ActiveCall>, event: TurnEvent)
    ensures var r := Derived(active, event).1;
            && (r.Ok? && r.value.Some? ==> ShownFor(r.value.value) == event)
            && (r == Ok(None) <==>
                  NotForHosts(event) ||
                  (event.MessageUpdate? &&
                   !(active.Some? && active.value.turn == event.turn && active.value.step == event.step
                     && active.value.llmCallId == event.llmCallId)))
            && (r.Err? ==> event.MessageUpdate?)
  {
  }

  /** Along a trace that follows the protocol, then, every event for hosts is shown but for updates numbered too high. */
  lemma EveryEventIsShown(outside: Outside, trace: seq<Observation>, i: nat)
    requires Watched(outside, trace).Some? && i < |trace| && trace[i].Emitted? && !NotForHosts(trace[i].event)
    ensures var r := Derived(Followed(trace[..i]), trace[i].event).1;
            if trace[i].event.MessageUpdate? && UpdatesShown(trace[..i]) >= U32_MAX then r == Err(UpdateIndexOverflow)
            else r.Ok? && r.value.Some? && ShownFor(r.value.value) == trace[i].event
  {
    if trace[i].event.MessageUpdate? {
      UpdatesAreNumbered(outside, trace, i);
    } else {
      NothingIsLostOnHosts(Followed(trace[..i]), trace[i].event);
    }
  }
}
