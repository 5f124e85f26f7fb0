/** The event log worker: a record queue, a separate flush channel, and a file behind them. */
module EventLog {
  import opened Protocol
  import opened EventRecorder
  import opened QueueFailures

  const QUEUE_CAPACITY: nat := 256
  const COMMAND_CAPACITY: nat := 8

  datatype Persistence = PersistNothing | PersistErrors | PersistNormal | PersistAll

  predicate IsErrorRecord(record: EventRecord) {
    if record.kind == "llm_call" then record.callStatus == Some("failed") || record.callStatus == Some("cancelled")
    else record.kind == "tool_result" && record.toolStatus != Some("succeeded")
  }

  predicate ShouldPersist(policy: Persistence, record: EventRecord) {
    match policy
    case PersistNothing => false
    case PersistErrors => IsErrorRecord(record)
    case PersistNormal => record.kind !in {"assistant_text", "thinking", "tool_use_update"}
    case PersistAll => true
  }

  datatype Diagnostic = SenderFailed(failure: Failure) | AppendFailed(error: AppendError) | FileFlushFailed | WorkerStopped

  datatype Status = Status(state: QueueState, droppedEvents: nat, lastError: Option<Diagnostic>)
  {
    function MarkDropped(): Status {
      Status(Degraded, if droppedEvents < U64_MAX then droppedEvents + 1 else U64_MAX, Some(SenderFailed(QueueFull)))
    }

    function MarkDegraded(error: Diagnostic): Status {
      this.(state := if state == Stopped then Stopped else Degraded, lastError := Some(error))
    }

    function MarkStopped(error: Diagnostic): Status {
      this.(state := Stopped, lastError := Some(error))
    }
  }

  /** A flush request, with the number of records accepted when it was sent. */
  datatype FlushRequest = FlushRequest(id: nat, before: nat)

  /** The answer to a flush, with the number of records handled when it was given. */
  datatype Ack = Ack(request: FlushRequest, upTo: nat, ok: bool)

  /** `Polled` is between finding no flush command and looking at the records. */
  datatype Phase = Serving | Polled | Draining(request: FlushRequest) | FinalDraining | Finishing | Leaving | Gone

  /**
   * Both channels, the worker, the file and the status, with the failures that senders have met and not yet marked,
   * and the history of the records accepted, which of the handled ones were written, the records dropped and the
   * flushes answered. `checked` is a record that passed the policy and the status check and is about to be sent.
   */
  datatype Log = Log(
    policy: Persistence,
    records: seq<EventRecord>,
    commands: seq<FlushRequest>,
    recordersOpen: bool,
    handleOpen: bool,
    phase: Phase,
    recorder: Recorder,
    status: Status,
    checked: Option<EventRecord>,
    unmarked: Unmarked,
    accepted: seq<EventRecord>,
    written: seq<bool>,
    dropped: nat,
    acks: seq<Ack>)

  function Opened(policy: Persistence, recorder: Recorder): Log {
    Log(policy, [], [], true, true, Serving, recorder, Status(Running, 0, None), None, Unmarked(0, 0, 0), [], [], 0, [])
  }

  datatype Arrival =
    | Check(record: EventRecord)
    | Send
    | Mark(failure: Failure)
    | AskFlush(id: nat)
    | DropHandle
    | DropRecorders

  datatype Move = Arrive(arrival: Arrival) | Work(io: Io)

  function Meet(s: Log, failure: Failure): Log {
    s.(unmarked := s.unmarked.Meet(failure, 1))
  }

  /** A full queue is marked as a drop, whatever the status says by then; the others as a stop. */
  function Marked(status: Status, failure: Failure): Status {
    if failure.QueueFull? then status.MarkDropped() else status.MarkStopped(SenderFailed(failure))
  }

  function Arrived(s: Log, arrival: Arrival): Log {
    match arrival
    case Check(record) =>
      if s.recordersOpen && s.checked.None? && ShouldPersist(s.policy, record) && s.status.state != Stopped
      then s.(checked := Some(record)) else s
    case Send =>
      if s.checked.None? then s
      else if s.phase.Gone? then Meet(s.(checked := None), ChannelClosed)
      else if |s.records| >= QUEUE_CAPACITY then Meet(s.(checked := None, dropped := s.dropped + 1), QueueFull)
      else
        s.(checked := None, records := s.records + [s.checked.value], accepted := s.accepted + [s.checked.value])
    case Mark(failure) =>
      if s.unmarked.Count(failure) == 0 then s
      else s.(status := Marked(s.status, failure), unmarked := s.unmarked.Less(failure))
    case AskFlush(id) =>
      if !s.handleOpen then s
      else if s.phase.Gone? then Meet(s, FlushFailed)
      else if |s.commands| >= COMMAND_CAPACITY then s
      else s.(commands := s.commands + [FlushRequest(id, |s.accepted|)])
    case DropHandle => s.(handleOpen := false)
    case DropRecorders => s.(recordersOpen := false)
  }

  /** The oldest queued record goes to the file, or its failure to the status. */
  function HandleRecord(s: Log, io: Io): Log
    requires s.records != []
  {
    var record := s.records[0];
    var (recorder, result) := Appended(s.recorder, record, io);
    s.(records := s.records[1..],
       recorder := recorder,
       written := s.written + [Writable(s.recorder, record, io)],
       status := if result.Err? then s.status.MarkDegraded(AppendFailed(result.error)) else s.status)
  }

  function AnswerFlush(s: Log, request: FlushRequest, io: Io): Log {
    var (recorder, ok) := Flushed(s.recorder, io);
    s.(phase := Serving,
       recorder := recorder,
       status := if ok then s.status else s.status.MarkDegraded(FileFlushFailed),
       acks := s.acks + [Ack(request, |s.written|, ok)])
  }

  /** The handle holds a record sender too, so the record channel closes only after the handle has gone. */
  predicate RecordsClosed(s: Log) {
    !s.recordersOpen && !s.handleOpen
  }

  /** Flush commands are served before records, and a flush first takes in every record that is queued. */
  function WorkStep(s: Log, io: Io): Log {
    match s.phase
    case Serving =>
      if s.commands != [] then s.(commands := s.commands[1..], phase := Draining(s.commands[0]))
      else if !s.handleOpen then s.(phase := FinalDraining)
      else s.(phase := Polled)
    case Polled =>
      if s.records != [] then HandleRecord(s.(phase := Serving), io)
      else s.(phase := if RecordsClosed(s) then Finishing else Serving)
    case Draining(request) => if s.records != [] then HandleRecord(s, io) else AnswerFlush(s, request, io)
    case FinalDraining => if s.records != [] then HandleRecord(s, io) else s.(phase := Finishing)
    case Finishing =>
      var (recorder, ok) := Flushed(s.recorder, io);
      s.(phase := Leaving, recorder := recorder, status := s.status.MarkStopped(if ok then WorkerStopped else FileFlushFailed))
    case Leaving =>
      s.(phase := Gone, records := [], commands := [], unmarked := s.unmarked.Meet(FlushFailed, |s.commands|))
    case Gone => s
  }

  function Next(s: Log, move: Move): Log {
    match move
    case Arrive(arrival) => Arrived(s, arrival)
    case Work(io) => WorkStep(s, io)
  }

  function After(policy: Persistence, recorder: Recorder, moves: seq<Move>): Log {
    if moves == [] then Opened(policy, recorder)
    else Next(After(policy, recorder, moves[..|moves| - 1]), moves[|moves| - 1])
  }

  // ---- What every interleaving keeps --------------------------------------

  /** The lines of the written records in acceptance order, numbered from `n`. */
  function LinesFrom(n: nat, accepted: seq<EventRecord>, written: seq<bool>): seq<EventRecord>
    requires |written| <= |accepted|
  {
    if written == [] then []
    else
      var last := |written| - 1;
      var lines := LinesFrom(n, accepted, written[..last]);
      if written[last] then lines + [accepted[last].(seqNo := Some(Least(n + |lines|, U64_MAX)))] else lines
  }

  lemma {:induction false} LinesExtend(n: nat, accepted: seq<EventRecord>, record: EventRecord, written: seq<bool>)
    requires |written| <= |accepted|
    ensures LinesFrom(n, accepted + [record], written) == LinesFrom(n, accepted, written)
    decreases |written|
  {
    if written != [] {
      LinesExtend(n, accepted, record, written[..|written| - 1]);
    }
  }

  lemma {:induction false} LinesPrefix(n: nat, accepted: seq<EventRecord>, written: seq<bool>, i: nat)
    requires i <= |written| <= |accepted|
    ensures LinesFrom(n, accepted, written[..i]) <= LinesFrom(n, accepted, written)
    decreases |written|
  {
    if i == |written| {
      assert written[..i] == written;
    } else {
      LinesPrefix(n, accepted, written[..|written| - 1], i);
      assert written[..|written| - 1][..i] == written[..i];
    }
  }

  /** Everything accepted is either handled or still queued, and the file holds what it held plus what was written. */
  predicate Accounted(start: Recorder, s: Log) {
    && |s.written| <= |s.accepted|
    && (!s.phase.Gone? ==> s.accepted[|s.written|..] == s.records)
    && Continues(s.recorder) && s.recorder.runId == start.runId
    && s.recorder.Written() == start.Written() + LinesFrom(|start.Written()|, s.accepted, s.written)
  }

  /** The drops that have been marked in the status. */
  function MarkedDrops(s: Log): nat {
    if s.unmarked.full <= s.dropped then s.dropped - s.unmarked.full else 0
  }

  /** Only senders of a worker that is gone meet anything but a full queue, and only a leaving worker is stopped. */
  predicate FailuresFit(s: Log) {
    && s.unmarked.full <= s.dropped
    && (s.unmarked.closed + s.unmarked.unanswered > 0 ==> s.phase.Gone?)
    && (s.status.state == Stopped ==> s.phase.Leaving? || s.phase.Gone?)
  }

  /** A record that was not written, and a drop once marked, shows in the status. */
  predicate StatusHonest(s: Log) {
    && FailuresFit(s)
    && (s.status.state == Running ==> MarkedDrops(s) == 0 && forall i :: 0 <= i < |s.written| ==> s.written[i])
    && s.status.droppedEvents == Least(MarkedDrops(s), U64_MAX)
  }

  /** A successful answer found every record accepted before its request handled, and what was written on disk. */
  predicate AckHonest(start: Recorder, s: Log, ack: Ack)
    requires |s.written| <= |s.accepted|
  {
    && ack.request.before <= ack.upTo <= |s.written|
    && (ack.ok ==> start.Written() + LinesFrom(|start.Written()|, s.accepted, s.written[..ack.upTo]) <= s.recorder.disk)
  }

  predicate RequestsHonest(s: Log) {
    && (forall i :: 0 <= i < |s.commands| ==> s.commands[i].before <= |s.accepted|)
    && (s.phase.Draining? ==> s.phase.request.before <= |s.accepted|)
  }

  predicate AcksHonest(start: Recorder, s: Log)
    requires |s.written| <= |s.accepted|
  {
    forall k :: 0 <= k < |s.acks| ==> AckHonest(start, s, s.acks[k])
  }

  lemma AcceptKeepsAccount(start: Recorder, s: Log, record: EventRecord)
    requires Accounted(start, s) && !s.phase.Gone?
    ensures Accounted(start, s.(records := s.records + [record], accepted := s.accepted + [record]))
  {
    LinesExtend(|start.Written()|, s.accepted, record, s.written);
    assert (s.accepted + [record])[|s.written|..] == s.accepted[|s.written|..] + [record];
  }

  lemma AcceptKeepsAcks(start: Recorder, s: Log, record: EventRecord)
    requires |s.written| <= |s.accepted| && AcksHonest(start, s)
    ensures AcksHonest(start, s.(records := s.records + [record], accepted := s.accepted + [record]))
  {
    var after := s.(records := s.records + [record], accepted := s.accepted + [record]);
    forall k | 0 <= k < |s.acks| ensures AckHonest(start, after, s.acks[k]) {
      assert AckHonest(start, s, s.acks[k]);
      LinesExtend(|start.Written()|, s.accepted, record, s.written[..s.acks[k].upTo]);
    }
  }

  lemma HandleKeepsAccount(start: Recorder, s: Log, io: Io)
    requires Accounted(start, s) && s.records != [] && !s.phase.Gone?
    ensures Accounted(start, HandleRecord(s, io))
    ensures s.recorder.disk <= HandleRecord(s, io).recorder.disk
  {
    var record := s.records[0];
    assert s.accepted[|s.written|..][0] == s.accepted[|s.written|];
    assert s.accepted[|s.written| + 1..] == s.accepted[|s.written|..][1..];
    AppendedWritten(s.recorder, record, io);
    AppendContinues(s.recorder, record, io);
    HandleAddsLine(start, s, record, io);
  }

  lemma HandleAddsLine(start: Recorder, s: Log, record: EventRecord, io: Io)
    requires |s.written| < |s.accepted| && s.accepted[|s.written|] == record && Continues(s.recorder)
    requires s.recorder.Written() == start.Written() + LinesFrom(|start.Written()|, s.accepted, s.written)
    ensures Appended(s.recorder, record, io).0.Written() ==
            start.Written() + LinesFrom(|start.Written()|, s.accepted, s.written + [Writable(s.recorder, record, io)])
  {
    var lines := LinesFrom(|start.Written()|, s.accepted, s.written);
    var more := if Writable(s.recorder, record, io) then [Stamp(record, s.recorder.state.nextSeq)] else [];
    AppendedWritten(s.recorder, record, io);
    LinesSnoc(|start.Written()|, s.accepted, s.written, Writable(s.recorder, record, io));
    assert (start.Written() + lines) + more == start.Written() + (lines + more);
  }

  lemma LinesSnoc(n: nat, accepted: seq<EventRecord>, written: seq<bool>, wrote: bool)
    requires |written| < |accepted|
    ensures var lines := LinesFrom(n, accepted, written);
            LinesFrom(n, accepted, written + [wrote]) ==
            lines + if wrote then [accepted[|written|].(seqNo := Some(Least(n + |lines|, U64_MAX)))] else []
  {
    assert (written + [wrote])[..|written|] == written;
    assert LinesFrom(n, accepted, written) + [] == LinesFrom(n, accepted, written);
  }

  /** Answers stay true while records are handled and the file grows. */
  lemma HandlingKeepsAcks(start: Recorder, s: Log, t: Log)
    requires |s.written| <= |s.accepted| && AcksHonest(start, s)
    requires t.accepted == s.accepted && s.written <= t.written && |t.written| <= |t.accepted|
    requires t.acks == s.acks && s.recorder.disk <= t.recorder.disk
    ensures AcksHonest(start, t)
  {
    forall k | 0 <= k < |t.acks| ensures AckHonest(start, t, t.acks[k]) {
      assert AckHonest(start, s, s.acks[k]);
      assert t.written[..t.acks[k].upTo] == s.written[..t.acks[k].upTo];
    }
  }

  lemma FlushKeepsAccount(start: Recorder, s: Log, io: Io)
    requires Accounted(start, s)
    ensures var r := Flushed(s.recorder, io).0;
            && r.Written() == s.recorder.Written() && Continues(r) && r.runId == s.recorder.runId
            && s.recorder.disk <= r.disk && (io.IoWorks? ==> r.disk == s.recorder.Written())
  {
    assert Flushed(s.recorder, io).0.Written() == s.recorder.Written();
  }

  lemma AnswerKeepsAcks(start: Recorder, s: Log, request: FlushRequest, io: Io)
    requires Accounted(start, s) && AcksHonest(start, s) && s.phase == Draining(request) && s.records == []
    requires request.before <= |s.accepted|
    ensures var t := AnswerFlush(s, request, io); Accounted(start, t) && AcksHonest(start, t)
  {
    var t := AnswerFlush(s, request, io);
    FlushKeepsAccount(start, s, io);
    HandlingKeepsAcks(start, s, t.(acks := s.acks));
    assert |s.accepted[|s.written|..]| == 0;
    assert t.written[..|t.written|] == t.written;
    forall k | 0 <= k < |t.acks| ensures AckHonest(start, t, t.acks[k]) {
      if k < |s.acks| { assert AckHonest(start, t.(acks := s.acks), s.acks[k]); }
    }
  }

  predicate Sound(start: Recorder, s: Log) {
    Accounted(start, s) && StatusHonest(s) && RequestsHonest(s) && AcksHonest(start, s)
  }

  lemma HandleIsSound(start: Recorder, s: Log, io: Io)
    requires Sound(start, s) && s.records != [] && !s.phase.Gone?
    ensures Sound(start, HandleRecord(s, io))
  {
    HandleKeepsAccount(start, s, io);
    HandlingKeepsAcks(start, s, HandleRecord(s, io));
    AppendedWritten(s.recorder, s.records[0], io);
  }

  /** A step that only moves the worker on. */
  lemma PhaseIsSound(start: Recorder, s: Log, phase: Phase, commands: seq<FlushRequest>)
    requires Sound(start, s) && !s.phase.Gone? && !s.phase.Leaving? && !phase.Gone?
    requires RequestsHonest(s.(phase := phase, commands := commands))
    ensures Sound(start, s.(phase := phase, commands := commands))
  {
    HandlingKeepsAcks(start, s, s.(phase := phase, commands := commands));
  }

  lemma FinishIsSound(start: Recorder, s: Log, io: Io)
    requires Sound(start, s) && s.phase.Finishing?
    ensures Sound(start, WorkStep(s, io))
  {
    FlushKeepsAccount(start, s, io);
    HandlingKeepsAcks(start, s, WorkStep(s, io));
  }

  lemma LeaveIsSound(start: Recorder, s: Log, io: Io)
    requires Sound(start, s) && s.phase.Leaving?
    ensures Sound(start, WorkStep(s, io))
  {
    HandlingKeepsAcks(start, s, WorkStep(s, io));
  }

  lemma ServeIsSound(start: Recorder, s: Log, io: Io)
    requires Sound(start, s) && s.phase.Serving?
    ensures Sound(start, WorkStep(s, io))
  {
    if s.commands != [] {
      PhaseIsSound(start, s, Draining(s.commands[0]), s.commands[1..]);
    } else if !s.handleOpen {
      PhaseIsSound(start, s, FinalDraining, s.commands);
    } else {
      PhaseIsSound(start, s, Polled, s.commands);
    }
  }

  lemma WorkIsSound(start: Recorder, s: Log, io: Io)
    requires Sound(start, s)
    ensures Sound(start, WorkStep(s, io))
  {
    match s.phase
    case Serving => ServeIsSound(start, s, io);
    case Polled =>
      PhaseIsSound(start, s, if s.records == [] && RecordsClosed(s) then Finishing else Serving, s.commands);
      if s.records != [] { HandleIsSound(start, s.(phase := Serving), io); }
    case Draining(request) =>
      if s.records != [] { HandleIsSound(start, s, io); } else { AnswerKeepsAcks(start, s, request, io); }
    case FinalDraining =>
      if s.records != [] { HandleIsSound(start, s, io); } else { PhaseIsSound(start, s, Finishing, s.commands); }
    case Finishing => FinishIsSound(start, s, io);
    case Leaving => LeaveIsSound(start, s, io);
    case Gone =>
  }

  lemma SendIsSound(start: Recorder, s: Log, record: EventRecord)
    requires Sound(start, s) && !s.phase.Gone?
    ensures Sound(start, s.(checked := None, records := s.records + [record], accepted := s.accepted + [record]))
  {
    AcceptKeepsAccount(start, s, record);
    AcceptKeepsAcks(start, s, record);
  }

  /** What arrives without being queued leaves the account and the answers alone. */
  lemma AsideIsSound(start: Recorder, s: Log, t: Log)
    requires Sound(start, s) && StatusHonest(t) && RequestsHonest(t)
    requires t == s.(commands := t.commands, recordersOpen := t.recordersOpen, handleOpen := t.handleOpen, checked := t.checked,
                     status := t.status, unmarked := t.unmarked, dropped := t.dropped)
    ensures Sound(start, t)
  {
    HandlingKeepsAcks(start, s, t);
  }

  lemma ArrivalIsHonest(s: Log, arrival: Arrival)
    requires StatusHonest(s) && RequestsHonest(s)
    ensures StatusHonest(Arrived(s, arrival))
    ensures !arrival.Send? ==> RequestsHonest(Arrived(s, arrival))
  {
  }

  lemma ArrivalIsSound(start: Recorder, s: Log, arrival: Arrival)
    requires Sound(start, s)
    ensures Sound(start, Arrived(s, arrival))
  {
    if arrival.Send? && s.checked.Some? && !s.phase.Gone? && |s.records| < QUEUE_CAPACITY {
      SendIsSound(start, s, s.checked.value);
    } else {
      ArrivalIsHonest(s, arrival);
      AsideIsSound(start, s, Arrived(s, arrival));
    }
  }

  predicate Bounded(s: Log) {
    |s.records| <= 256 && |s.commands| <= 8
  }

  lemma ArrivalKeepsBounds(s: Log, arrival: Arrival)
    requires Bounded(s)
    ensures Bounded(Arrived(s, arrival))
  {
  }

  lemma WorkKeepsBounds(s: Log, io: Io)
    requires Bounded(s)
    ensures Bounded(WorkStep(s, io))
  {
    if HandlesNext(s) { HandlingOnly(s, io); } else { OtherWork(s, io); }
  }

  lemma {:induction false} QueuesAreBounded(policy: Persistence, start: Recorder, moves: seq<Move>)
    ensures Bounded(After(policy, start, moves))
    decreases |moves|
  {
    if moves != [] {
      var s := After(policy, start, moves[..|moves| - 1]);
      QueuesAreBounded(policy, start, moves[..|moves| - 1]);
      match moves[|moves| - 1]
      case Arrive(arrival) => ArrivalKeepsBounds(s, arrival);
      case Work(io) => WorkKeepsBounds(s, io);
    }
  }

  /**
   * A checked record that is sent to a worker that is there is dropped exactly if 256 records wait, and a flush can be
   * sent to it exactly if fewer than 8 wait; what is not dropped waits as the last one.
   */
  lemma DropsIffFull(policy: Persistence, start: Recorder, moves: seq<Move>, id: nat)
    requires !After(policy, start, moves).phase.Gone?
    ensures var s := After(policy, start, moves);
            && |s.records| <= 256 && |s.commands| <= 8
            && (s.checked.Some? ==>
                  Arrived(s, Send) ==
                  if |s.records| == 256 then
                    s.(checked := None, dropped := s.dropped + 1, unmarked := s.unmarked.(full := s.unmarked.full + 1))
                  else
                    s.(checked := None, records := s.records + [s.checked.value], accepted := s.accepted + [s.checked.value]))
            && (s.handleOpen ==>
                  Arrived(s, AskFlush(id)) ==
                  if |s.commands| == 8 then s else s.(commands := s.commands + [FlushRequest(id, |s.accepted|)]))
  {
    QueuesAreBounded(policy, start, moves);
  }

  /** Holds after any interleaving of recorders, flushes, worker steps and shutdown, whatever the disk does. */
  lemma {:induction false} EveryRunIsSound(policy: Persistence, start: Recorder, moves: seq<Move>)
    requires Continues(start)
    ensures Sound(start, After(policy, start, moves))
    decreases |moves|
  {
    if moves == [] {
      assert start.Written() + [] == start.Written();
    } else {
      EveryRunIsSound(policy, start, moves[..|moves| - 1]);
      var s := After(policy, start, moves[..|moves| - 1]);
      match moves[|moves| - 1]
      case Arrive(arrival) => ArrivalIsSound(start, s, arrival);
      case Work(io) => WorkIsSound(start, s, io);
    }
  }

  /**
   * When a flush answers Ok, every record accepted before it was sent has been handled: those that were written are
   * on disk, in order and numbered on from what the file held; if one was not, the status says so for good.
   */
  lemma FlushCoversEarlier(policy: Persistence, start: Recorder, moves: seq<Move>, k: nat)
    requires Continues(start)
    requires k < |After(policy, start, moves).acks| && After(policy, start, moves).acks[k].ok
    ensures var s := After(policy, start, moves);
            var before := s.acks[k].request.before;
            && before <= |s.written| <= |s.accepted|
            && start.Written() + LinesFrom(|start.Written()|, s.accepted, s.written[..before]) <= s.recorder.disk
            && ((exists i :: 0 <= i < before && !s.written[i]) ==> s.status.state != Running)
  {
    EveryRunIsSound(policy, start, moves);
    var s := After(policy, start, moves);
    assert AckHonest(start, s, s.acks[k]);
    var ack := s.acks[k];
    LinesPrefix(|start.Written()|, s.accepted, s.written[..ack.upTo], ack.request.before);
    assert s.written[..ack.upTo][..ack.request.before] == s.written[..ack.request.before];
  }

  // ---- When a stop lasts -----------------------------------------------------

  /**
   * Nothing is left that could hide a stop: no full queue to be marked, and no checked record that would still find
   * the queue full.
   */
  predicate NothingLate(s: Log) {
    && s.unmarked.full == 0
    && (s.phase.Leaving? && s.checked.Some? ==> |s.records| < QUEUE_CAPACITY)
  }

  lemma StopStaysOnce(s: Log, move: Move)
    requires StatusHonest(s) && s.status.state == Stopped && NothingLate(s)
    ensures Next(s, move).status.state == Stopped && NothingLate(Next(s, move))
  {
  }

  lemma {:induction false} StopStays(policy: Persistence, start: Recorder, moves: seq<Move>, more: seq<Move>)
    requires Continues(start)
    requires After(policy, start, moves).status.state == Stopped && NothingLate(After(policy, start, moves))
    ensures var s := After(policy, start, moves + more); s.status.state == Stopped && NothingLate(s)
    decreases |more|
  {
    if more == [] {
      assert moves + [] == moves;
    } else {
      var front, last := more[..|more| - 1], more[|more| - 1];
      assert moves + more == (moves + front) + [last];
      StopStays(policy, start, moves, front);
      EveryRunIsSound(policy, start, moves + front);
      AfterSnoc(policy, start, moves + front, last);
      StopStaysOnce(After(policy, start, moves + front), last);
    }
  }

  /** Otherwise sending what was checked and marking the full queue it meets hides the stop. */
  lemma LateDrop(policy: Persistence, start: Recorder, moves: seq<Move>) returns (more: seq<Move>)
    requires !NothingLate(After(policy, start, moves))
    ensures After(policy, start, moves + more).status.state == Degraded
  {
    var send, mark := Arrive(Send), Arrive(Mark(QueueFull));
    AfterSnoc(policy, start, moves, send);
    AfterSnoc(policy, start, moves + [send], mark);
    more := [send] + [mark];
    Regroup(moves, [send], [mark]);
  }

  /** From a stopped state on, the status says stopped for good exactly if nothing late is left. */
  lemma StopLastsIff(policy: Persistence, start: Recorder, moves: seq<Move>)
    requires Continues(start) && After(policy, start, moves).status.state == Stopped
    ensures (forall more :: After(policy, start, moves + more).status.state == Stopped) <==>
            NothingLate(After(policy, start, moves))
  {
    if NothingLate(After(policy, start, moves)) {
      forall more ensures After(policy, start, moves + more).status.state == Stopped {
        StopStays(policy, start, moves, more);
      }
    } else {
      var more := LateDrop(policy, start, moves);
    }
  }

  /** Some moves to a worker about to finish, with `n` records queued behind its last drain. */
  lemma {:induction false} FillsWhileFinishing(start: Recorder, record: EventRecord, n: nat) returns (moves: seq<Move>)
    requires n <= QUEUE_CAPACITY
    ensures var s := After(PersistAll, start, moves);
            && s.policy == PersistAll && s.phase.Finishing? && s.recordersOpen && s.checked.None?
            && s.status.state == Running && |s.records| == n && s.unmarked == Unmarked(0, 0, 0)
    decreases n
  {
    if n == 0 {
      var drop, work := Arrive(DropHandle), Work(IoFails);
      moves := [] + [drop];
      AfterSnoc(PersistAll, start, [], drop);
      AfterSnoc(PersistAll, start, moves, work);
      AfterSnoc(PersistAll, start, moves + [work], work);
      moves := moves + [work] + [work];
    } else {
      moves := FillsWhileFinishing(start, record, n - 1);
      AfterSnoc(PersistAll, start, moves, Arrive(Check(record)));
      AfterSnoc(PersistAll, start, moves + [Arrive(Check(record))], Arrive(Send));
      moves := moves + [Arrive(Check(record))] + [Arrive(Send)];
    }
  }

  /** A record checked before the worker stops meets the queue full after it, and its mark hides the stop for good. */
  lemma LateDropHidesStop(start: Recorder, record: EventRecord) returns (moves: seq<Move>, more: seq<Move>)
    requires Continues(start)
    ensures After(PersistAll, start, moves).status.state == Stopped
    ensures var s := After(PersistAll, start, moves + more); s.phase.Gone? && s.status.state == Degraded
  {
    var full := FillsWhileFinishing(start, record, QUEUE_CAPACITY);
    var check, work, send, mark := Arrive(Check(record)), Work(IoFails), Arrive(Send), Arrive(Mark(QueueFull));
    AfterSnoc(PersistAll, start, full, check);
    AfterSnoc(PersistAll, start, full + [check], work);
    moves := full + [check] + [work];
    AfterSnoc(PersistAll, start, moves, send);
    AfterSnoc(PersistAll, start, moves + [send], work);
    AfterSnoc(PersistAll, start, moves + [send] + [work], mark);
    more := [send, work, mark];
    assert moves + more == moves + [send] + [work] + [mark];
  }

  // ---- What the status says --------------------------------------------------

  /** What a move makes somebody note: a sender its failure, the worker a record or a flush that failed, or its own end. */
  function NoteOf(s: Log, move: Move): seq<Note<Diagnostic>> {
    match move
    case Arrive(Mark(failure)) =>
      if s.unmarked.Count(failure) == 0 then []
      else if failure.QueueFull? then [DropNote]
      else [StopNote(SenderFailed(failure))]
    case Arrive(_) => []
    case Work(io) =>
      var t := Next(s, move);
      if |t.written| > |s.written| && s.records != [] && Appended(s.recorder, s.records[0], io).1.Err? then
        [FaultNote(AppendFailed(Appended(s.recorder, s.records[0], io).1.error))]
      else if |t.acks| > |s.acks| && !t.acks[|s.acks|].ok then [FaultNote(FileFlushFailed)]
      else if t.phase.Leaving? && !s.phase.Leaving? then [StopNote(if io.IoWorks? then WorkerStopped else FileFlushFailed)]
      else []
  }

  function NotesOf(policy: Persistence, start: Recorder, moves: seq<Move>): seq<Note<Diagnostic>> {
    if moves == [] then []
    else
      NotesOf(policy, start, moves[..|moves| - 1]) +
      NoteOf(After(policy, start, moves[..|moves| - 1]), moves[|moves| - 1])
  }

  function LastError(notes: seq<Note<Diagnostic>>): Option<Diagnostic> {
    if notes == [] then None
    else if notes[|notes| - 1].DropNote? then Some(SenderFailed(QueueFull))
    else Some(notes[|notes| - 1].error)
  }

  predicate Shows(status: Status, notes: seq<Note<Diagnostic>>) {
    && status.state == StateAfter(notes) && status.lastError == LastError(notes)
    && status.droppedEvents == Least(Drops(notes), U64_MAX)
  }

  lemma MarksShow(status: Status, notes: seq<Note<Diagnostic>>)
    requires Shows(status, notes)
    ensures Shows(status.MarkDropped(), notes + [DropNote])
    ensures forall error :: Shows(status.MarkDegraded(error), notes + [FaultNote(error)])
    ensures forall error :: Shows(status.MarkStopped(error), notes + [StopNote(error)])
  {
    NotesSnoc(notes, DropNote);
    forall error ensures Shows(status.MarkDegraded(error), notes + [FaultNote(error)]) { NotesSnoc(notes, FaultNote(error)); }
    forall error ensures Shows(status.MarkStopped(error), notes + [StopNote(error)]) { NotesSnoc(notes, StopNote(error)); }
  }

  /** The move marks exactly its note, if it has one. */
  predicate Marks(before: Status, noted: seq<Note<Diagnostic>>, after: Status) {
    if noted == [] then after == before
    else
      && |noted| == 1
      && after == match noted[0]
                  case DropNote => before.MarkDropped()
                  case FaultNote(error) => before.MarkDegraded(error)
                  case StopNote(error) => before.MarkStopped(error)
  }

  lemma ArrivalMarks(s: Log, arrival: Arrival)
    ensures Marks(s.status, NoteOf(s, Arrive(arrival)), Arrived(s, arrival).status)
  {
  }

  /** The next step of the worker takes in the oldest record. */
  predicate HandlesNext(s: Log) {
    (s.phase.Polled? || s.phase.Draining? || s.phase.FinalDraining?) && s.records != []
  }

  lemma HandlingOnly(s: Log, io: Io)
    requires HandlesNext(s)
    ensures var t := WorkStep(s, io);
            && t == HandleRecord(if s.phase.Polled? then s.(phase := Serving) else s, io)
            && t.written == s.written + [Writable(s.recorder, s.records[0], io)] && t.records == s.records[1..]
            && t == s.(phase := if s.phase.Polled? then Serving else s.phase, records := t.records, recorder := t.recorder,
                       written := t.written, status := t.status)
  {
  }

  lemma OtherWork(s: Log, io: Io)
    requires !HandlesNext(s)
    ensures var t := WorkStep(s, io);
            && t.written == s.written && |t.records| <= |s.records| && |t.commands| <= |s.commands|
            && t == s.(phase := t.phase, records := t.records, commands := t.commands, recorder := t.recorder, status := t.status,
                       unmarked := t.unmarked, acks := t.acks)
  {
  }

  lemma WorkMarks(s: Log, io: Io)
    ensures Marks(s.status, NoteOf(s, Work(io)), WorkStep(s, io).status)
  {
    if HandlesNext(s) {
      HandlingOnly(s, io);
    } else {
      OtherWork(s, io);
      OtherWorkMarks(s, io);
    }
  }

  lemma OtherWorkMarks(s: Log, io: Io)
    requires !HandlesNext(s)
    ensures var t, noted := WorkStep(s, io), NoteOf(s, Work(io));
            match s.phase
            case Draining(_) => noted == (if io.IoFails? then [FaultNote(FileFlushFailed)] else []) && Marks(s.status, noted, t.status)
            case Finishing => noted == [StopNote(if io.IoWorks? then WorkerStopped else FileFlushFailed)] && Marks(s.status, noted, t.status)
            case _ => noted == [] && t.status == s.status
  {
  }

  /** The status is exactly what was noted: its state, the number of drops and the latest error. */
  lemma {:induction false} StatusShowsNotes(policy: Persistence, start: Recorder, moves: seq<Move>)
    ensures Shows(After(policy, start, moves).status, NotesOf(policy, start, moves))
    decreases |moves|
  {
    if moves != [] {
      var front, last := moves[..|moves| - 1], moves[|moves| - 1];
      var s, notes := After(policy, start, front), NotesOf(policy, start, front);
      StatusShowsNotes(policy, start, front);
      MarksShow(s.status, notes);
      match last {
        case Arrive(arrival) => ArrivalMarks(s, arrival);
        case Work(io) => WorkMarks(s, io);
      }
      var noted := NoteOf(s, last);
      if noted == [] { assert notes + [] == notes; } else { assert noted == [noted[0]]; }
    }
  }

  // ---- What is recorded, and what a stop leaves -------------------------------

  /** Which records a policy is for: none, failures only, all but streamed increments, or all. */
  predicate Wanted(policy: Persistence, record: EventRecord) {
    match policy
    case PersistNothing => false
    case PersistErrors =>
      || (record.kind == "llm_call" && record.callStatus in {Some("failed"), Some("cancelled")})
      || (record.kind == "tool_result" && record.toolStatus != Some("succeeded"))
    case PersistNormal => record.kind != "assistant_text" && record.kind != "thinking" && record.kind != "tool_use_update"
    case PersistAll => true
  }

  /** Each policy keeps what the one before it keeps. */
  lemma PoliciesWiden(record: EventRecord)
    ensures forall policy :: ShouldPersist(policy, record) <==> Wanted(policy, record)
    ensures ShouldPersist(PersistErrors, record) ==> ShouldPersist(PersistNormal, record)
    ensures ShouldPersist(PersistNormal, record) ==> ShouldPersist(PersistAll, record)
    ensures !ShouldPersist(PersistNothing, record)
  {
  }

  /** Only wanted records get into the log, and a wanted one is checked in unless the log is stopped, closed or busy. */
  lemma {:induction false} OnlyWantedIsAccepted(policy: Persistence, start: Recorder, moves: seq<Move>)
    ensures var s := After(policy, start, moves);
            && s.policy == policy && (s.checked.Some? ==> Wanted(policy, s.checked.value))
            && (forall i :: 0 <= i < |s.accepted| ==> Wanted(policy, s.accepted[i]))
            && forall record :: Arrived(s, Check(record)) == s.(checked := Some(record)) <==>
                 s.checked == Some(record) ||
                 (s.checked.None? && Wanted(policy, record) && s.recordersOpen && !s.status.state.Stopped?)
    decreases |moves|
  {
    if moves != [] {
      var s := After(policy, start, moves[..|moves| - 1]);
      OnlyWantedIsAccepted(policy, start, moves[..|moves| - 1]);
      match moves[|moves| - 1] {
        case Arrive(arrival) => ArrivalFitsPolicy(s, arrival);
        case Work(io) => WorkAcceptsNothing(s, io);
      }
    }
  }

  lemma ArrivalFitsPolicy(s: Log, arrival: Arrival)
    requires s.checked.Some? ==> Wanted(s.policy, s.checked.value)
    ensures var t := Arrived(s, arrival);
            && t.policy == s.policy && (t.checked.Some? ==> Wanted(s.policy, t.checked.value))
            && (t.accepted == s.accepted || (s.checked.Some? && t.accepted == s.accepted + [s.checked.value]))
  {
  }

  lemma WorkAcceptsNothing(s: Log, io: Io)
    ensures var t := WorkStep(s, io); t.policy == s.policy && t.checked == s.checked && t.accepted == s.accepted
    ensures WorkStep(s, io).handleOpen == s.handleOpen && s.written <= WorkStep(s, io).written
  {
    if HandlesNext(s) { HandlingOnly(s, io); } else { OtherWork(s, io); }
  }

  /** How many records had been accepted when the handle was dropped. */
  function AtDrop(policy: Persistence, start: Recorder, moves: seq<Move>): Option<nat> {
    if moves == [] then None
    else
      var s := After(policy, start, moves[..|moves| - 1]);
      if s.handleOpen && moves[|moves| - 1] == Arrive(DropHandle) then Some(|s.accepted|)
      else AtDrop(policy, start, moves[..|moves| - 1])
  }

  predicate Over(phase: Phase) {
    phase.Finishing? || phase.Leaving? || phase.Gone?
  }

  /** The handle has gone before the worker is over, and everything accepted by then has been handled. */
  predicate DropHandled(s: Log, dropped: Option<nat>) {
    && (s.handleOpen <==> dropped.None?)
    && (dropped.Some? ==> dropped.value <= |s.accepted|)
    && (Over(s.phase) ==> dropped.Some? && dropped.value <= |s.written|)
  }

  lemma WorkHandles(start: Recorder, s: Log, io: Io, dropped: Option<nat>)
    requires Accounted(start, s) && DropHandled(s, dropped) && (s.phase.FinalDraining? ==> !s.handleOpen)
    ensures DropHandled(WorkStep(s, io), dropped) && (WorkStep(s, io).phase.FinalDraining? ==> !WorkStep(s, io).handleOpen)
  {
    WorkAcceptsNothing(s, io);
    if Over(WorkStep(s, io).phase) && !Over(s.phase) {
      assert |s.accepted[|s.written|..]| == 0;
    }
  }

  lemma ArrivalHandles(s: Log, arrival: Arrival, dropped: Option<nat>)
    requires DropHandled(s, dropped) && (s.phase.FinalDraining? ==> !s.handleOpen)
    ensures DropHandled(Arrived(s, arrival), if s.handleOpen && arrival == DropHandle then Some(|s.accepted|) else dropped)
    ensures Arrived(s, arrival).phase.FinalDraining? ==> !Arrived(s, arrival).handleOpen
  {
  }

  /** A worker that is over has handled everything that was accepted before its handle was dropped. */
  lemma {:induction false} StopsDrained(policy: Persistence, start: Recorder, moves: seq<Move>)
    requires Continues(start)
    ensures DropHandled(After(policy, start, moves), AtDrop(policy, start, moves))
    ensures var s := After(policy, start, moves); s.phase.FinalDraining? ==> !s.handleOpen
    decreases |moves|
  {
    if moves != [] {
      var front := moves[..|moves| - 1];
      var s, dropped := After(policy, start, front), AtDrop(policy, start, front);
      StopsDrained(policy, start, front);
      EveryRunIsSound(policy, start, front);
      match moves[|moves| - 1]
      case Arrive(arrival) => ArrivalHandles(s, arrival, dropped);
      case Work(io) => WorkHandles(start, s, io, dropped);
    }
  }

  /** The worker noted that it has stopped, after a last flush that worked. */
  predicate StoppedCleanly(notes: seq<Note<Diagnostic>>) {
    StopNote(WorkerStopped) in notes
  }

  lemma {:induction false} CleanStopFlushes(policy: Persistence, start: Recorder, moves: seq<Move>)
    ensures var s := After(policy, start, moves);
            StoppedCleanly(NotesOf(policy, start, moves)) ==> (s.phase.Leaving? || s.phase.Gone?) && s.recorder.buffer == []
    decreases |moves|
  {
    if moves != [] {
      var front, last := moves[..|moves| - 1], moves[|moves| - 1];
      CleanStopFlushes(policy, start, front);
      CleanMove(After(policy, start, front), last);
    }
  }

  lemma CleanMove(s: Log, move: Move)
    ensures var t := Next(s, move);
            && (StopNote(WorkerStopped) in NoteOf(s, move) ==> t.phase.Leaving? && t.recorder.buffer == [])
            && (s.phase.Leaving? || s.phase.Gone? ==> (t.phase.Leaving? || t.phase.Gone?) && t.recorder == s.recorder)
  {
    if move.Work? { CleanWork(s, move.io); } else { CleanArrival(s, move.arrival); }
  }

  lemma CleanArrival(s: Log, arrival: Arrival)
    ensures StopNote(WorkerStopped) !in NoteOf(s, Arrive(arrival))
    ensures Arrived(s, arrival).phase == s.phase && Arrived(s, arrival).recorder == s.recorder
  {
  }

  lemma CleanWork(s: Log, io: Io)
    ensures var t := WorkStep(s, io);
            && (StopNote(WorkerStopped) in NoteOf(s, Work(io)) ==> t.phase.Leaving? && t.recorder.buffer == [])
            && (s.phase.Leaving? || s.phase.Gone? ==> (t.phase.Leaving? || t.phase.Gone?) && t.recorder == s.recorder)
  {
    if HandlesNext(s) { HandlingOnly(s, io); } else { OtherWorkMarks(s, io); }
  }

  /** After a clean stop, everything accepted before the handle was dropped is on disk, but for what a noted fault kept from it. */
  lemma CleanStopIsOnDisk(policy: Persistence, start: Recorder, moves: seq<Move>)
    requires Continues(start) && StoppedCleanly(NotesOf(policy, start, moves))
    ensures var s, dropped := After(policy, start, moves), AtDrop(policy, start, moves);
            && |s.written| <= |s.accepted| && dropped.Some? && dropped.value <= |s.written|
            && s.recorder.disk == start.Written() + LinesFrom(|start.Written()|, s.accepted, s.written)
  {
    EveryRunIsSound(policy, start, moves);
    StopsDrained(policy, start, moves);
    CleanStopFlushes(policy, start, moves);
    var s := After(policy, start, moves);
    assert s.recorder.disk + [] == s.recorder.disk;
  }

  // ---- What becomes of flushes -------------------------------------------------

  /** Flushes that were queued, or asked of a worker that is gone. */
  function FlushesAsked(policy: Persistence, start: Recorder, moves: seq<Move>): nat {
    if moves == [] then 0
    else
      var s, last := After(policy, start, moves[..|moves| - 1]), moves[|moves| - 1];
      FlushesAsked(policy, start, moves[..|moves| - 1]) +
      if last.Arrive? && last.arrival.AskFlush? && s.handleOpen && (s.phase.Gone? || |s.commands| < COMMAND_CAPACITY) then 1 else 0
  }

  function FlushNotes(notes: seq<Note<Diagnostic>>): nat {
    if notes == [] then 0
    else FlushNotes(notes[..|notes| - 1]) + if notes[|notes| - 1] == StopNote(SenderFailed(FlushFailed)) then 1 else 0
  }

  lemma FlushNotesConcat(notes: seq<Note<Diagnostic>>, s: Log, move: Move)
    requires |NoteOf(s, move)| <= 1
    ensures FlushNotes(notes + NoteOf(s, move)) ==
            FlushNotes(notes) + if move == Arrive(Mark(FlushFailed)) && s.unmarked.unanswered > 0 then 1 else 0
  {
    var noted := NoteOf(s, move);
    if noted == [] {
      assert notes + [] == notes;
    } else {
      assert noted == [noted[0]];
      assert (notes + noted)[..|notes|] == notes;
    }
  }

  function WaitingFlushes(s: Log): nat {
    |s.commands| + if s.phase.Draining? then 1 else 0
  }

  lemma WorkSettles(s: Log, io: Io)
    ensures var t := WorkStep(s, io); |t.acks| + WaitingFlushes(t) + t.unmarked.unanswered == |s.acks| + WaitingFlushes(s) + s.unmarked.unanswered
  {
    if HandlesNext(s) {
      HandlingOnly(s, io);
    } else {
      OtherWorkSettles(s, io);
    }
  }

  lemma OtherWorkSettles(s: Log, io: Io)
    requires !HandlesNext(s)
    ensures var t := WorkStep(s, io); |t.acks| + WaitingFlushes(t) + t.unmarked.unanswered == |s.acks| + WaitingFlushes(s) + s.unmarked.unanswered
  {
    match s.phase
    case Serving =>
    case Draining(_) =>
    case Leaving =>
    case _ => OtherWork(s, io);
  }

  lemma ArrivalSettles(s: Log, arrival: Arrival)
    ensures var t := Arrived(s, arrival);
            && |t.acks| + WaitingFlushes(t) + t.unmarked.unanswered
               + (if arrival == Mark(FlushFailed) && s.unmarked.unanswered > 0 then 1 else 0) ==
               |s.acks| + WaitingFlushes(s) + s.unmarked.unanswered
               + (if arrival.AskFlush? && s.handleOpen && (s.phase.Gone? || |s.commands| < COMMAND_CAPACITY) then 1 else 0)
  {
  }

  /** No flush is lost: each one has been answered, waits, or has met its failure, which is noted in the status or has yet to be. */
  lemma {:induction false} FlushesAreSettled(policy: Persistence, start: Recorder, moves: seq<Move>)
    ensures var s := After(policy, start, moves);
            FlushesAsked(policy, start, moves) ==
            |s.acks| + WaitingFlushes(s) + s.unmarked.unanswered + FlushNotes(NotesOf(policy, start, moves))
    decreases |moves|
  {
    if moves != [] {
      var front, last := moves[..|moves| - 1], moves[|moves| - 1];
      var s := After(policy, start, front);
      FlushesAreSettled(policy, start, front);
      match last {
        case Arrive(arrival) =>
          ArrivalMarks(s, arrival);
          ArrivalSettles(s, arrival);
        case Work(io) =>
          WorkMarks(s, io);
          WorkSettles(s, io);
      }
      FlushNotesConcat(NotesOf(policy, start, front), s, last);
    }
  }

  // ---- What a worker that is left alone gets done ------------------------------

  /** Steps of the worker while nothing arrives; each names how its access to the disk ends. */
  function Worked(s: Log, ios: seq<Io>): Log
    decreases |ios|
  {
    if ios == [] then s else Worked(WorkStep(s, ios[0]), ios[1..])
  }

  lemma OneDrained(s: Log, io: Io)
    requires s.phase.Draining? && s.records != []
    ensures var t := WorkStep(s, io);
            && t.phase == s.phase && t.records == s.records[1..] && t.commands == s.commands && t.accepted == s.accepted
            && |t.written| == |s.written| + 1 && t.acks == s.acks
  {
    HandlingOnly(s, io);
  }

  lemma DrainedAnswers(s: Log, io: Io)
    requires s.phase.Draining? && s.records == []
    ensures var t := WorkStep(s, io);
            && t.phase == Serving && t.records == [] && t.commands == s.commands && t.accepted == s.accepted
            && t.written == s.written && t.acks == s.acks + [Ack(s.phase.request, |s.written|, io.IoWorks?)]
  {
  }

  /** The request has been answered last, after `n` records had been handled, with nothing left in the queue. */
  predicate JustAnswered(s: Log, t: Log, request: FlushRequest, n: nat, ok: bool) {
    && t.phase.Serving? && t.records == [] && t.accepted == s.accepted
    && |t.written| == n && t.acks == s.acks + [Ack(request, n, ok)]
  }

  /** A drain takes in every queued record and then answers. */
  lemma {:induction false} DrainAnswers(s: Log, ios: seq<Io>)
    requires s.phase.Draining? && |ios| == |s.records| + 1
    ensures JustAnswered(s, Worked(s, ios), s.phase.request, |s.written| + |s.records|, ios[|ios| - 1].IoWorks?)
    ensures Worked(s, ios).commands == s.commands
    decreases |ios|
  {
    if s.records != [] {
      OneDrained(s, ios[0]);
      DrainAnswers(WorkStep(s, ios[0]), ios[1..]);
    } else {
      DrainedAnswers(s, ios[0]);
    }
  }

  lemma TakesFlush(s: Log, io: Io)
    requires s.phase.Serving? && s.commands != []
    ensures WorkStep(s, io) == s.(commands := s.commands[1..], phase := Draining(s.commands[0]))
  {
  }

  /** The flush in front is taken before any record, and answered after every queued record has been handled. */
  lemma FlushIsAnswered(policy: Persistence, start: Recorder, moves: seq<Move>, ios: seq<Io>)
    requires Continues(start)
    requires var s := After(policy, start, moves); s.phase.Serving? && s.commands != [] && |ios| == |s.records| + 2
    ensures var s := After(policy, start, moves);
            && JustAnswered(s, Worked(s, ios), s.commands[0], |s.accepted|, ios[|ios| - 1].IoWorks?)
            && Worked(s, ios).commands == s.commands[1..]
  {
    EveryRunIsSound(policy, start, moves);
    FlushInFrontIsAnswered(start, After(policy, start, moves), ios);
  }

  lemma FlushInFrontIsAnswered(start: Recorder, s: Log, ios: seq<Io>)
    requires Accounted(start, s) && s.phase.Serving? && s.commands != [] && |ios| == |s.records| + 2
    ensures JustAnswered(s, Worked(s, ios), s.commands[0], |s.accepted|, ios[|ios| - 1].IoWorks?)
    ensures Worked(s, ios).commands == s.commands[1..]
  {
    assert |s.accepted[|s.written|..]| == |s.records|;
    TakesFlush(s, ios[0]);
    DrainAnswers(WorkStep(s, ios[0]), ios[1..]);
  }

  /** Without a flush, and while the handle is held, the oldest record is handled within two steps. */
  lemma RecordIsHandled(s: Log, first: Io, second: Io)
    requires s.phase.Serving? && s.commands == [] && s.handleOpen && s.records != []
    ensures var t := WorkStep(WorkStep(s, first), second); |t.written| == |s.written| + 1 && t.records == s.records[1..]
  {
    HandlingOnly(WorkStep(s, first), second);
  }

  // ---- The recorder and the worker loop ------------------------------------

  lemma AfterSnoc(policy: Persistence, start: Recorder, moves: seq<Move>, last: Move)
    ensures After(policy, start, moves + [last]) == Next(After(policy, start, moves), last)
  {
    assert (moves + [last])[..|moves|] == moves;
  }

  /** A stop is kept, or a drop has been counted since. */
  predicate KeepsStop(before: Status, after: Status) {
    && (before.droppedEvents > 0 ==> after.droppedEvents > 0)
    && (before.state == Stopped ==> after.state == Stopped || (after.state == Degraded && after.droppedEvents > 0))
    && (before.state == Degraded && before.droppedEvents > 0 ==> after.state == Stopped || after.state == Degraded)
  }

  predicate SameIds(asked: seq<FlushRequest>, commands: seq<nat>) {
    |asked| == |commands| && forall i :: 0 <= i < |asked| ==> asked[i].id == commands[i]
  }

  /**
   * The shared log. `script` is what arrives from outside: its next batch arrives just before the worker next
   * looks at a channel, and after the last batch the handle goes away. `disk(n)` is how the n-th access ends.
   */
  class EventLogWorker {
    const policy: Persistence
    const disk: nat -> Io
    const recorder: FileRecorder
    ghost const start: Recorder
    var script: seq<seq<Arrival>>
    var accesses: nat
    var records: seq<EventRecord>
    var commands: seq<nat>
    var recordersOpen: bool
    var handleOpen: bool
    var status: Status
    var checked: Option<EventRecord>
    var unmarked: Unmarked
    ghost var asked: seq<FlushRequest>
    ghost var acks: seq<Ack>
    ghost var accepted: seq<EventRecord>
    ghost var written: seq<bool>
    ghost var dropped: nat
    ghost var moves: seq<Move>

    constructor (policy: Persistence, recorder: FileRecorder, script: seq<seq<Arrival>>, disk: nat -> Io)
      ensures start == recorder.State() && moves == [] && Valid(Serving)
      ensures this.policy == policy && this.recorder == recorder && this.script == script
    {
      this.policy, this.recorder, this.script, this.disk := policy, recorder, script, disk;
      start, accesses, records, commands := recorder.State(), 0, [], [];
      recordersOpen, handleOpen, status, checked, acks := true, true, Status(Running, 0, None), None, [];
      unmarked := Unmarked(0, 0, 0);
      asked, accepted, written, dropped, moves := [], [], [], 0, [];
    }

    ghost function State(phase: Phase): Log
      reads this, recorder
    {
      Log(policy, records, asked, recordersOpen, handleOpen, phase, recorder.State(), status, checked,
          unmarked, accepted, written, dropped, acks)
    }

    /** The fields are what the moves so far lead to. */
    ghost predicate Valid(phase: Phase)
      reads this, recorder
    {
      && State(phase) == After(policy, start, moves)
      && SameIds(asked, commands)
    }

    ghost method Moved(move: Move, phase: Phase)
      requires Next(After(policy, start, moves), move) == State(phase)
      requires SameIds(asked, commands)
      modifies `moves
      ensures Valid(phase) && moves == old(moves) + [move]
    {
      AfterSnoc(policy, start, moves, move);
      moves := moves + [move];
    }

    /** The policy and the status decide whether the record is sent at all. */
    method CheckRecord(record: EventRecord, ghost phase: Phase) returns (send: bool)
      requires Valid(phase) && recordersOpen && checked.None?
      modifies `checked, `moves
      ensures Valid(phase) && moves == old(moves) + [Arrive(Check(record))]
      ensures send <==> checked == Some(record)
      ensures send <==> checked.Some?
    {
      send := ShouldPersist(policy, record) && status.state != Stopped;
      if send {
        checked := Some(record);
      }
      Moved(Arrive(Check(record)), phase);
    }

    /** Queues the checked record, or says why not; `gone` says that the worker has left the channel. */
    method TrySend(gone: bool, ghost phase: Phase) returns (met: Option<Failure>)
      requires Valid(phase) && checked.Some? && (gone <==> phase.Gone?)
      modifies `checked, `unmarked, `dropped, `records, `accepted, `moves
      ensures Valid(phase) && moves == old(moves) + [Arrive(Send)] && checked.None?
      ensures met == if gone then Some(ChannelClosed) else if |old(records)| >= QUEUE_CAPACITY then Some(QueueFull) else None
      ensures met.Some? ==> unmarked == old(unmarked).Meet(met.value, 1)
    {
      met := None;
      if gone {
        met := Some(ChannelClosed);
      } else if |records| >= QUEUE_CAPACITY {
        met := Some(QueueFull);
        dropped := dropped + 1;
      } else {
        records := records + [checked.value];
        accepted := accepted + [checked.value];
      }
      if met.Some? {
        unmarked := unmarked.Meet(met.value, 1);
      }
      checked := None;
      Moved(Arrive(Send), phase);
    }

    /** A full queue is marked as a drop, anything else as a stop. */
    method MarkFailure(failure: Failure, ghost phase: Phase)
      requires Valid(phase)
      modifies `status, `unmarked, `moves
      ensures Valid(phase) && moves == old(moves) + [Arrive(Mark(failure))]
      ensures KeepsStop(old(status), status)
    {
      if unmarked.Count(failure) > 0 {
        status := Marked(status, failure);
        unmarked := unmarked.Less(failure);
      }
      Moved(Arrive(Mark(failure)), phase);
    }

    /** Recording an event never fails a turn unless the worker has left without saying so. */
    method Append(record: EventRecord, gone: bool, ghost phase: Phase) returns (r: Result<(), Failure>)
      requires Valid(phase) && recordersOpen && checked.None? && (gone <==> phase.Gone?)
      modifies `checked, `status, `unmarked, `dropped, `records, `accepted, `moves
      ensures Valid(phase) && checked.None?
      ensures r.Err? <==> gone && ShouldPersist(policy, record) && old(status.state) != Stopped
      ensures !ShouldPersist(policy, record) || old(status.state) == Stopped ==>
                status == old(status) && records == old(records)
    {
      var send := CheckRecord(record, phase);
      if !send {
        return Ok(());
      }
      var met := TrySend(gone, phase);
      if met.Some? {
        MarkFailure(met.value, phase);
      }
      r := if met == Some(ChannelClosed) then Err(ChannelClosed) else Ok(());
    }

    method TakeArrival(arrival: Arrival, ghost phase: Phase)
      requires Valid(phase) && !phase.Gone?
      modifies `checked, `status, `unmarked, `dropped, `records, `accepted, `moves, `commands, `asked, `handleOpen, `recordersOpen
      ensures Valid(phase) && KeepsStop(old(status), status)
      ensures handleOpen ==> old(handleOpen)
      ensures arrival.DropHandle? ==> !handleOpen && commands == old(commands) && records == old(records)
    {
      match arrival {
        case Check(record) =>
          if recordersOpen && checked.None? {
            var send := CheckRecord(record, phase);
          } else {
            Moved(Arrive(arrival), phase);
          }
        case Send =>
          if checked.Some? {
            var sent := TrySend(false, phase);
          } else {
            Moved(Arrive(arrival), phase);
          }
        case Mark(failure) =>
          MarkFailure(failure, phase);
        case AskFlush(id) =>
          if handleOpen && |commands| < COMMAND_CAPACITY {
            commands := commands + [id];
            asked := asked + [FlushRequest(id, |accepted|)];
          }
          Moved(Arrive(arrival), phase);
        case DropHandle =>
          handleOpen := false;
          Moved(Arrive(arrival), phase);
        case DropRecorders =>
          recordersOpen := false;
          Moved(Arrive(arrival), phase);
      }
    }

    method LetArrive(ghost phase: Phase)
      requires Valid(phase) && !phase.Gone?
      modifies `checked, `status, `unmarked, `dropped, `records, `accepted, `moves, `commands, `asked, `handleOpen, `recordersOpen, `script
      ensures Valid(phase) && (handleOpen ==> old(handleOpen)) && KeepsStop(old(status), status)
      ensures old(script) != [] ==> |script| < |old(script)|
      ensures old(script) == [] ==> script == [] && !handleOpen && commands == old(commands) && records == old(records)
    {
      if script == [] {
        if handleOpen {
          TakeArrival(DropHandle, phase);
        }
      } else {
        var batch := script[0];
        script := script[1..];
        for i := 0 to |batch|
          invariant Valid(phase) && script == old(script)[1..] && (handleOpen ==> old(handleOpen))
          invariant KeepsStop(old(status), status)
        {
          TakeArrival(batch[i], phase);
        }
      }
    }

    /** One access to the disk. */
    method Access() returns (io: Io)
      modifies `accesses
    {
      io := disk(accesses);
      accesses := accesses + 1;
    }

    /** The oldest queued record goes to the file; a failure marks the status and is not passed on. */
    method WriteOldest(io: Io, ghost phase: Phase)
      requires records != []
      modifies `records, `written, `status, recorder
      ensures State(phase) == HandleRecord(old(State(phase)), io)
    {
      var record := records[0];
      records := records[1..];
      written := written + [Writable(recorder.State(), record, io)];
      var appended := recorder.Append(record, io);
      if appended.Err? {
        status := status.MarkDegraded(AppendFailed(appended.error));
      }
    }

    method AppendOldest(ghost from: Phase, ghost phase: Phase)
      requires Valid(from) && records != []
      requires if from.Polled? then phase.Serving? else phase == from && (from.Draining? || from.FinalDraining?)
      modifies `accesses, `records, `written, `status, `moves, recorder
      ensures Valid(phase) && records == old(records[1..])
    {
      var io := Access();
      WriteOldest(io, phase);
      Moved(Work(io), phase);
    }

    /** Takes in everything that is queued. */
    method Drain(ghost phase: Phase)
      requires Valid(phase) && (phase.Draining? || phase.FinalDraining?)
      modifies this, recorder
      ensures Valid(phase) && records == [] && (handleOpen ==> old(handleOpen))
      ensures |script| < |old(script)| || (script == old(script) && !handleOpen && commands == old(commands))
    {
      LetArrive(phase);
      while records != []
        invariant Valid(phase) && (handleOpen ==> old(handleOpen))
        invariant |script| < |old(script)| || (script == old(script) && !handleOpen && commands == old(commands))
        decreases |script|, |records|
      {
        AppendOldest(phase, phase);
        LetArrive(phase);
      }
    }

    method TakeFlush() returns (id: nat, ghost request: FlushRequest)
      requires Valid(Serving) && commands != []
      modifies `commands, `asked, `moves
      ensures Valid(Draining(request)) && id == old(commands[0]) == request.id && commands == old(commands[1..])
    {
      id, request := commands[0], asked[0];
      commands, asked := commands[1..], asked[1..];
      Moved(Work(IoFails), Draining(request));
    }

    method Answer(ghost request: FlushRequest) returns (ok: bool)
      requires Valid(Draining(request)) && records == []
      modifies `accesses, `status, `acks, `moves, recorder
      ensures Valid(Serving)
      ensures acks == old(acks) + [Ack(request, |written|, ok)]
    {
      ghost var before := State(Draining(request));
      var io := Access();
      ok := recorder.Flush(io);
      if !ok {
        status := status.MarkDegraded(FileFlushFailed);
      }
      acks := acks + [Ack(request, |written|, ok)];
      assert State(Serving) == AnswerFlush(before, request, io);
      Moved(Work(io), Serving);
    }

    /** Answers the flush in front: first every queued record, then the file itself. */
    method ServeFlush() returns (id: nat, ok: bool)
      requires Valid(Serving) && commands != []
      modifies this, recorder
      ensures Valid(Serving)
      ensures |script| < |old(script)| || (script == old(script) && !handleOpen && |commands| < |old(commands)|)
    {
      ghost var request;
      id, request := TakeFlush();
      Drain(Draining(request));
      ok := Answer(request);
    }

    /** The last flush; the status then says stopped. */
    method Finish()
      requires Valid(Finishing)
      modifies `accesses, `status, `moves, recorder
      ensures Valid(Leaving) && status.state == Stopped
    {
      ghost var before := State(Finishing);
      var io := Access();
      var ok := recorder.Flush(io);
      status := status.MarkStopped(if ok then WorkerStopped else FileFlushFailed);
      assert State(Leaving) == WorkStep(before, io);
      Moved(Work(io), Leaving);
    }

    /** The channels go away with the worker. */
    method Leave()
      requires Valid(Leaving)
      modifies `records, `commands, `asked, `unmarked, `moves
      ensures Valid(Gone)
    {
      unmarked := unmarked.Meet(FlushFailed, |commands|);
      records, commands, asked := [], [], [];
      Moved(Work(IoFails), Gone);
    }

    /** Looks at the records after finding no flush command; the channel may have closed meanwhile. */
    method ServeRecord() returns (serving: bool)
      requires Valid(Polled)
      modifies this, recorder
      ensures Valid(if serving then Serving else Finishing) && (!serving ==> !handleOpen)
      ensures |script| < |old(script)| || (script == old(script) && !handleOpen)
    {
      LetArrive(Polled);
      serving := records != [] || recordersOpen || handleOpen;
      if records != [] {
        AppendOldest(Polled, Serving);
      } else {
        Moved(Work(IoFails), if serving then Serving else Finishing);
      }
    }

    /** Serves whatever is ready, flush commands first. */
    method ServeOne() returns (serving: bool)
      requires Valid(Serving)
      modifies this, recorder
      ensures Valid(if serving then Serving else Finishing) && (!serving ==> !handleOpen)
      ensures serving ==>
                || |script| < |old(script)|
                || (script == old(script) && !handleOpen && |commands| < |old(commands)|)
    {
      LetArrive(Serving);
      serving := true;
      if commands != [] {
        var id, ok := ServeFlush();
      } else if !handleOpen {
        Moved(Work(IoFails), FinalDraining);
        Drain(FinalDraining);
        Moved(Work(IoFails), Finishing);
        serving := false;
      } else {
        Moved(Work(IoFails), Polled);
        serving := ServeRecord();
      }
    }

    /** The worker, until the handle is gone. */
    method RunWorker()
      requires Valid(Serving)
      modifies this, recorder
      ensures Valid(Gone) && !handleOpen
      ensures status.state == Stopped || (status.state == Degraded && status.droppedEvents > 0)
    {
      var serving := true;
      while serving
        invariant Valid(if serving then Serving else Finishing) && (!serving ==> !handleOpen)
        decreases serving, |script|, |commands|
      {
        serving := ServeOne();
      }
      Finish();
      LetArrive(Leaving);
      Leave();
    }
  }
}
