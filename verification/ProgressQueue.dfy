/** The progress worker: a bounded queue whose consumer skips snapshots that are already superseded. */
module ProgressQueue {
  import opened Protocol
  import opened QueueFailures
  import opened SessionTypes
  import opened ProgressEvents

  const QUEUE_CAPACITY: nat := 256

  datatype Key = Key(turn: nat, llmCallId: Id)

  datatype Command =
    | Event(event: ProgressEvent)
    | Snapshot(key: Key, event: ProgressEvent)
    | Flush(ack: nat)

  function CommandOf(event: ProgressEvent): Command {
    if event.ShowSnapshot? then Snapshot(Key(event.turn, event.llmCallId), event) else Event(event)
  }

  /** What the outside sees of the worker. */
  datatype Output = Delivered(event: ProgressEvent) | Acked(ack: nat)

  function OutputOf(c: Command): Output {
    if c.Flush? then Acked(c.ack) else Delivered(c.event)
  }

  predicate SameKey(a: Command, b: Command) {
    a.Snapshot? && b.Snapshot? && a.key == b.key
  }

  datatype Diagnostic = SenderFailed(failure: Failure) | ObserverFailed | WorkerStopped

  datatype Status = Status(state: QueueState, droppedEvents: nat, resyncRequired: bool, lastError: Option<Diagnostic>)
  {
    function MarkDropped(): Status {
      Status(Degraded, if droppedEvents < U64_MAX then droppedEvents + 1 else U64_MAX, true, Some(SenderFailed(QueueFull)))
    }

    function MarkDegraded(error: Diagnostic): Status {
      this.(state := if state == Stopped then Stopped else Degraded, lastError := Some(error))
    }

    function MarkStopped(error: Diagnostic): Status {
      this.(state := Stopped, resyncRequired := true, lastError := Some(error))
    }
  }

  /** Where the worker is: at its loop head, holding a snapshot while it looks ahead, or gone. */
  datatype Worker = AtHead(pending: Option<Command>) | Holding(held: Command) | Gone

  /**
   * The channel, the worker and the status, with the failures that a sender has met and not yet marked in the
   * status. The rest is history: what was accepted, which of it was passed on rather than skipped, what was
   * delivered, how many events were dropped, and how many losses were marked since the resync marker was taken.
   */
  datatype Feed = Feed(
    queue: seq<Command>,
    worker: Worker,
    sendersOpen: bool,
    status: Status,
    unmarked: Unmarked,
    accepted: seq<Command>,
    kept: seq<bool>,
    out: seq<Output>,
    dropped: nat,
    losses: nat)

  function Opened(): Feed {
    Feed([], AtHead(None), true, Status(Running, 0, false, None), Unmarked(0, 0, 0), [], [], [], 0, 0)
  }

  /**
   * What comes from outside: a hook's event, a host's flush, a sender marking the failure it has met, a host
   * taking the resync marker, or the last sender going away.
   */
  datatype Arrival = Offer(event: ProgressEvent) | AskFlush(ack: nat) | Mark(failure: Failure) | TakeResync | HangUp

  /** One step of anyone: an arrival, the worker, or the runtime dropping the worker. */
  datatype Move = Arrive(arrival: Arrival) | Work(observerFails: bool) | Abort

  function Deliver(s: Feed, c: Command, observerFails: bool): Feed {
    s.(kept := s.kept + [true],
       out := s.out + [OutputOf(c)],
       status := if observerFails && !c.Flush? then s.status.MarkDegraded(ObserverFailed) else s.status)
  }

  /** Handling a command at the loop head: a snapshot is held, anything else is passed on. */
  function Take(s: Feed, c: Command, observerFails: bool): Feed {
    if c.Snapshot? then s.(worker := Holding(c)) else Deliver(s.(worker := AtHead(None)), c, observerFails)
  }

  function WorkStep(s: Feed, observerFails: bool): Feed {
    match s.worker
    case Gone => s
    case AtHead(Some(c)) => Take(s, c, observerFails)
    case AtHead(None) =>
      if s.queue != [] then Take(s.(queue := s.queue[1..]), s.queue[0], observerFails)
      else if s.sendersOpen then s
      else s.(worker := Gone, status := s.status.MarkStopped(WorkerStopped), losses := s.losses + 1)
    case Holding(held) =>
      if s.queue == [] then Deliver(s.(worker := AtHead(None)), held, observerFails)
      else
        var next := s.queue[0];
        if SameKey(held, next) then s.(queue := s.queue[1..], worker := Holding(next), kept := s.kept + [false])
        else Deliver(s.(queue := s.queue[1..], worker := AtHead(Some(next))), held, observerFails)
  }

  function Meet(s: Feed, failure: Failure): Feed {
    s.(unmarked := s.unmarked.Meet(failure, 1))
  }

  /** A full queue is marked as a drop, whatever the status says by then; the others as a stop. */
  function Marked(status: Status, failure: Failure): Status {
    if failure.QueueFull? then status.MarkDropped() else status.MarkStopped(SenderFailed(failure))
  }

  function Arrived(s: Feed, arrival: Arrival): Feed {
    match arrival
    case Offer(event) =>
      if !s.sendersOpen then s
      else if s.worker.Gone? then Meet(s, ChannelClosed)
      else if |s.queue| >= QUEUE_CAPACITY then Meet(s.(dropped := s.dropped + 1), QueueFull)
      else s.(queue := s.queue + [CommandOf(event)], accepted := s.accepted + [CommandOf(event)])
    case AskFlush(ack) =>
      if !s.sendersOpen then s
      else if s.worker.Gone? then Meet(s, FlushFailed)
      else if |s.queue| >= QUEUE_CAPACITY then s
      else s.(queue := s.queue + [Flush(ack)], accepted := s.accepted + [Flush(ack)])
    case Mark(failure) =>
      if s.unmarked.Count(failure) == 0 then s
      else s.(status := Marked(s.status, failure), unmarked := s.unmarked.Less(failure), losses := s.losses + 1)
    case TakeResync => s.(status := s.status.(resyncRequired := false), losses := 0)
    case HangUp => s.(sendersOpen := false)
  }

  function Flushes(cs: seq<Command>): nat {
    if cs == [] then 0 else Flushes(cs[1..]) + if cs[0].Flush? then 1 else 0
  }

  /** The runtime drops the worker: the queue is lost, and whoever waits for a flush meets a dropped answer. */
  function Dropped(s: Feed): Feed {
    if s.worker.Gone? then s
    else
      var waiting := Flushes(InHand(s.worker) + s.queue);
      s.(worker := Gone, queue := [], unmarked := s.unmarked.Meet(FlushFailed, waiting))
  }

  function Next(s: Feed, move: Move): Feed {
    match move
    case Arrive(arrival) => Arrived(s, arrival)
    case Work(observerFails) => WorkStep(s, observerFails)
    case Abort => Dropped(s)
  }

  /** The feed after any interleaving of moves. */
  function After(moves: seq<Move>): Feed {
    if moves == [] then Opened() else Next(After(moves[..|moves| - 1]), moves[|moves| - 1])
  }

  // ---- What every interleaving keeps --------------------------------------

  function InHand(worker: Worker): seq<Command> {
    match worker
    case AtHead(Some(c)) => [c]
    case AtHead(None) => []
    case Holding(held) => [held]
    case Gone => []
  }

  /** The outputs of the commands that were passed on, in acceptance order. */
  function Passed(accepted: seq<Command>, kept: seq<bool>): seq<Output>
    requires |kept| <= |accepted|
  {
    if kept == [] then []
    else
      var last := |kept| - 1;
      Passed(accepted, kept[..last]) + if kept[last] then [OutputOf(accepted[last])] else []
  }

  predicate SupersededAt(accepted: seq<Command>, i: nat) {
    i + 1 < |accepted| && SameKey(accepted[i], accepted[i + 1])
  }

  /** A skipped command is a snapshot directly followed by a snapshot of the same call; the rest was put out. */
  predicate History(accepted: seq<Command>, kept: seq<bool>, out: seq<Output>) {
    && |kept| <= |accepted|
    && (forall i :: 0 <= i < |kept| ==> kept[i] || SupersededAt(accepted, i))
    && out == Passed(accepted, kept)
  }

  /** The drops that have been marked in the status. */
  function MarkedDrops(s: Feed): int {
    s.dropped - s.unmarked.full
  }

  /** Only senders of a worker that is gone meet anything but a full queue. */
  predicate FailuresFit(s: Feed) {
    && s.unmarked.full <= s.dropped
    && (s.unmarked.closed + s.unmarked.unanswered > 0 ==> s.worker.Gone?)
  }

  /** The status counts and shows what was marked; the resync marker stands exactly for a loss marked since it was taken. */
  predicate StatusHonest(s: Feed) {
    && FailuresFit(s)
    && s.status.droppedEvents == (if MarkedDrops(s) < U64_MAX then MarkedDrops(s) else U64_MAX)
    && (MarkedDrops(s) > 0 ==> s.status.state != Running)
    && (s.status.state == Stopped ==> s.worker.Gone?)
    && (s.status.resyncRequired <==> s.losses > 0)
  }

  /** Nothing accepted is lost: it was decided on, is in the worker's hand, or is queued, in that order. */
  predicate Accounted(s: Feed) {
    && History(s.accepted, s.kept, s.out)
    && (!s.worker.Gone? ==> s.accepted[|s.kept|..] == InHand(s.worker) + s.queue)
    && (s.worker.Holding? ==> s.worker.held.Snapshot?)
    && |s.queue| <= QUEUE_CAPACITY
  }

  lemma {:induction false} PassedExtends(accepted: seq<Command>, c: Command, kept: seq<bool>)
    requires |kept| <= |accepted|
    ensures Passed(accepted + [c], kept) == Passed(accepted, kept)
    decreases |kept|
  {
    if kept != [] {
      PassedExtends(accepted, c, kept[..|kept| - 1]);
    }
  }

  lemma HistoryExtends(accepted: seq<Command>, c: Command, kept: seq<bool>, out: seq<Output>)
    requires History(accepted, kept, out)
    ensures History(accepted + [c], kept, out)
    ensures (accepted + [c])[|kept|..] == accepted[|kept|..] + [c]
  {
    PassedExtends(accepted, c, kept);
    forall i | 0 <= i < |kept| ensures kept[i] || SupersededAt(accepted + [c], i) {
      assert kept[i] || SupersededAt(accepted, i);
    }
  }

  lemma HistoryKeeps(accepted: seq<Command>, kept: seq<bool>, out: seq<Output>, c: Command, rest: seq<Command>)
    requires History(accepted, kept, out) && accepted[|kept|..] == [c] + rest
    ensures History(accepted, kept + [true], out + [OutputOf(c)])
    ensures accepted[|kept| + 1..] == rest
  {
    RestHead(accepted, |kept|, c, rest);
    assert (kept + [true])[..|kept|] == kept;
  }

  lemma HistorySkips(accepted: seq<Command>, kept: seq<bool>, out: seq<Output>, c: Command, next: Command, rest: seq<Command>)
    requires History(accepted, kept, out) && accepted[|kept|..] == [c] + ([next] + rest) && SameKey(c, next)
    ensures History(accepted, kept + [false], out)
    ensures accepted[|kept| + 1..] == [next] + rest
  {
    RestHead(accepted, |kept|, c, [next] + rest);
    RestHead(accepted, |kept| + 1, next, rest);
    assert (kept + [false])[..|kept|] == kept;
    assert Passed(accepted, kept + [false]) == out + [] == out;
    assert SupersededAt(accepted, |kept|);
  }

  lemma RestHead<T>(all: seq<T>, k: nat, head: T, rest: seq<T>)
    requires k <= |all| && all[k..] == [head] + rest
    ensures k < |all| && all[k] == head && all[k + 1..] == rest
  {
    assert |all[k..]| == 1 + |rest|;
    assert all[k] == all[k..][0];
    assert all[k + 1..] == all[k..][1..];
  }

  lemma TakeKeepsAccount(s: Feed, c: Command, observerFails: bool)
    requires History(s.accepted, s.kept, s.out) && s.accepted[|s.kept|..] == [c] + s.queue && |s.queue| <= QUEUE_CAPACITY
    ensures Accounted(Take(s, c, observerFails))
  {
    if !c.Snapshot? {
      HistoryKeeps(s.accepted, s.kept, s.out, c, s.queue);
      assert [] + s.queue == s.queue;
    }
  }

  lemma WorkKeepsAccount(s: Feed, observerFails: bool)
    requires Accounted(s)
    ensures Accounted(WorkStep(s, observerFails))
  {
    if s.queue != [] { assert s.queue == [s.queue[0]] + s.queue[1..]; }
    assert [] + s.queue == s.queue;
    match s.worker
    case Gone =>
    case AtHead(Some(c)) => TakeKeepsAccount(s, c, observerFails);
    case AtHead(None) =>
      if s.queue != [] { TakeKeepsAccount(s.(queue := s.queue[1..]), s.queue[0], observerFails); }
    case Holding(held) => LookAheadKeepsAccount(s, held, observerFails);
  }

  lemma LookAheadKeepsAccount(s: Feed, held: Command, observerFails: bool)
    requires Accounted(s) && s.worker == Holding(held)
    ensures Accounted(WorkStep(s, observerFails))
  {
    if s.queue == [] {
      HistoryKeeps(s.accepted, s.kept, s.out, held, []);
    } else {
      var next, rest := s.queue[0], s.queue[1..];
      assert s.queue == [next] + rest;
      if SameKey(held, next) {
        HistorySkips(s.accepted, s.kept, s.out, held, next, rest);
      } else {
        HistoryKeeps(s.accepted, s.kept, s.out, held, [next] + rest);
      }
    }
  }

  lemma AcceptKeepsAccount(s: Feed, c: Command)
    requires Accounted(s) && |s.queue| < QUEUE_CAPACITY && !s.worker.Gone?
    ensures Accounted(s.(queue := s.queue + [c], accepted := s.accepted + [c]))
  {
    HistoryExtends(s.accepted, c, s.kept, s.out);
    assert InHand(s.worker) + (s.queue + [c]) == (InHand(s.worker) + s.queue) + [c];
  }

  lemma WorkKeepsStatus(s: Feed, observerFails: bool)
    requires StatusHonest(s)
    ensures StatusHonest(WorkStep(s, observerFails))
  {
  }

  /** Every interleaving of hooks, flushes, worker steps and shutdown keeps the account and an honest status. */
  lemma {:induction false} EveryRunIsAccounted(moves: seq<Move>)
    ensures Accounted(After(moves)) && StatusHonest(After(moves))
    decreases |moves|
  {
    if moves == [] {
      assert Opened().accepted[0..] == [] + Opened().queue;
    } else {
      EveryRunIsAccounted(moves[..|moves| - 1]);
      NextIsAccounted(After(moves[..|moves| - 1]), moves[|moves| - 1]);
    }
  }

  /** An event offered to a worker that is there is dropped exactly if 256 commands wait; any other waits as the last one. */
  lemma DropsIffFull(moves: seq<Move>, event: ProgressEvent)
    requires After(moves).sendersOpen && !After(moves).worker.Gone?
    ensures var s, t := After(moves), After(moves + [Arrive(Offer(event))]);
            var command := if event.ShowSnapshot? then Snapshot(Key(event.turn, event.llmCallId), event) else Event(event);
            && |s.queue| <= 256
            && if |s.queue| == 256 then
                 t == s.(dropped := s.dropped + 1, unmarked := s.unmarked.(full := s.unmarked.full + 1))
               else
                 t == s.(queue := s.queue + [command], accepted := s.accepted + [command])
  {
    EveryRunIsAccounted(moves);
    assert (moves + [Arrive(Offer(event))])[..|moves|] == moves;
  }

  lemma AcceptedIsAccounted(s: Feed, c: Command)
    requires Accounted(s) && StatusHonest(s) && |s.queue| < QUEUE_CAPACITY && !s.worker.Gone?
    ensures var t := s.(queue := s.queue + [c], accepted := s.accepted + [c]); Accounted(t) && StatusHonest(t)
  {
    AcceptKeepsAccount(s, c);
  }

  lemma MetIsAccounted(s: Feed, failure: Failure)
    requires Accounted(s) && StatusHonest(s) && (s.worker.Gone? || failure.QueueFull?)
    ensures var t := Meet(if failure.QueueFull? then s.(dropped := s.dropped + 1) else s, failure);
            Accounted(t) && StatusHonest(t)
  {
  }

  lemma MarkIsAccounted(s: Feed, failure: Failure)
    requires Accounted(s) && StatusHonest(s)
    ensures Accounted(Arrived(s, Mark(failure))) && StatusHonest(Arrived(s, Mark(failure)))
  {
  }

  lemma ArrivedIsAccounted(s: Feed, arrival: Arrival)
    requires Accounted(s) && StatusHonest(s)
    ensures Accounted(Arrived(s, arrival)) && StatusHonest(Arrived(s, arrival))
  {
    match arrival
    case Offer(event) =>
      if s.worker.Gone? { MetIsAccounted(s, ChannelClosed); }
      else if |s.queue| >= QUEUE_CAPACITY { MetIsAccounted(s, QueueFull); }
      else { AcceptedIsAccounted(s, CommandOf(event)); }
    case AskFlush(ack) =>
      if s.worker.Gone? { MetIsAccounted(s, FlushFailed); }
      else if |s.queue| < QUEUE_CAPACITY { AcceptedIsAccounted(s, Flush(ack)); }
    case Mark(failure) => MarkIsAccounted(s, failure);
    case TakeResync =>
    case HangUp =>
  }

  lemma NextIsAccounted(s: Feed, move: Move)
    requires Accounted(s) && StatusHonest(s)
    ensures Accounted(Next(s, move)) && StatusHonest(Next(s, move))
  {
    match move
    case Arrive(arrival) => ArrivedIsAccounted(s, arrival);
    case Work(observerFails) =>
      WorkKeepsAccount(s, observerFails);
      WorkKeepsStatus(s, observerFails);
    case Abort =>
  }

  // ---- What the observer can rely on ---------------------------------------

  lemma {:induction false} PassedPrefix(accepted: seq<Command>, kept: seq<bool>, i: nat)
    requires i <= |kept| <= |accepted|
    ensures Passed(accepted, kept[..i]) <= Passed(accepted, kept)
    decreases |kept|
  {
    if i == |kept| {
      assert kept[..i] == kept;
    } else {
      PassedPrefix(accepted, kept[..|kept| - 1], i);
      assert kept[..|kept| - 1][..i] == kept[..i];
    }
  }

  /** Where the output of a command that was passed on stands. */
  function Rank(accepted: seq<Command>, kept: seq<bool>, i: nat): nat
    requires i <= |kept| <= |accepted|
  {
    |Passed(accepted, kept[..i])|
  }

  lemma PassedAt(accepted: seq<Command>, kept: seq<bool>, i: nat)
    requires i < |kept| <= |accepted| && kept[i]
    ensures Rank(accepted, kept, i) < |Passed(accepted, kept)|
    ensures Passed(accepted, kept)[Rank(accepted, kept, i)] == OutputOf(accepted[i])
    ensures Rank(accepted, kept, i + 1) == Rank(accepted, kept, i) + 1
  {
    PassedPrefix(accepted, kept, i + 1);
    assert kept[..i + 1][..i] == kept[..i];
  }

  /** Passed-on commands come out in acceptance order. */
  lemma PassedInOrder(accepted: seq<Command>, kept: seq<bool>, i: nat, j: nat)
    requires i < j < |kept| <= |accepted| && kept[i] && kept[j]
    ensures Rank(accepted, kept, i) < Rank(accepted, kept, j) < |Passed(accepted, kept)|
  {
    PassedAt(accepted, kept, i);
    PassedAt(accepted, kept, j);
    PassedPrefix(accepted, kept[..j], i + 1);
    assert kept[..j][..i + 1] == kept[..i + 1];
  }

  /** Every output stands for one passed-on command. */
  lemma {:induction false} PassedFrom(accepted: seq<Command>, kept: seq<bool>, p: nat) returns (i: nat)
    requires |kept| <= |accepted| && p < |Passed(accepted, kept)|
    ensures i < |kept| && kept[i] && Rank(accepted, kept, i) == p && Passed(accepted, kept)[p] == OutputOf(accepted[i])
    decreases |kept|
  {
    var front := kept[..|kept| - 1];
    if p < |Passed(accepted, front)| {
      i := PassedFrom(accepted, front, p);
      assert front[..i] == kept[..i];
    } else {
      i := |kept| - 1;
    }
  }

  /** A decided command up to `i` was passed on, or a later snapshot of its call up to `i` was. */
  lemma {:induction false} NextKept(accepted: seq<Command>, kept: seq<bool>, out: seq<Output>, j: nat, i: nat) returns (m: nat)
    requires History(accepted, kept, out) && j <= i < |kept| && kept[i]
    ensures j <= m <= i && kept[m] && (m == j || SameKey(accepted[j], accepted[m]))
    decreases i - j
  {
    if kept[j] {
      m := j;
    } else {
      assert SupersededAt(accepted, j);
      m := NextKept(accepted, kept, out, j + 1, i);
    }
  }

  /** Command `j` is among the outputs, itself or as a later snapshot of the same call accepted before `i`. */
  predicate Represented(accepted: seq<Command>, outs: seq<Output>, j: nat, i: nat)
    requires j < i < |accepted|
  {
    exists m :: j <= m < i && OutputOf(accepted[m]) in outs && (m == j || SameKey(accepted[j], accepted[m]))
  }

  /** When a flush is acknowledged, everything accepted before it has been delivered or superseded by what has. */
  lemma AckCoversEarlier(moves: seq<Move>, p: nat) returns (i: nat)
    requires p < |After(moves).out| && After(moves).out[p].Acked?
    ensures var s := After(moves);
            && i < |s.accepted| && s.accepted[i] == Flush(s.out[p].ack)
            && forall j: nat :: j < i ==> Represented(s.accepted, s.out[..p], j, i)
  {
    var s := After(moves);
    EveryRunIsAccounted(moves);
    i := PassedFrom(s.accepted, s.kept, p);
    forall j: nat | j < i ensures Represented(s.accepted, s.out[..p], j, i) {
      var m := NextKept(s.accepted, s.kept, s.out, j, i);
      PassedInOrder(s.accepted, s.kept, m, i);
      PassedAt(s.accepted, s.kept, m);
      assert s.out[..p][Rank(s.accepted, s.kept, m)] == OutputOf(s.accepted[m]);
    }
  }

  /** The last snapshot accepted for a call before anything that is not a snapshot is delivered before it. */
  lemma LastSnapshotIsDelivered(moves: seq<Move>, i: nat, j: nat) returns (p: nat, q: nat)
    requires var s := After(moves);
             && i < j < |s.kept| <= |s.accepted| && s.accepted[i].Snapshot? && !s.accepted[j].Snapshot?
             && forall m :: i < m < j ==> !SameKey(s.accepted[i], s.accepted[m])
    ensures var s := After(moves);
            p < q < |s.out| && s.out[p] == Delivered(s.accepted[i].event) && s.out[q] == OutputOf(s.accepted[j])
  {
    var s := After(moves);
    EveryRunIsAccounted(moves);
    assert s.kept[i] by { assert !SupersededAt(s.accepted, i); }
    assert s.kept[j] by { assert !SupersededAt(s.accepted, j); }
    PassedInOrder(s.accepted, s.kept, i, j);
    PassedAt(s.accepted, s.kept, i);
    PassedAt(s.accepted, s.kept, j);
    p, q := Rank(s.accepted, s.kept, i), Rank(s.accepted, s.kept, j);
  }

  /** What is not a snapshot, in order. */
  function PlainIn(cs: seq<Command>): seq<Output> {
    if cs == [] then []
    else PlainIn(cs[..|cs| - 1]) + if cs[|cs| - 1].Snapshot? then [] else [OutputOf(cs[|cs| - 1])]
  }

  function PlainOut(out: seq<Output>): seq<Output> {
    if out == [] then []
    else
      var last := out[|out| - 1];
      PlainOut(out[..|out| - 1]) + if last.Delivered? && last.event.ShowSnapshot? then [] else [last]
  }

  lemma PlainOutSnoc(out: seq<Output>, last: Output)
    ensures PlainOut(out + [last]) == PlainOut(out) + if last.Delivered? && last.event.ShowSnapshot? then [] else [last]
  {
    assert (out + [last])[..|out|] == out;
  }

  /** A command is a snapshot command exactly when it carries a snapshot. */
  predicate WellKinded(cs: seq<Command>) {
    forall i :: 0 <= i < |cs| ==> KindFits(cs[i])
  }

  predicate KindFits(c: Command) {
    !c.Flush? ==> (c.Snapshot? <==> c.event.ShowSnapshot?)
  }

  lemma NextIsWellKinded(s: Feed, move: Move)
    requires WellKinded(s.accepted)
    ensures WellKinded(Next(s, move).accepted)
  {
    if Next(s, move).accepted != s.accepted {
      var c := if move.arrival.Offer? then CommandOf(move.arrival.event) else Flush(move.arrival.ack);
      assert KindFits(c);
      assert Next(s, move).accepted == s.accepted + [c];
    }
  }

  lemma {:induction false} RunsAreWellKinded(moves: seq<Move>)
    ensures WellKinded(After(moves).accepted)
    decreases |moves|
  {
    if moves != [] {
      RunsAreWellKinded(moves[..|moves| - 1]);
      NextIsWellKinded(After(moves[..|moves| - 1]), moves[|moves| - 1]);
    }
  }

  lemma {:induction false} PlainPassed(accepted: seq<Command>, kept: seq<bool>, out: seq<Output>)
    requires History(accepted, kept, out) && WellKinded(accepted)
    ensures PlainOut(out) == PlainIn(accepted[..|kept|])
    decreases |kept|
  {
    if kept != [] {
      var last := |kept| - 1;
      var front := Passed(accepted, kept[..last]);
      PlainPassed(accepted, kept[..last], front);
      assert accepted[..|kept|][..last] == accepted[..last];
      assert KindFits(accepted[last]);
      if kept[last] {
        PlainOutSnoc(front, OutputOf(accepted[last]));
      } else {
        assert SupersededAt(accepted, last);
        assert out == front;
      }
    }
  }

  predicate Drained(s: Feed) {
    s.worker == AtHead(None) && s.queue == []
  }

  /** A worker that nobody aborted stops only after deciding on everything accepted. */
  lemma {:induction false} StopsDrained(moves: seq<Move>)
    requires Abort !in moves
    ensures var s := After(moves); (Drained(s) || s.worker.Gone?) ==> |s.kept| == |s.accepted|
    ensures After(moves).worker.Gone? ==> !After(moves).sendersOpen
    decreases |moves|
  {
    if moves != [] {
      var front, last := moves[..|moves| - 1], moves[|moves| - 1];
      assert Abort !in front && last != Abort by { assert last in moves; }
      StopsDrained(front);
      EveryRunIsAccounted(front);
      EveryRunIsAccounted(moves);
      DrainedMeansDecided(After(moves));
      DrainedMeansDecided(After(front));
      NextStopsDrained(After(front), last);
    }
  }

  lemma DrainedMeansDecided(s: Feed)
    requires Accounted(s)
    ensures Drained(s) ==> |s.kept| == |s.accepted|
  {
    if Drained(s) { assert |s.accepted[|s.kept|..]| == 0; }
  }

  lemma NextStopsDrained(s: Feed, move: Move)
    requires move != Abort && (Drained(s) ==> |s.kept| == |s.accepted|)
    requires s.worker.Gone? ==> |s.kept| == |s.accepted| && !s.sendersOpen
    ensures Next(s, move).worker.Gone? ==> |Next(s, move).kept| == |Next(s, move).accepted| && !Next(s, move).sendersOpen
  {
  }

  /**
   * Events that are not snapshots, and acknowledgements, come out complete, once and in acceptance order:
   * of everything decided at any moment, and of everything accepted once the worker is idle or has stopped.
   */
  lemma PlainEventsAreNeverLost(moves: seq<Move>)
    ensures var s := After(moves); |s.kept| <= |s.accepted| && PlainOut(s.out) == PlainIn(s.accepted[..|s.kept|])
    ensures var s := After(moves);
            Abort !in moves && (Drained(s) || s.worker.Gone?) ==> PlainOut(s.out) == PlainIn(s.accepted)
  {
    var s := After(moves);
    EveryRunIsAccounted(moves);
    RunsAreWellKinded(moves);
    PlainPassed(s.accepted, s.kept, s.out);
    if Abort !in moves && (Drained(s) || s.worker.Gone?) {
      StopsDrained(moves);
      assert s.accepted[..|s.kept|] == s.accepted;
    }
  }

  /** One move overwrites a stopped status exactly if it marks a full queue that was met before. */
  lemma StopIsOverwrittenBy(s: Feed, move: Move)
    requires s.status.state == Stopped
    ensures Next(s, move).status.state != Stopped <==> move == Arrive(Mark(QueueFull)) && s.unmarked.full > 0
  {
  }

  /** A stopped worker is gone, so nobody meets a full queue any more. */
  lemma {:induction false} StopStays(moves: seq<Move>, more: seq<Move>)
    requires After(moves).status.state == Stopped && After(moves).unmarked.full == 0
    ensures After(moves + more).status.state == Stopped && After(moves + more).unmarked.full == 0
    decreases |more|
  {
    if more == [] {
      assert moves + [] == moves;
    } else {
      var front, last := more[..|more| - 1], more[|more| - 1];
      assert moves + more == (moves + front) + [last];
      StopStays(moves, front);
      EveryRunIsAccounted(moves + front);
      AfterSnoc(moves + front, last);
      StopIsOverwrittenBy(After(moves + front), last);
    }
  }

  /** From a stopped state on, the status says stopped for good exactly if no full queue is left to be marked. */
  lemma StopLastsIff(moves: seq<Move>)
    requires After(moves).status.state == Stopped
    ensures (forall more :: After(moves + more).status.state == Stopped) <==> After(moves).unmarked.full == 0
  {
    if After(moves).unmarked.full == 0 {
      forall more ensures After(moves + more).status.state == Stopped { StopStays(moves, more); }
    } else {
      AfterSnoc(moves, Arrive(Mark(QueueFull)));
      StopIsOverwrittenBy(After(moves), Arrive(Mark(QueueFull)));
    }
  }

  function Times<T>(x: T, n: nat): (xs: seq<T>)
    ensures |xs| == n && forall i :: 0 <= i < n ==> xs[i] == x
  {
    seq(n, i => x)
  }

  lemma TimesSnoc<T>(x: T, n: nat)
    ensures Times(x, n + 1) == Times(x, n) + [x]
  {
  }

  lemma {:induction false} OffersFill(event: ProgressEvent, n: nat)
    requires n <= QUEUE_CAPACITY
    ensures After(Times(Arrive(Offer(event)), n)) ==
            Opened().(queue := Times(CommandOf(event), n), accepted := Times(CommandOf(event), n))
    decreases n
  {
    if n == 0 {
      assert Times(CommandOf(event), 0) == [];
    } else {
      OffersFill(event, n - 1);
      TimesSnoc(Arrive(Offer(event)), n - 1);
      TimesSnoc(CommandOf(event), n - 1);
      AfterSnoc(Times(Arrive(Offer(event)), n - 1), Arrive(Offer(event)));
    }
  }

  /** A sender meets a full queue, the worker is dropped and found gone, and the late mark hides that it stopped. */
  lemma LateDropHidesStop(event: ProgressEvent) returns (moves: seq<Move>)
    ensures After(moves).status.state == Stopped && After(moves).worker.Gone?
    ensures Next(After(moves), Arrive(Mark(QueueFull))).status.state == Degraded
  {
    var full := Times(Arrive(Offer(event)), QUEUE_CAPACITY);
    OffersFill(event, QUEUE_CAPACITY);
    AfterSnoc(full, Arrive(Offer(event)));
    var met := full + [Arrive(Offer(event))];
    AfterSnoc(met, Abort);
    AfterSnoc(met + [Abort], Arrive(AskFlush(0)));
    var asked := met + [Abort] + [Arrive(AskFlush(0))];
    AfterSnoc(asked, Arrive(Mark(FlushFailed)));
    moves := asked + [Arrive(Mark(FlushFailed))];
    assert After(asked).unmarked.full == 1 && After(asked).unmarked.unanswered > 0;
  }

  // ---- What the status says --------------------------------------------------

  /** What a move makes somebody note: a sender its failure, the worker an observer's failure or its own end. */
  function NoteOf(s: Feed, move: Move): seq<Note<Diagnostic>> {
    match move
    case Arrive(Mark(failure)) =>
      if s.unmarked.Count(failure) == 0 then []
      else if failure.QueueFull? then [DropNote]
      else [StopNote(SenderFailed(failure))]
    case Arrive(_) => []
    case Work(observerFails) =>
      var out := Next(s, move).out;
      if |out| > |s.out| && out[|s.out|].Delivered? && observerFails then [FaultNote(ObserverFailed)]
      else if Next(s, move).worker.Gone? && !s.worker.Gone? then [StopNote(WorkerStopped)]
      else []
    case Abort => []
  }

  function NotesOf(moves: seq<Move>): seq<Note<Diagnostic>> {
    if moves == [] then []
    else NotesOf(moves[..|moves| - 1]) + NoteOf(After(moves[..|moves| - 1]), moves[|moves| - 1])
  }

  function LastError(notes: seq<Note<Diagnostic>>): Option<Diagnostic> {
    if notes == [] then None
    else if notes[|notes| - 1].DropNote? then Some(SenderFailed(QueueFull))
    else Some(notes[|notes| - 1].error)
  }

  predicate Shows(status: Status, notes: seq<Note<Diagnostic>>) {
    && status.state == StateAfter(notes) && status.lastError == LastError(notes)
    && status.droppedEvents == Least(Drops(notes), U64_MAX)
  }

  lemma MarksShow(status: Status, notes: seq<Note<Diagnostic>>)
    requires Shows(status, notes)
    ensures Shows(status.MarkDropped(), notes + [DropNote])
    ensures forall error :: Shows(status.MarkDegraded(error), notes + [FaultNote(error)])
    ensures forall error :: Shows(status.MarkStopped(error), notes + [StopNote(error)])
  {
    NotesSnoc(notes, DropNote);
    forall error ensures Shows(status.MarkDegraded(error), notes + [FaultNote(error)]) { NotesSnoc(notes, FaultNote(error)); }
    forall error ensures Shows(status.MarkStopped(error), notes + [StopNote(error)]) { NotesSnoc(notes, StopNote(error)); }
  }

  lemma MarkShows(s: Feed, failure: Failure, notes: seq<Note<Diagnostic>>)
    requires Shows(s.status, notes)
    ensures Shows(Arrived(s, Mark(failure)).status, notes + NoteOf(s, Arrive(Mark(failure))))
  {
    MarksShow(s.status, notes);
    assert notes + [] == notes;
  }

  lemma WorkMarks(s: Feed, observerFails: bool)
    ensures var noted, status := NoteOf(s, Work(observerFails)), WorkStep(s, observerFails).status;
            && |noted| <= 1
            && (noted == [] ==> status == s.status)
            && (noted != [] ==>
                  || (noted[0] == FaultNote(ObserverFailed) && status == s.status.MarkDegraded(ObserverFailed))
                  || (noted[0] == StopNote(WorkerStopped) && status == s.status.MarkStopped(WorkerStopped)))
  {
  }

  lemma WorkShows(s: Feed, observerFails: bool, notes: seq<Note<Diagnostic>>)
    requires Shows(s.status, notes)
    ensures Shows(WorkStep(s, observerFails).status, notes + NoteOf(s, Work(observerFails)))
  {
    var noted := NoteOf(s, Work(observerFails));
    WorkMarks(s, observerFails);
    MarksShow(s.status, notes);
    if noted == [] {
      assert notes + [] == notes;
    } else {
      assert noted == [noted[0]];
    }
  }

  lemma NoteShows(s: Feed, move: Move, notes: seq<Note<Diagnostic>>)
    requires Shows(s.status, notes)
    ensures Shows(Next(s, move).status, notes + NoteOf(s, move))
  {
    assert notes + [] == notes;
    if move.Work? {
      WorkShows(s, move.observerFails, notes);
    } else if move.Arrive? && move.arrival.Mark? {
      MarkShows(s, move.arrival.failure, notes);
    }
  }

  /** The status is exactly what was noted: its state, the number of drops and the latest error. */
  lemma {:induction false} StatusShowsNotes(moves: seq<Move>)
    ensures Shows(After(moves).status, NotesOf(moves))
    ensures Drops(NotesOf(moves)) + After(moves).unmarked.full == After(moves).dropped
    decreases |moves|
  {
    if moves != [] {
      var front, last := moves[..|moves| - 1], moves[|moves| - 1];
      StatusShowsNotes(front);
      NoteShows(After(front), last, NotesOf(front));
      DropsAreMet(After(front), last, NotesOf(front));
    }
  }

  /** Whether the move marks a drop. */
  predicate MarksDrop(s: Feed, move: Move) {
    move == Arrive(Mark(QueueFull)) && s.unmarked.full > 0
  }

  lemma OnlyMarkedDropsAreNoted(s: Feed, move: Move)
    ensures |NoteOf(s, move)| <= 1
    ensures MarksDrop(s, move) <==> NoteOf(s, move) == [DropNote]
    ensures NoteOf(s, move) != [] && NoteOf(s, move)[0].DropNote? ==> MarksDrop(s, move)
  {
  }

  lemma DropsAreCounted(s: Feed, move: Move)
    ensures Next(s, move).unmarked.full + (if MarksDrop(s, move) then 1 else 0) + s.dropped == s.unmarked.full + Next(s, move).dropped
  {
  }

  lemma DropsAreMet(s: Feed, move: Move, notes: seq<Note<Diagnostic>>)
    requires Drops(notes) + s.unmarked.full == s.dropped
    ensures Drops(notes + NoteOf(s, move)) + Next(s, move).unmarked.full == Next(s, move).dropped
  {
    var noted := NoteOf(s, move);
    OnlyMarkedDropsAreNoted(s, move);
    DropsAreCounted(s, move);
    if noted == [] {
      assert notes + [] == notes;
    } else {
      assert noted == [noted[0]];
      NotesSnoc(notes, noted[0]);
    }
  }

  // ---- What is skipped -------------------------------------------------------

  /** For each command decided on, how many had been accepted by then. */
  function SeenOf(moves: seq<Move>): seq<nat> {
    if moves == [] then []
    else
      var s := After(moves[..|moves| - 1]);
      SeenOf(moves[..|moves| - 1]) + if |After(moves).kept| > |s.kept| then [|s.accepted|] else []
  }

  /** Command `i` was skipped exactly if its successor, a snapshot of the same call, had been accepted by then. */
  predicate SkippedRightly(s: Feed, seen: seq<nat>, i: nat)
    requires i < |s.kept| && |seen| == |s.kept|
  {
    s.kept[i] <==> !(SupersededAt(s.accepted, i) && i + 1 < seen[i])
  }

  predicate AllSkippedRightly(s: Feed, seen: seq<nat>) {
    && |seen| == |s.kept|
    && forall i :: 0 <= i < |s.kept| ==> seen[i] <= |s.accepted| && SkippedRightly(s, seen, i)
  }

  lemma DecidesRightly(s: Feed, observerFails: bool, t: Feed, seen: seq<nat>)
    requires Accounted(s) && t == WorkStep(s, observerFails) && |t.kept| > |s.kept| && AllSkippedRightly(s, seen)
    ensures AllSkippedRightly(t, seen + [|s.accepted|])
  {
    var k, more := |s.kept|, seen + [|s.accepted|];
    var decided := if s.worker == AtHead(None) then s.queue[0] else InHand(s.worker)[0];
    assert s.accepted[k..][0] == decided;
    if s.worker.Holding? && s.queue != [] { assert s.accepted[k..][1] == s.queue[0]; }
    if s.worker.Holding? && s.queue == [] { assert |s.accepted[k..]| == 1; }
    forall i | 0 <= i < |t.kept| ensures more[i] <= |t.accepted| && SkippedRightly(t, more, i) {
      if i < k { assert SkippedRightly(s, seen, i); }
    }
  }

  /** A snapshot is skipped exactly if a newer one of its call was already queued behind it, so no more is shown than must be. */
  lemma {:induction false} SkipsIffSuperseded(moves: seq<Move>)
    ensures AllSkippedRightly(After(moves), SeenOf(moves))
    decreases |moves|
  {
    if moves != [] {
      var front, last := moves[..|moves| - 1], moves[|moves| - 1];
      var s, t := After(front), After(moves);
      SkipsIffSuperseded(front);
      EveryRunIsAccounted(front);
      if |t.kept| > |s.kept| {
        DecidesRightly(s, last.observerFails, t, SeenOf(front));
      } else {
        assert SeenOf(front) + [] == SeenOf(front);
        StillRight(s, last, SeenOf(front));
      }
    }
  }

  lemma StillRight(s: Feed, move: Move, seen: seq<nat>)
    requires AllSkippedRightly(s, seen) && |Next(s, move).kept| == |s.kept|
    ensures AllSkippedRightly(Next(s, move), seen)
  {
    var t := Next(s, move);
    assert s.accepted <= t.accepted && t.kept == s.kept;
    forall i | 0 <= i < |t.kept| ensures seen[i] <= |t.accepted| && SkippedRightly(t, seen, i) {
      assert SkippedRightly(s, seen, i);
    }
  }

  // ---- What becomes of flushes -------------------------------------------------

  function Acks(out: seq<Output>): nat {
    if out == [] then 0 else Acks(out[..|out| - 1]) + if out[|out| - 1].Acked? then 1 else 0
  }

  /** Flushes asked of a worker that is gone. */
  function TurnedAway(moves: seq<Move>): nat {
    if moves == [] then 0
    else
      var s, last := After(moves[..|moves| - 1]), moves[|moves| - 1];
      TurnedAway(moves[..|moves| - 1]) +
      if last.Arrive? && last.arrival.AskFlush? && s.sendersOpen && s.worker.Gone? then 1 else 0
  }

  function FlushNotes(notes: seq<Note<Diagnostic>>): nat {
    if notes == [] then 0
    else FlushNotes(notes[..|notes| - 1]) + if notes[|notes| - 1] == StopNote(SenderFailed(FlushFailed)) then 1 else 0
  }

  lemma FlushNotesConcat(notes: seq<Note<Diagnostic>>, s: Feed, move: Move)
    ensures FlushNotes(notes + NoteOf(s, move)) ==
            FlushNotes(notes) + if move == Arrive(Mark(FlushFailed)) && s.unmarked.unanswered > 0 then 1 else 0
  {
    var noted := NoteOf(s, move);
    if noted == [] {
      assert notes + [] == notes;
    } else {
      assert noted == [noted[0]];
      assert (notes + noted)[..|notes|] == notes;
    }
  }

  lemma {:induction false} FlushesConcat(a: seq<Command>, b: seq<Command>)
    ensures Flushes(a + b) == Flushes(a) + Flushes(b)
  {
    if a == [] {
      assert a + b == b;
    } else {
      assert (a + b)[1..] == a[1..] + b;
      FlushesConcat(a[1..], b);
    }
  }

  lemma AcksSnoc(out: seq<Output>, last: Output)
    ensures Acks(out + [last]) == Acks(out) + if last.Acked? then 1 else 0
  {
    assert (out + [last])[..|out|] == out;
  }

  /** A flush still waits for the worker. */
  function WaitingFlushes(s: Feed): nat {
    Flushes(InHand(s.worker) + s.queue)
  }

  lemma OneFlush(c: Command)
    ensures Flushes([c]) == if c.Flush? then 1 else 0
  {
    assert [c][1..] == [];
  }

  /** Passing a command on, or holding it, settles nothing but that command. */
  lemma TakeSettles(s: Feed, c: Command, observerFails: bool)
    requires InHand(s.worker) == [] || s.worker == AtHead(Some(c))
    ensures var t := Take(s, c, observerFails);
            && Acks(t.out) + WaitingFlushes(t) == Acks(s.out) + Flushes([c] + s.queue)
            && t.unmarked == s.unmarked && t.accepted == s.accepted
  {
    var t := Take(s, c, observerFails);
    FlushesConcat([c], s.queue);
    OneFlush(c);
    AcksSnoc(s.out, OutputOf(c));
    assert c.Snapshot? ==> InHand(t.worker) + t.queue == [c] + s.queue;
    assert !c.Snapshot? ==> InHand(t.worker) + t.queue == s.queue;
  }

  lemma LookAheadSettles(s: Feed, observerFails: bool)
    requires s.worker.Holding? && s.worker.held.Snapshot?
    ensures var t := WorkStep(s, observerFails);
            && Acks(t.out) + WaitingFlushes(t) == Acks(s.out) + WaitingFlushes(s)
            && t.unmarked == s.unmarked && t.accepted == s.accepted
  {
    var t, held := WorkStep(s, observerFails), s.worker.held;
    FlushesConcat([held], s.queue);
    OneFlush(held);
    AcksSnoc(s.out, OutputOf(held));
    if s.queue == [] {
      assert InHand(t.worker) + t.queue == [];
    } else {
      assert s.queue == [s.queue[0]] + s.queue[1..];
      assert InHand(t.worker) + t.queue == s.queue;
    }
  }

  lemma WorkSettles(s: Feed, observerFails: bool)
    requires s.worker.Holding? ==> s.worker.held.Snapshot?
    ensures var t := WorkStep(s, observerFails);
            && Acks(t.out) + WaitingFlushes(t) == Acks(s.out) + WaitingFlushes(s)
            && t.unmarked == s.unmarked && t.accepted == s.accepted
  {
    match s.worker
    case Gone =>
    case AtHead(Some(c)) => TakeSettles(s, c, observerFails);
    case AtHead(None) =>
      assert [] + s.queue == s.queue;
      if s.queue != [] {
        assert s.queue == [s.queue[0]] + s.queue[1..];
        TakeSettles(s.(queue := s.queue[1..]), s.queue[0], observerFails);
      }
    case Holding(_) => LookAheadSettles(s, observerFails);
  }

  lemma ArrivalSettles(s: Feed, arrival: Arrival)
    requires s.worker.Gone? ==> s.queue == []
    ensures var t := Arrived(s, arrival);
            && Acks(t.out) == Acks(s.out)
            && Flushes(t.accepted) - WaitingFlushes(t) == Flushes(s.accepted) - WaitingFlushes(s)
            && t.unmarked.unanswered + (if arrival == Mark(FlushFailed) && s.unmarked.unanswered > 0 then 1 else 0) ==
               s.unmarked.unanswered + (if arrival.AskFlush? && s.sendersOpen && s.worker.Gone? then 1 else 0)
  {
    var t := Arrived(s, arrival);
    if t.accepted != s.accepted {
      var c := if arrival.Offer? then CommandOf(arrival.event) else Flush(arrival.ack);
      FlushesConcat(s.accepted, [c]);
      Regroup(InHand(s.worker), s.queue, [c]);
      FlushesConcat(InHand(s.worker) + s.queue, [c]);
    }
  }

  lemma AbortSettles(s: Feed)
    requires s.worker.Gone? ==> s.queue == []
    ensures var t := Dropped(s);
            && t.out == s.out && t.accepted == s.accepted && WaitingFlushes(t) == 0 && t.queue == []
            && t.unmarked.unanswered == s.unmarked.unanswered + WaitingFlushes(s)
  {
    assert InHand(Dropped(s).worker) + Dropped(s).queue == [];
  }

  /** What has become of all flushes that were asked, in numbers. */
  predicate Settled(s: Feed, turnedAway: nat, noted: nat) {
    && Flushes(s.accepted) + turnedAway == Acks(s.out) + WaitingFlushes(s) + s.unmarked.unanswered + noted
    && (s.worker.Gone? ==> s.queue == [])
  }

  lemma WorkLeavesNothing(s: Feed, observerFails: bool)
    requires s.worker.Gone? ==> s.queue == []
    ensures WorkStep(s, observerFails).worker.Gone? ==> WorkStep(s, observerFails).queue == []
  {
  }

  lemma MoveSettles(s: Feed, move: Move, turnedAway: nat, noted: nat)
    requires Accounted(s) && Settled(s, turnedAway, noted)
    ensures Settled(Next(s, move),
                    turnedAway + (if move.Arrive? && move.arrival.AskFlush? && s.sendersOpen && s.worker.Gone? then 1 else 0),
                    noted + (if move == Arrive(Mark(FlushFailed)) && s.unmarked.unanswered > 0 then 1 else 0))
  {
    if move.Work? {
      WorkSettles(s, move.observerFails);
      WorkLeavesNothing(s, move.observerFails);
    } else if move.Abort? {
      AbortSettles(s);
    } else {
      ArrivalSettles(s, move.arrival);
      ArrivalLeavesNothing(s, move.arrival);
    }
  }

  lemma ArrivalLeavesNothing(s: Feed, arrival: Arrival)
    ensures Arrived(s, arrival).worker == s.worker && (s.worker.Gone? ==> Arrived(s, arrival).queue == s.queue)
    ensures Arrived(s, arrival).out == s.out
  {
  }

  /**
   * No flush is lost: each one that was accepted or turned away has been acknowledged, still waits for the worker, or
   * has met its failure, which is noted in the status or has yet to be.
   */
  lemma {:induction false} FlushesAreSettled(moves: seq<Move>)
    ensures Settled(After(moves), TurnedAway(moves), FlushNotes(NotesOf(moves)))
    decreases |moves|
  {
    if moves != [] {
      var front, last := moves[..|moves| - 1], moves[|moves| - 1];
      FlushesAreSettled(front);
      EveryRunIsAccounted(front);
      FlushNotesConcat(NotesOf(front), After(front), last);
      MoveSettles(After(front), last, TurnedAway(front), FlushNotes(NotesOf(front)));
    }
  }

  // ---- The worker loop -----------------------------------------------------

  function Arrivals(moves: seq<Move>): seq<Arrival> {
    if moves == [] then []
    else
      var last := moves[|moves| - 1];
      Arrivals(moves[..|moves| - 1]) + if last.Arrive? then [last.arrival] else []
  }

  lemma ArrivalsSnoc(moves: seq<Move>, last: Move)
    ensures Arrivals(moves + [last]) == Arrivals(moves) + if last.Arrive? then [last.arrival] else []
  {
    assert (moves + [last])[..|moves|] == moves;
  }

  lemma AfterSnoc(moves: seq<Move>, last: Move)
    ensures After(moves + [last]) == Next(After(moves), last)
  {
    assert (moves + [last])[..|moves|] == moves;
  }

  /**
   * The queue and its worker. `script` is what arrives from outside: its next batch arrives just before the
   * worker next touches the channel, and after the last batch the senders go away.
   */
  class ProgressWorker {
    const observerFails: nat -> bool
    var script: seq<seq<Arrival>>
    var queue: seq<Command>
    var sendersOpen: bool
    var status: Status
    var unmarked: Unmarked
    var out: seq<Output>
    ghost var losses: nat
    ghost var accepted: seq<Command>
    ghost var kept: seq<bool>
    ghost var dropped: nat
    ghost var moves: seq<Move>

    constructor (script: seq<seq<Arrival>>, observerFails: nat -> bool)
      ensures this.script == script && this.observerFails == observerFails && moves == [] && Valid(AtHead(None))
    {
      this.script, this.observerFails := script, observerFails;
      queue, sendersOpen, out := [], true, [];
      status, unmarked := Status(Running, 0, false, None), Unmarked(0, 0, 0);
      accepted, kept, dropped, losses, moves := [], [], 0, 0, [];
    }

    ghost function State(worker: Worker): Feed
      reads this
    {
      Feed(queue, worker, sendersOpen, status, unmarked, accepted, kept, out, dropped, losses)
    }

    /** The fields are what the moves so far lead to. */
    ghost predicate Valid(worker: Worker)
      reads this
    {
      State(worker) == After(moves) && Abort !in moves
    }

    /** What has arrived, and what the script still holds. */
    ghost function Story(): seq<Arrival>
      reads this
    {
      Arrivals(moves) + Upcoming(script)
    }

    method TakeArrival(arrival: Arrival, ghost worker: Worker)
      requires Valid(worker) && !worker.Gone?
      modifies `queue, `sendersOpen, `status, `unmarked, `accepted, `dropped, `losses, `moves
      ensures Valid(worker) && moves == old(moves) + [Arrive(arrival)]
      ensures old(sendersOpen) && !sendersOpen ==> arrival.HangUp?
    {
      AfterSnoc(moves, Arrive(arrival));
      moves := moves + [Arrive(arrival)];
      match arrival {
        case Offer(event) =>
          if sendersOpen {
            if |queue| >= QUEUE_CAPACITY {
              unmarked := unmarked.Meet(QueueFull, 1);
              dropped := dropped + 1;
            } else {
              queue := queue + [CommandOf(event)];
              accepted := accepted + [CommandOf(event)];
            }
          }
        case AskFlush(ack) =>
          if sendersOpen && |queue| < QUEUE_CAPACITY {
            queue := queue + [Flush(ack)];
            accepted := accepted + [Flush(ack)];
          }
        case Mark(failure) =>
          if unmarked.Count(failure) > 0 {
            status := Marked(status, failure);
            unmarked := unmarked.Less(failure);
            losses := losses + 1;
          }
        case TakeResync =>
          status := status.(resyncRequired := false);
          losses := 0;
        case HangUp =>
          sendersOpen := false;
      }
    }

    method TakeBatch(batch: seq<Arrival>, ghost worker: Worker)
      requires Valid(worker) && !worker.Gone?
      modifies `queue, `sendersOpen, `status, `unmarked, `accepted, `dropped, `losses, `moves
      ensures Valid(worker) && Arrivals(moves) == old(Arrivals(moves)) + batch
    {
      for i := 0 to |batch|
        invariant Valid(worker) && Arrivals(moves) == old(Arrivals(moves)) + batch[..i]
      {
        ArrivalsSnoc(moves, Arrive(batch[i]));
        TakeArrival(batch[i], worker);
        assert old(Arrivals(moves)) + batch[..i] + [batch[i]] == old(Arrivals(moves)) + batch[..i + 1];
      }
      assert batch[..|batch|] == batch;
    }

    /** Lets the outside act. */
    method LetArrive(ghost worker: Worker)
      requires Valid(worker) && !worker.Gone?
      modifies `queue, `sendersOpen, `status, `unmarked, `accepted, `dropped, `losses, `moves, `script
      ensures Valid(worker)
      ensures old(Story()) <= Story()
      ensures old(script) != [] ==> |script| < |old(script)|
      ensures old(script) == [] ==> script == [] && !sendersOpen && queue == old(queue)
    {
      if script == [] {
        if sendersOpen {
          ArrivalsSnoc(moves, Arrive(HangUp));
          TakeArrival(HangUp, worker);
        }
      } else {
        var batch := script[0];
        script := script[1..];
        TakeBatch(batch, worker);
        assert old(Arrivals(moves)) + (batch + Upcoming(script)) == (old(Arrivals(moves)) + batch) + Upcoming(script);
      }
    }

    /** A command was taken out and is not handled yet: handling it completes one step of the worker. */
    ghost predicate Handling(c: Command)
      reads this
    {
      && Abort !in moves
      && forall fails :: Next(After(moves), Work(fails)) == Take(State(AtHead(None)), c, fails)
    }

    /** Waits for a command; there is none once the queue is empty and the senders are gone. */
    method Recv() returns (r: Option<Command>)
      requires Valid(AtHead(None))
      modifies `queue, `sendersOpen, `status, `unmarked, `accepted, `dropped, `losses, `moves, `script
      ensures if r.Some? then Handling(r.value) else Valid(AtHead(None)) && queue == [] && !sendersOpen
      ensures old(Story()) <= Story()
      ensures r.Some? ==> |script| < |old(script)| || (script == old(script) && |queue| < |old(queue)|)
    {
      LetArrive(AtHead(None));
      while queue == [] && sendersOpen
        invariant Valid(AtHead(None)) && old(Story()) <= Story()
        invariant if old(script) == [] then script == [] && queue == old(queue) && !sendersOpen else |script| < |old(script)|
        decreases |script|, sendersOpen
      {
        LetArrive(AtHead(None));
      }
      if queue == [] {
        return None;
      }
      r := Some(queue[0]);
      queue := queue[1..];
    }

    method NotifyObserver(event: ProgressEvent)
      modifies `out, `status, `kept
      ensures forall w, c :: OutputOf(c) == Delivered(event) ==>
                State(w) == Deliver(old(State(w)), c, observerFails(|old(out)|))
    {
      kept := kept + [true];
      if observerFails(|out|) {
        status := status.MarkDegraded(ObserverFailed);
      }
      out := out + [Delivered(event)];
    }

    /** A completed step of the worker. */
    ghost method Stepped(fails: bool, worker: Worker)
      requires Next(After(moves), Work(fails)) == State(worker) && Abort !in moves
      modifies `moves
      ensures Valid(worker) && Story() == old(Story())
    {
      AfterSnoc(moves, Work(fails));
      ArrivalsSnoc(moves, Work(fails));
      moves := moves + [Work(fails)];
    }

    /** Replaces the held snapshot by the newer one in front of the queue. */
    method Supersede(held: Command) returns (next: Command)
      requires Valid(Holding(held)) && queue != [] && SameKey(held, queue[0])
      modifies `queue, `kept, `moves
      ensures next == old(queue[0]) && queue == old(queue[1..]) && Valid(Holding(next)) && Story() == old(Story())
    {
      next := queue[0];
      queue := queue[1..];
      kept := kept + [false];
      Stepped(false, Holding(next));
    }

    /** Delivers the held snapshot; a command found behind it is kept for the loop head. */
    method Release(held: Command) returns (pending: Option<Command>)
      requires Valid(Holding(held)) && held.Snapshot? && (queue == [] || !SameKey(held, queue[0]))
      modifies `queue, `kept, `moves, `out, `status
      ensures Valid(AtHead(pending)) && Story() == old(Story())
      ensures |queue| + Count(pending) == |old(queue)|
    {
      pending := None;
      ghost var s := State(Holding(held));
      ghost var fails := observerFails(|out|);
      if queue != [] {
        pending := Some(queue[0]);
        queue := queue[1..];
      }
      NotifyObserver(held.event);
      assert State(AtHead(pending)) == WorkStep(s, fails);
      Stepped(fails, AtHead(pending));
    }

    /** Looks ahead for newer snapshots of the same call, then delivers the newest. */
    method Coalesce(first: Command) returns (pending: Option<Command>)
      requires Valid(Holding(first)) && first.Snapshot?
      modifies `queue, `sendersOpen, `status, `unmarked, `accepted, `dropped, `losses, `moves, `script, `kept, `out
      ensures Valid(AtHead(pending)) && old(Story()) <= Story()
      ensures |script| < |old(script)| || (script == old(script) && |queue| + Count(pending) <= |old(queue)|)
    {
      var held := first;
      LetArrive(Holding(held));
      while queue != [] && SameKey(held, queue[0])
        invariant Valid(Holding(held)) && held.Snapshot? && old(Story()) <= Story()
        invariant |script| < |old(script)| || (script == old(script) && |queue| <= |old(queue)|)
        decreases |script|, |queue|
      {
        held := Supersede(held);
        LetArrive(Holding(held));
      }
      pending := Release(held);
    }

    method Handle(command: Command) returns (pending: Option<Command>)
      requires Handling(command)
      modifies `queue, `sendersOpen, `status, `unmarked, `accepted, `dropped, `losses, `moves, `script, `kept, `out
      ensures Valid(AtHead(pending)) && old(Story()) <= Story()
      ensures |script| < |old(script)| || (script == old(script) && |queue| + Count(pending) <= |old(queue)|)
    {
      pending := None;
      match command {
        case Event(event) =>
          ghost var fails := observerFails(|out|);
          NotifyObserver(event);
          Stepped(fails, AtHead(None));
        case Snapshot(_, _) =>
          Stepped(false, Holding(command));
          pending := Coalesce(command);
        case Flush(ack) =>
          kept := kept + [true];
          out := out + [Acked(ack)];
          Stepped(false, AtHead(None));
      }
    }

    /** The worker: one command at a time, until nothing is queued and nobody can send. */
    method RunWorker()
      requires Valid(AtHead(None))
      modifies this
      ensures Valid(Gone) && old(Story()) <= Story()
      ensures PlainOut(out) == PlainIn(accepted)
    {
      var pending: Option<Command> := None;
      while true
        invariant Valid(AtHead(pending)) && old(Story()) <= Story()
        decreases |script|, |queue| + Count(pending)
      {
        if pending.Some? {
          pending := Handle(pending.value);
        } else {
          var received := Recv();
          if received.None? {
            break;
          }
          pending := Handle(received.value);
        }
      }
      status := status.MarkStopped(WorkerStopped);
      losses := losses + 1;
      Stepped(false, Gone);
      PlainEventsAreNeverLost(moves);
    }
  }

  function Count(pending: Option<Command>): nat {
    if pending.Some? then 1 else 0
  }

  function Upcoming(script: seq<seq<Arrival>>): seq<Arrival> {
    if script == [] then [] else script[0] + Upcoming(script[1..])
  }
}
