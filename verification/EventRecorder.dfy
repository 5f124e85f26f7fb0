/** The file that agent events are appended to, and how a reopened file continues its numbering. */
module EventRecorder {
  import opened Protocol

  const MAX_AGENT_EVENT_BYTES: nat := 64 * 1024

  /** `bytes` is the length of the record's serialized line, after truncation and without its newline. */
  datatype EventRecord = EventRecord(
    id: string,
    seqNo: Option<nat>,
    runId: string,
    turn: nat,
    kind: string,
    callStatus: Option<string>,
    toolStatus: Option<string>,
    bytes: nat)

  datatype FileLine = BlankLine | Unreadable | Line(record: EventRecord)

  datatype OpenError =
    | BadLine(line: nat)
    | ForeignRun(line: nat)
    | NoSeq(line: nat)
    | SeqOverflow

  datatype AppendError = RunIdMismatch | TooLong | WriteFailed | SequenceOverflow

  /** A write or flush fails, or works; a write may push the oldest `spill` buffered lines to disk. */
  datatype Io = IoFails | IoWorks(spill: nat)

  datatype RecorderState = RecorderState(nextSeq: nat, lastTurn: Option<nat>)

  datatype Recorder = Recorder(runId: string, disk: seq<EventRecord>, buffer: seq<EventRecord>, state: RecorderState)
  {
    function Written(): seq<EventRecord> {
      disk + buffer
    }
  }

  // ---- Reading an existing file --------------------------------------------

  function Noted(state: RecorderState, record: EventRecord): RecorderState
    requires record.seqNo.Some?
  {
    if record.seqNo.value + 1 > state.nextSeq then RecorderState(record.seqNo.value + 1, Some(record.turn)) else state
  }

  /** What is wrong with line `i`, if anything. */
  function Fault(line: FileLine, runId: string, i: nat): Option<OpenError> {
    match line
    case BlankLine => None
    case Unreadable => Some(BadLine(i + 1))
    case Line(record) =>
      if record.runId != runId then Some(ForeignRun(i + 1))
      else if record.seqNo.None? then Some(NoSeq(i + 1))
      else if record.seqNo.value >= U64_MAX then Some(SeqOverflow)
      else None
  }

  /** The state after the lines, or what is wrong with the first bad one. */
  function Existing(lines: seq<FileLine>, runId: string): Result<RecorderState, OpenError> {
    if lines == [] then Ok(RecorderState(0, None))
    else
      var last := |lines| - 1;
      match Existing(lines[..last], runId)
      case Err(e) => Err(e)
      case Ok(state) =>
        var fault := Fault(lines[last], runId, last);
        if fault.Some? then Err(fault.value)
        else if lines[last].Line? then Ok(Noted(state, lines[last].record))
        else Ok(state)
  }

  /** A line that a file can be continued behind: blank, or a record of the run with a number that leaves another one. */
  predicate Sane(line: FileLine, runId: string) {
    match line
    case BlankLine => true
    case Unreadable => false
    case Line(record) => record.runId == runId && record.seqNo.Some? && record.seqNo.value < U64_MAX
  }

  /** What the first line that is not is refused for, counting lines from 1. */
  predicate RefusedFor(line: FileLine, runId: string, i: nat, error: OpenError) {
    match error
    case BadLine(n) => line.Unreadable? && n == i + 1
    case ForeignRun(n) => line.Line? && line.record.runId != runId && n == i + 1
    case NoSeq(n) => line.Line? && line.record.runId == runId && line.record.seqNo.None? && n == i + 1
    case SeqOverflow => line.Line? && line.record.runId == runId && line.record.seqNo.Some? && line.record.seqNo.value >= U64_MAX
  }

  /** A file opens exactly when all of its lines are sane, and is otherwise refused for its first line that is not. */
  lemma {:induction false} OpensIff(lines: seq<FileLine>, runId: string)
    ensures Existing(lines, runId).Ok? <==> forall i :: 0 <= i < |lines| ==> Sane(lines[i], runId)
    ensures Existing(lines, runId).Err? ==>
              exists i :: 0 <= i < |lines| && RefusedFor(lines[i], runId, i, Existing(lines, runId).error)
                          && forall j :: 0 <= j < i ==> Sane(lines[j], runId)
    decreases |lines|
  {
    if lines != [] {
      var front, last := lines[..|lines| - 1], |lines| - 1;
      OpensIff(front, runId);
      if Existing(front, runId).Ok? {
        forall i | 0 <= i < last ensures Sane(lines[i], runId) { assert front[i] == lines[i]; }
      } else {
        var i :| 0 <= i < |front| && RefusedFor(front[i], runId, i, Existing(front, runId).error)
                 && forall j :: 0 <= j < i ==> Sane(front[j], runId);
        assert front[i] == lines[i];
        assert forall j :: 0 <= j < i ==> lines[j] == front[j];
      }
    }
  }

  predicate Holds(lines: seq<FileLine>, i: nat, seqNo: nat) {
    i < |lines| && lines[i].Line? && lines[i].record.seqNo == Some(seqNo)
  }

  /** Line `i` is the first to hold number `seqNo`, and belongs to `turn`. */
  predicate FirstHolder(lines: seq<FileLine>, i: nat, seqNo: nat, turn: Option<nat>) {
    && Holds(lines, i, seqNo)
    && turn == Some(lines[i].record.turn)
    && forall j: nat :: j < i ==> !Holds(lines, j, seqNo)
  }

  lemma FirstHolderExtends(front: seq<FileLine>, last: FileLine, i: nat, seqNo: nat, turn: Option<nat>)
    requires FirstHolder(front, i, seqNo, turn)
    ensures FirstHolder(front + [last], i, seqNo, turn)
  {
    forall j: nat | j < i ensures !Holds(front + [last], j, seqNo) {
      assert !Holds(front, j, seqNo);
    }
  }

  /** One more line of a file that opens. */
  lemma ExistingSnoc(front: seq<FileLine>, line: FileLine, runId: string)
    requires Existing(front + [line], runId).Ok?
    ensures Existing(front, runId).Ok?
    ensures line.Line? ==> line.record.seqNo.Some?
    ensures Existing(front + [line], runId).value ==
            if line.Line? then Noted(Existing(front, runId).value, line.record) else Existing(front, runId).value
  {
    assert (front + [line])[..|front|] == front;
  }

  /** Every number in the file is below the next one. */
  predicate AllBelow(lines: seq<FileLine>, next: nat) {
    forall i :: 0 <= i < |lines| && lines[i].Line? && lines[i].record.seqNo.Some? ==> lines[i].record.seqNo.value < next
  }

  lemma NewLargest(front: seq<FileLine>, line: FileLine, next: nat, seqNo: nat)
    requires AllBelow(front, next) && seqNo >= next && line.Line? && line.record.seqNo == Some(seqNo)
    ensures FirstHolder(front + [line], |front|, seqNo, Some(line.record.turn))
  {
    forall j: nat | j < |front| ensures !Holds(front + [line], j, seqNo) {
      assert (front + [line])[j] == front[j];
    }
  }

  /** The next number is one more than the largest in the file, and the last turn is that of its first holder. */
  lemma {:induction false} ContinuesAfterLargest(lines: seq<FileLine>, runId: string) returns (i: nat)
    requires Existing(lines, runId).Ok?
    ensures var state := Existing(lines, runId).value;
            && AllBelow(lines, state.nextSeq)
            && if state.nextSeq == 0 then state.lastTurn == None
               else FirstHolder(lines, i, state.nextSeq - 1, state.lastTurn)
    decreases |lines|
  {
    i := 0;
    if lines != [] {
      var front, line := lines[..|lines| - 1], lines[|lines| - 1];
      assert lines == front + [line];
      ExistingSnoc(front, line, runId);
      i := ContinuesAfterLargest(front, runId);
      var before, state := Existing(front, runId).value, Existing(lines, runId).value;
      if state != before {
        NewLargest(front, line, before.nextSeq, state.nextSeq - 1);
        i := |front|;
      } else if state.nextSeq > 0 {
        FirstHolderExtends(front, line, i, state.nextSeq - 1, state.lastTurn);
      }
    }
  }

  method ReadExistingState(lines: seq<FileLine>, runId: string) returns (r: Result<RecorderState, OpenError>)
    ensures r == Existing(lines, runId)
  {
    var state := RecorderState(0, None);
    for lineIdx := 0 to |lines|
      invariant Existing(lines[..lineIdx], runId) == Ok(state)
    {
      assert lines[..lineIdx + 1][..lineIdx] == lines[..lineIdx];
      ghost var fault := Fault(lines[lineIdx], runId, lineIdx);
      if fault.Some? { FirstFaultStops(lines, runId, lineIdx); }
      match lines[lineIdx] {
        case BlankLine =>
        case Unreadable => return Err(BadLine(lineIdx + 1));
        case Line(record) =>
          if record.runId != runId {
            return Err(ForeignRun(lineIdx + 1));
          }
          if record.seqNo.None? {
            return Err(NoSeq(lineIdx + 1));
          }
          if record.seqNo.value >= U64_MAX {
            return Err(SeqOverflow);
          }
          var candidate := record.seqNo.value + 1;
          if candidate > state.nextSeq {
            state := RecorderState(candidate, Some(record.turn));
          }
      }
    }
    assert lines[..|lines|] == lines;
    return Ok(state);
  }

  lemma {:induction false} FirstFaultStops(lines: seq<FileLine>, runId: string, i: nat)
    requires i < |lines| && Existing(lines[..i], runId).Ok? && Fault(lines[i], runId, i).Some?
    ensures Existing(lines, runId) == Err(Fault(lines[i], runId, i).value)
    decreases |lines|
  {
    var last := |lines| - 1;
    if i == last {
      assert lines[..i] == lines[..last];
    } else {
      assert lines[..last][..i] == lines[..i];
      FirstFaultStops(lines[..last], runId, i);
    }
  }

  // ---- Appending -----------------------------------------------------------

  function Spilled(r: Recorder, spill: nat): Recorder {
    var n := Least(spill, |r.buffer|);
    r.(disk := r.disk + r.buffer[..n], buffer := r.buffer[n..])
  }

  function Stamp(record: EventRecord, seqNo: nat): EventRecord {
    record.(seqNo := Some(seqNo))
  }

  predicate Writable(r: Recorder, record: EventRecord, io: Io) {
    record.runId == r.runId && record.bytes + 1 <= MAX_AGENT_EVENT_BYTES && io.IoWorks?
  }

  /** Appending stamps the next number, which is consumed only by a line that was written. */
  function Appended(r: Recorder, record: EventRecord, io: Io): (Recorder, Result<(), AppendError>) {
    if record.runId != r.runId then (r, Err(RunIdMismatch))
    else if record.bytes + 1 > MAX_AGENT_EVENT_BYTES then (r, Err(TooLong))
    else if io.IoFails? then (r, Err(WriteFailed))
    else
      var spilled := Spilled(r, io.spill);
      var written := spilled.(buffer := spilled.buffer + [Stamp(record, r.state.nextSeq)]);
      if r.state.nextSeq >= U64_MAX then (written, Err(SequenceOverflow))
      else (written.(state := RecorderState(r.state.nextSeq + 1, Some(record.turn))), Ok(()))
  }

  function Flushed(r: Recorder, io: Io): (Recorder, bool) {
    if io.IoFails? then (r, false) else (r.(disk := r.Written(), buffer := []), true)
  }

  /** Line `i` has number `i`; only past the largest 64-bit number would a number repeat. */
  predicate Numbered(lines: seq<EventRecord>, runId: string) {
    forall i :: 0 <= i < |lines| ==> NumberedAt(lines, i, runId)
  }

  predicate NumberedAt(lines: seq<EventRecord>, i: nat, runId: string)
    requires i < |lines|
  {
    lines[i].seqNo == Some(Least(i, U64_MAX)) && lines[i].runId == runId
  }

  predicate Continues(r: Recorder) {
    && Numbered(r.Written(), r.runId) && r.state.nextSeq == Least(|r.Written()|, U64_MAX)
    && (|r.Written()| <= U64_MAX ==> r.state.lastTurn == LastTurn(r.Written()))
  }

  function LastTurn(lines: seq<EventRecord>): Option<nat> {
    if lines == [] then None else Some(lines[|lines| - 1].turn)
  }

  lemma SpilledWritten(r: Recorder, spill: nat)
    ensures Spilled(r, spill).Written() == r.Written() && r.disk <= Spilled(r, spill).disk
  {
    var n := Least(spill, |r.buffer|);
    assert r.buffer == r.buffer[..n] + r.buffer[n..];
  }

  lemma AppendedWritten(r: Recorder, record: EventRecord, io: Io)
    ensures Appended(r, record, io).0.Written() ==
            r.Written() + if Writable(r, record, io) then [record.(seqNo := Some(r.state.nextSeq))] else []
    ensures r.disk <= Appended(r, record, io).0.disk && Appended(r, record, io).0.runId == r.runId
    ensures !Writable(r, record, io) ==> Appended(r, record, io).0 == r
    ensures var result := Appended(r, record, io).1;
            && (result == Err(RunIdMismatch) <==> record.runId != r.runId)
            && (result == Err(TooLong) <==> record.runId == r.runId && record.bytes + 1 > 64 * 1024)
            && (result == Err(WriteFailed) <==> record.runId == r.runId && record.bytes + 1 <= 64 * 1024 && io.IoFails?)
            && (result == Err(SequenceOverflow) <==> Writable(r, record, io) && r.state.nextSeq >= U64_MAX)
  {
    if Writable(r, record, io) {
      SpilledWritten(r, io.spill);
      var spilled := Spilled(r, io.spill);
      var line := [Stamp(record, r.state.nextSeq)];
      assert spilled.disk + (spilled.buffer + line) == (spilled.disk + spilled.buffer) + line;
    } else {
      assert r.Written() + [] == r.Written();
    }
  }

  lemma AppendContinues(r: Recorder, record: EventRecord, io: Io)
    requires Continues(r)
    ensures Continues(Appended(r, record, io).0)
  {
    AppendedWritten(r, record, io);
    var after := Appended(r, record, io).0.Written();
    forall i | 0 <= i < |after| ensures NumberedAt(after, i, r.runId) {
      assert i < |r.Written()| ==> NumberedAt(r.Written(), i, r.runId);
    }
  }

  // ---- Reopening -----------------------------------------------------------

  function LinesOf(records: seq<EventRecord>): (lines: seq<FileLine>)
    ensures |lines| == |records| && forall i :: 0 <= i < |records| ==> lines[i] == Line(records[i])
  {
    seq(|records|, i requires 0 <= i < |records| => Line(records[i]))
  }

  /** A new recorder over what reached the disk. */
  function Reopened(runId: string, disk: seq<EventRecord>): Result<Recorder, OpenError> {
    match Existing(LinesOf(disk), runId)
    case Err(e) => Err(e)
    case Ok(state) => Ok(Recorder(runId, disk, [], state))
  }

  /** A numbered file reopens, and goes on where it ended, exactly while it has not used the last number. */
  lemma {:induction false} NumberedReopensIff(runId: string, disk: seq<EventRecord>)
    requires Numbered(disk, runId)
    ensures Reopened(runId, disk).Ok? <==> |disk| <= U64_MAX
    ensures |disk| <= U64_MAX ==> Reopened(runId, disk).value.state == RecorderState(|disk|, LastTurn(disk))
    ensures |disk| > U64_MAX ==> Reopened(runId, disk) == Err(SeqOverflow)
    decreases |disk|
  {
    if disk != [] {
      var last := |disk| - 1;
      var front := disk[..last];
      forall i | 0 <= i < |front| ensures NumberedAt(front, i, runId) {
        assert NumberedAt(disk, i, runId);
      }
      NumberedReopensIff(runId, front);
      assert LinesOf(disk)[..last] == LinesOf(front);
      assert NumberedAt(disk, last, runId);
    }
  }

  datatype FileOp =
    | Append(record: EventRecord, io: Io)
    | FlushFile(io: Io)
    | CrashAndReopen

  /** The recorder after a history of appends, flushes and crashes, unless a reopening was refused. */
  function FileAfter(runId: string, ops: seq<FileOp>): Result<Recorder, OpenError> {
    if ops == [] then Reopened(runId, [])
    else
      match FileAfter(runId, ops[..|ops| - 1])
      case Err(e) => Err(e)
      case Ok(r) =>
        match ops[|ops| - 1]
        case Append(record, io) => Ok(Appended(r, record, io).0)
        case FlushFile(io) => Ok(Flushed(r, io).0)
        case CrashAndReopen => Reopened(runId, r.disk)
  }

  lemma PrefixNumbered(lines: seq<EventRecord>, n: nat, runId: string)
    requires Numbered(lines, runId) && n <= |lines|
    ensures Numbered(lines[..n], runId)
  {
    forall i | 0 <= i < n ensures NumberedAt(lines[..n], i, runId) {
      assert NumberedAt(lines, i, runId);
    }
  }

  /** Over any history the file is numbered 0, 1, 2, ... without gap or repeat, whatever a crash lost. */
  lemma {:induction false} FileStaysNumbered(runId: string, ops: seq<FileOp>)
    ensures FileAfter(runId, ops).Ok? ==>
              var r := FileAfter(runId, ops).value; r.runId == runId && Continues(r) && Numbered(r.disk, runId)
    decreases |ops|
  {
    if ops == [] {
      NumberedReopensIff(runId, []);
    } else if FileAfter(runId, ops[..|ops| - 1]).Ok? {
      FileStaysNumbered(runId, ops[..|ops| - 1]);
      var r := FileAfter(runId, ops[..|ops| - 1]).value;
      match ops[|ops| - 1]
      case Append(record, io) =>
        AppendContinues(r, record, io);
        AppendedWritten(r, record, io);
      case FlushFile(io) =>
        assert Flushed(r, io).0.Written() == r.Written();
      case CrashAndReopen =>
        NumberedReopensIff(runId, r.disk);
        if |r.disk| <= U64_MAX { assert r.disk + [] == r.disk; }
    }
    if FileAfter(runId, ops).Ok? {
      var r := FileAfter(runId, ops).value;
      assert r.Written()[..|r.disk|] == r.disk;
      PrefixNumbered(r.Written(), |r.disk|, runId);
    }
  }

  /** No line that reached the disk is lost or changed by anything that follows. */
  lemma DiskOnlyGrows(runId: string, ops: seq<FileOp>, op: FileOp)
    requires FileAfter(runId, ops).Ok? && FileAfter(runId, ops + [op]).Ok?
    ensures FileAfter(runId, ops).value.disk <= FileAfter(runId, ops + [op]).value.disk
  {
    assert (ops + [op])[..|ops|] == ops;
    var r := FileAfter(runId, ops).value;
    if op.Append? { AppendedWritten(r, op.record, op.io); }
  }

  /** No two lines share a number exactly while no more lines were written than there are 64-bit numbers. */
  lemma NumbersAreDistinctIff(runId: string, lines: seq<EventRecord>)
    requires Numbered(lines, runId)
    ensures (forall i, j :: 0 <= i < j < |lines| ==> lines[i].seqNo != lines[j].seqNo) <==> |lines| <= U64_MAX + 1
  {
    if |lines| > U64_MAX + 1 {
      assert NumberedAt(lines, U64_MAX, runId) && NumberedAt(lines, U64_MAX + 1, runId);
      assert lines[U64_MAX].seqNo == lines[U64_MAX + 1].seqNo;
    } else {
      forall i, j | 0 <= i < j < |lines| ensures lines[i].seqNo != lines[j].seqNo {
        assert NumberedAt(lines, i, runId) && NumberedAt(lines, j, runId);
      }
    }
  }

  /** Over any history of a file a number stands twice exactly once more lines were written than there are numbers. */
  lemma HistoryRepeatsIff(runId: string, ops: seq<FileOp>)
    requires FileAfter(runId, ops).Ok?
    ensures var lines := FileAfter(runId, ops).value.Written();
            (exists i, j :: 0 <= i < j < |lines| && lines[i].seqNo == lines[j].seqNo) <==> |lines| > U64_MAX + 1
  {
    FileStaysNumbered(runId, ops);
    NumbersAreDistinctIff(runId, FileAfter(runId, ops).value.Written());
  }

  /** With the last number next, two appends write it twice, and both report the overflow only after writing. */
  lemma LastNumberIsWrittenTwice(r: Recorder, a: EventRecord, b: EventRecord, ioA: Io, ioB: Io)
    requires r.state.nextSeq == U64_MAX && Writable(r, a, ioA) && Writable(r, b, ioB)
    ensures var first := Appended(r, a, ioA);
            var second := Appended(first.0, b, ioB);
            && first.1 == Err(SequenceOverflow) && second.1 == Err(SequenceOverflow)
            && second.0.Written() == r.Written() + [Stamp(a, U64_MAX)] + [Stamp(b, U64_MAX)]
  {
    AppendedWritten(r, a, ioA);
    AppendedWritten(Appended(r, a, ioA).0, b, ioB);
  }

  function Appends(record: EventRecord, n: nat): (ops: seq<FileOp>)
    ensures |ops| == n
  {
    if n == 0 then [] else Appends(record, n - 1) + [Append(record, IoWorks(0))]
  }

  lemma {:induction false} AppendsWrite(record: EventRecord, n: nat)
    requires record.bytes + 1 <= MAX_AGENT_EVENT_BYTES
    ensures var r := FileAfter(record.runId, Appends(record, n));
            r.Ok? && r.value.runId == record.runId && |r.value.Written()| == n
    decreases n
  {
    if n == 0 {
      NumberedReopensIff(record.runId, []);
    } else {
      AppendsWrite(record, n - 1);
      var ops := Appends(record, n);
      assert ops[..|ops| - 1] == Appends(record, n - 1);
      AppendedWritten(FileAfter(record.runId, Appends(record, n - 1)).value, record, IoWorks(0));
    }
  }

  /** So a run that records long enough writes its last number twice. */
  lemma LongRunRepeatsANumber(record: EventRecord)
    requires record.bytes + 1 <= MAX_AGENT_EVENT_BYTES
    ensures var r := FileAfter(record.runId, Appends(record, U64_MAX + 2));
            && r.Ok? && |r.value.Written()| == U64_MAX + 2
            && r.value.Written()[U64_MAX].seqNo == r.value.Written()[U64_MAX + 1].seqNo == Some(U64_MAX)
  {
    AppendsWrite(record, U64_MAX + 2);
    FileStaysNumbered(record.runId, Appends(record, U64_MAX + 2));
    var lines := FileAfter(record.runId, Appends(record, U64_MAX + 2)).value.Written();
    assert NumberedAt(lines, U64_MAX, record.runId) && NumberedAt(lines, U64_MAX + 1, record.runId);
  }

  class FileRecorder {
    const runId: string
    var disk: seq<EventRecord>
    var buffer: seq<EventRecord>
    var nextSeq: nat
    var lastTurn: Option<nat>

    constructor (runId: string, disk: seq<EventRecord>, state: RecorderState)
      ensures State() == Recorder(runId, disk, [], state)
    {
      this.runId, this.disk, this.buffer := runId, disk, [];
      this.nextSeq, this.lastTurn := state.nextSeq, state.lastTurn;
    }

    ghost function State(): Recorder
      reads this
    {
      Recorder(runId, disk, buffer, RecorderState(nextSeq, lastTurn))
    }

    /** Opens the file of a run, or refuses a file it cannot continue. */
    static method Open(runId: string, disk: seq<EventRecord>) returns (r: Result<FileRecorder, OpenError>)
      ensures r.Ok? ==> fresh(r.value) && Reopened(runId, disk) == Ok(r.value.State())
      ensures r.Err? ==> Reopened(runId, disk) == Err(r.error)
    {
      var state := ReadExistingState(LinesOf(disk), runId);
      if state.Err? {
        return Err(state.error);
      }
      var recorder := new FileRecorder(runId, disk, state.value);
      return Ok(recorder);
    }

    method Append(record: EventRecord, io: Io) returns (r: Result<(), AppendError>)
      modifies this
      ensures (State(), r) == Appended(old(State()), record, io)
    {
      if record.runId != runId {
        return Err(RunIdMismatch);
      }
      var stamped := Stamp(record, nextSeq);
      if stamped.bytes + 1 > MAX_AGENT_EVENT_BYTES {
        return Err(TooLong);
      }
      if io.IoFails? {
        return Err(WriteFailed);
      }
      var n := Least(io.spill, |buffer|);
      disk := disk + buffer[..n];
      buffer := buffer[n..] + [stamped];
      if nextSeq >= U64_MAX {
        return Err(SequenceOverflow);
      }
      nextSeq := nextSeq + 1;
      lastTurn := Some(record.turn);
      return Ok(());
    }

    method Flush(io: Io) returns (ok: bool)
      modifies this
      ensures (State(), ok) == Flushed(old(State()), io)
    {
      if io.IoFails? {
        return false;
      }
      disk := disk + buffer;
      buffer := [];
      return true;
    }
  }
}
