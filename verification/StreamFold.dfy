/** What the response builder computes and which streams it accepts. */
module StreamFold {
  import opened Protocol
  import opened ResponseBuilder

  // ---- Folding a stream --------------------------------------------------

  /** The builder after a stream, or nothing once an event has been refused. */
  function FoldFrom(b: BuilderState, events: seq<ModelStreamEvent>): Option<BuilderState>
    decreases |events|
  {
    if events == [] then Some(b)
    else
      match FoldFrom(b, events[..|events| - 1])
      case None => None
      case Some(front) =>
        var step := Applied(front, events[|events| - 1]);
        if step.1.Some? then None else Some(step.0)
  }

  function Fold(model: string, events: seq<ModelStreamEvent>): Option<BuilderState> {
    FoldFrom(NewState(model), events)
  }

  /** Every event is folded and `finish` then succeeds. */
  predicate Accepted(model: string, events: seq<ModelStreamEvent>) {
    Fold(model, events).Some? && FinishOf(Fold(model, events).value).Ok?
  }

  lemma FoldSnoc(b: BuilderState, events: seq<ModelStreamEvent>, last: ModelStreamEvent)
    ensures FoldFrom(b, events + [last]) ==
            match FoldFrom(b, events)
            case None => None
            case Some(front) =>
              if Applied(front, last).1.Some? then None else Some(Applied(front, last).0)
  {
    assert (events + [last])[..|events|] == events;
  }

  // ---- Text and thinking: maximal runs -----------------------------------

  datatype Piece = Piece(thinking: bool, blockIndex: nat, text: string) | Cut

  /** The text parts of a stream, with a cut wherever a tool starts. */
  function Pieces(events: seq<ModelStreamEvent>): seq<Piece> {
    if events == [] then []
    else
      Pieces(events[..|events| - 1]) +
      match events[|events| - 1]
      case TextPart(blockIndex, text) => [Piece(false, blockIndex, text)]
      case ThinkingPart(blockIndex, text) => [Piece(true, blockIndex, text)]
      case ToolUseStarted(_, _) => [Cut]
      case _ => []
  }

  predicate SameRun(p: Piece, q: Piece) {
    p.Piece? && q.Piece? && p.thinking == q.thinking && p.blockIndex == q.blockIndex
  }

  predicate AllPieces(runs: seq<Piece>) {
    forall i :: 0 <= i < |runs| ==> runs[i].Piece?
  }

  function Prepend(text: string, runs: seq<Piece>): (more: seq<Piece>)
    requires runs != [] && AllPieces(runs)
    ensures AllPieces(more) && more != []
  {
    [runs[0].(text := text + runs[0].text)] + runs[1..]
  }

  function Extend(runs: seq<Piece>, text: string): (more: seq<Piece>)
    requires runs != [] && AllPieces(runs)
    ensures AllPieces(more) && |more| == |runs|
  {
    runs[..|runs| - 1] + [runs[|runs| - 1].(text := runs[|runs| - 1].text + text)]
  }

  lemma ExtendCommutes(p: Piece, runs: seq<Piece>, text: string)
    requires runs != [] && AllPieces(runs) && p.Piece?
    ensures Extend([p] + runs, text) == [p] + Extend(runs, text)
    ensures Extend(Prepend(p.text, runs), text) == Prepend(p.text, Extend(runs, text))
  {
    assert ([p] + runs)[..|runs|] == [p] + runs[..|runs| - 1];
    if |runs| == 1 {
      assert p.text + (runs[0].text + text) == (p.text + runs[0].text) + text;
    }
  }

  /** Merges neighbouring pieces of the same kind and index; cuts separate runs. */
  function Runs(pieces: seq<Piece>): (runs: seq<Piece>)
    ensures AllPieces(runs)
    ensures pieces != [] && pieces[0].Piece? ==> runs != [] && SameRun(runs[0], pieces[0])
  {
    if pieces == [] then []
    else if pieces[0].Cut? then Runs(pieces[1..])
    else if |pieces| > 1 && SameRun(pieces[0], pieces[1]) then
      Prepend(pieces[0].text, Runs(pieces[1..]))
    else [pieces[0]] + Runs(pieces[1..])
  }

  /** The content blocks of the non-empty runs. */
  function RunBlocks(runs: seq<Piece>): seq<ContentBlock>
    requires AllPieces(runs)
  {
    if runs == [] then []
    else
      var last := runs[|runs| - 1];
      RunBlocks(runs[..|runs| - 1]) +
      if last.text == "" then [] else [if last.thinking then Thinking(last.text) else Text(last.text)]
  }

  /** The non-tool blocks of a content, in order. */
  function NonTool(content: seq<ContentBlock>): seq<ContentBlock> {
    if content == [] then []
    else
      var last := content[|content| - 1];
      NonTool(content[..|content| - 1]) + if last.ToolUse? then [] else [last]
  }

  function Fresh(p: Piece): seq<Piece> {
    if p.Cut? then [] else [p]
  }

  /** What a first piece does to the runs of the others. */
  function WithFirst(first: Piece, next: seq<Piece>, runs: seq<Piece>): seq<Piece>
    requires AllPieces(runs) && (next != [] && SameRun(first, next[0]) ==> runs != [])
  {
    if first.Cut? then runs
    else if next != [] && SameRun(first, next[0]) then Prepend(first.text, runs)
    else [first] + runs
  }

  lemma RunsCons(pieces: seq<Piece>)
    requires pieces != []
    ensures Runs(pieces) == WithFirst(pieces[0], pieces[1..], Runs(pieces[1..]))
  {
  }

  lemma PrependAppends(text: string, runs: seq<Piece>, added: seq<Piece>)
    requires AllPieces(runs) && AllPieces(added) && runs != []
    ensures Prepend(text, runs + added) == Prepend(text, runs) + added
  {
  }

  lemma WithFirstAppends(first: Piece, next: seq<Piece>, runs: seq<Piece>, added: seq<Piece>)
    requires AllPieces(runs) && AllPieces(added) && (next != [] && SameRun(first, next[0]) ==> runs != [])
    ensures WithFirst(first, next, runs + added) == WithFirst(first, next, runs) + added
  {
    if next != [] && SameRun(first, next[0]) {
      PrependAppends(first.text, runs, added);
    } else {
      Regroup([first], runs, added);
    }
  }

  lemma WithFirstExtends(first: Piece, next: seq<Piece>, runs: seq<Piece>, text: string)
    requires AllPieces(runs) && runs != []
    ensures WithFirst(first, next, runs) != []
    ensures WithFirst(first, next, runs)[|WithFirst(first, next, runs)| - 1].Piece?
    ensures Extend(WithFirst(first, next, runs), text) == WithFirst(first, next, Extend(runs, text))
  {
    if first.Piece? { ExtendCommutes(first, runs, text); }
  }

  lemma WithFirstKeepsLast(first: Piece, next: seq<Piece>, runs: seq<Piece>, p: Piece)
    requires AllPieces(runs) && runs != [] && SameRun(runs[|runs| - 1], p)
    ensures WithFirst(first, next, runs) != []
    ensures SameRun(WithFirst(first, next, runs)[|WithFirst(first, next, runs)| - 1], p)
  {
  }

  lemma {:induction false} RunsNewRun(pieces: seq<Piece>, p: Piece)
    requires pieces == [] || !SameRun(pieces[|pieces| - 1], p)
    ensures Runs(pieces + [p]) == Runs(pieces) + Fresh(p)
    decreases |pieces|
  {
    if pieces == [] {
      assert [] + [p] == [p];
      assert Runs([p]) == Fresh(p);
    } else {
      var next := pieces[1..];
      assert (pieces + [p])[1..] == next + [p];
      RunsNewRun(next, p);
      RunsCons(pieces);
      RunsCons(pieces + [p]);
      WithFirstAppends(pieces[0], next, Runs(next), Fresh(p));
      assert WithFirst(pieces[0], next + [p], Runs(next) + Fresh(p)) == WithFirst(pieces[0], next, Runs(next) + Fresh(p));
    }
  }

  lemma {:induction false} RunsSameRun(pieces: seq<Piece>, p: Piece)
    requires pieces != [] && SameRun(pieces[|pieces| - 1], p)
    ensures Runs(pieces) != [] && SameRun(Runs(pieces)[|Runs(pieces)| - 1], p)
    ensures Runs(pieces + [p]) == Extend(Runs(pieces), p.text)
    decreases |pieces|
  {
    var next := pieces[1..];
    assert (pieces + [p])[1..] == next + [p];
    RunsCons(pieces);
    RunsCons(pieces + [p]);
    if next == [] {
      assert [] + [p] == [p];
      assert Runs([p]) == [p];
    } else {
      RunsSameRun(next, p);
      WithFirstKeepsLast(pieces[0], next, Runs(next), p);
      WithFirstExtends(pieces[0], next, Runs(next), p.text);
      assert WithFirst(pieces[0], next + [p], Extend(Runs(next), p.text)) == WithFirst(pieces[0], next, Extend(Runs(next), p.text));
    }
  }

  // What each kind of event does when it is taken.

  lemma AppliedStart(b: BuilderState, id: string, name: string)
    requires Applied(b, ToolUseStarted(id, name)).1.None?
    ensures var flushed := FlushedPart(b);
            && FindTool(flushed.openTools, id) == |flushed.openTools|
            && Applied(b, ToolUseStarted(id, name)).0 ==
               flushed.(openTools := flushed.openTools + [OpenTool(id, name, "", None)])
  {
  }

  lemma AppliedInput(b: BuilderState, id: string, inputJson: string)
    requires !b.finished
    ensures var i, applied := FindTool(b.openTools, id), Applied(b, ToolUsePart(id, inputJson));
            && (applied.1.None? <==> i < |b.openTools| && b.openTools[i].finished.None?)
            && applied.0.content == b.content && QueueSlots(applied.0.openTools) == QueueSlots(b.openTools)
  {
  }

  lemma AppliedFinish(b: BuilderState, id: string, name: string, input: Json)
    requires Applied(b, ToolUseFinished(id, name, input)).1.None?
    ensures var i := FindTool(b.openTools, id);
            && i < |b.openTools| && b.openTools[i].finished.None?
            && Applied(b, ToolUseFinished(id, name, input)).0 ==
               FlushedTools(b.(openTools := b.openTools[i := b.openTools[i].(finished := Some((name, input)))]))
  {
  }

  lemma AppliedEnd(b: BuilderState, last: ModelStreamEvent)
    requires Applied(b, last).1.None? && last.Finished?
    ensures var flushed, b' := FlushedPart(b), Applied(b, last).0;
            && flushed.openTools == [] && b'.finished
            && b'.content == flushed.content && b'.openTools == flushed.openTools && b'.openPart == flushed.openPart
            && b'.openText == flushed.openText && b'.openThinking == flushed.openThinking
  {
  }

  predicate PartEvent(last: ModelStreamEvent, p: Piece) {
    p.Piece? && last == if p.thinking then ThinkingPart(p.blockIndex, p.text) else TextPart(p.blockIndex, p.text)
  }

  function PartOf(p: Piece): OpenPart
    requires p.Piece?
  {
    if p.thinking then OpenThinking(p.blockIndex) else OpenText(p.blockIndex)
  }

  lemma AppliedPart(b: BuilderState, last: ModelStreamEvent, p: Piece)
    requires Applied(b, last).1.None? && PartEvent(last, p)
    ensures !b.finished
    ensures var part := WithPart(b, PartOf(p));
            Applied(b, last).0 == if p.thinking then part.(openThinking := part.openThinking + p.text)
                                  else part.(openText := part.openText + p.text)
  {
  }

  /** The state of the open part against the runs of the stream so far. */
  predicate TextInvariant(b: BuilderState, events: seq<ModelStreamEvent>) {
    var pieces := Pieces(events);
    var runs := Runs(pieces);
    && (b.openPart.OpenText? || b.openText == "")
    && (b.openPart.OpenThinking? || b.openThinking == "")
    && (b.openPart.NoPart? ==>
          && NonTool(b.content) == RunBlocks(runs)
          && (b.finished || pieces == [] || pieces[|pieces| - 1].Cut?))
    && (!b.openPart.NoPart? ==>
          && pieces != [] && runs != []
          && SameRun(pieces[|pieces| - 1], Piece(b.openPart.OpenThinking?, b.openPart.blockIndex, ""))
          && runs[|runs| - 1] == OpenRun(b)
          && NonTool(b.content) == RunBlocks(runs[..|runs| - 1]))
  }

  function OpenRun(b: BuilderState): Piece
    requires !b.openPart.NoPart?
  {
    Piece(b.openPart.OpenThinking?, b.openPart.blockIndex, if b.openPart.OpenText? then b.openText else b.openThinking)
  }

  lemma NonToolSnoc(content: seq<ContentBlock>, last: ContentBlock)
    ensures NonTool(content + [last]) == NonTool(content) + if last.ToolUse? then [] else [last]
  {
    assert (content + [last])[..|content|] == content;
  }

  lemma FlushedText(b: BuilderState, events: seq<ModelStreamEvent>)
    requires TextInvariant(b, events)
    ensures var flushed := FlushedPart(b);
            && NonTool(flushed.content) == RunBlocks(Runs(Pieces(events)))
            && flushed.openPart == NoPart && flushed.openText == "" && flushed.openThinking == ""
  {
    var runs := Runs(Pieces(events));
    if !b.openPart.NoPart? {
      NonToolSnoc(b.content, if b.openPart.OpenText? then Text(b.openText) else Thinking(b.openThinking));
      assert runs == runs[..|runs| - 1] + [OpenRun(b)];
    }
  }

  lemma PiecesSnoc(events: seq<ModelStreamEvent>, last: ModelStreamEvent)
    ensures Pieces(events + [last]) == Pieces(events) +
            match last
            case TextPart(blockIndex, text) => [Piece(false, blockIndex, text)]
            case ThinkingPart(blockIndex, text) => [Piece(true, blockIndex, text)]
            case ToolUseStarted(_, _) => [Cut]
            case _ => []
    ensures Pieces(events) + [] == Pieces(events)
  {
    assert (events + [last])[..|events|] == events;
  }

  lemma {:induction false} FlushedToolsKeepText(b: BuilderState)
    ensures var flushed := FlushedTools(b);
            && NonTool(flushed.content) == NonTool(b.content)
            && flushed.openPart == b.openPart && flushed.openText == b.openText
            && flushed.openThinking == b.openThinking && flushed.finished == b.finished
            && flushed.stopReason == b.stopReason
    decreases |b.openTools|
  {
    if b.openTools != [] && b.openTools[0].finished.Some? {
      NonToolSnoc(b.content, FinishedBlock(b.openTools[0]));
      FlushedToolsKeepText(b.(content := b.content + [FinishedBlock(b.openTools[0])], openTools := b.openTools[1..]));
    }
  }

  lemma SameText(b: BuilderState, b': BuilderState, events: seq<ModelStreamEvent>, events': seq<ModelStreamEvent>)
    requires TextInvariant(b, events) && Pieces(events') == Pieces(events) && NonTool(b'.content) == NonTool(b.content)
    requires b'.openPart == b.openPart && b'.openText == b.openText && b'.openThinking == b.openThinking
    requires b'.finished == b.finished
    ensures TextInvariant(b', events')
  {
  }

  /** The state after flushing, when the stream is at a cut or at its end. */
  lemma FlushedIsText(b: BuilderState, b': BuilderState, events: seq<ModelStreamEvent>, events': seq<ModelStreamEvent>)
    requires TextInvariant(b, events) && b'.content == FlushedPart(b).content
    requires b'.openPart == NoPart && b'.openText == "" && b'.openThinking == ""
    requires Runs(Pieces(events')) == Runs(Pieces(events))
    requires b'.finished || (Pieces(events') != [] && Pieces(events')[|Pieces(events')| - 1].Cut?)
    ensures TextInvariant(b', events')
  {
    FlushedText(b, events);
  }

  lemma StartText(b: BuilderState, events: seq<ModelStreamEvent>, last: ModelStreamEvent)
    requires TextInvariant(b, events) && Applied(b, last).1.None? && last.ToolUseStarted?
    ensures TextInvariant(Applied(b, last).0, events + [last])
  {
    PiecesSnoc(events, last);
    RunsNewRun(Pieces(events), Cut);
    assert Runs(Pieces(events)) + [] == Runs(Pieces(events));
    FlushedText(b, events);
    AppliedStart(b, last.id, last.name);
    FlushedIsText(b, Applied(b, last).0, events, events + [last]);
  }

  lemma FinishText(b: BuilderState, events: seq<ModelStreamEvent>, id: string, name: string, input: Json)
    requires TextInvariant(b, events) && Applied(b, ToolUseFinished(id, name, input)).1.None?
    ensures TextInvariant(Applied(b, ToolUseFinished(id, name, input)).0, events + [ToolUseFinished(id, name, input)])
  {
    var last := ToolUseFinished(id, name, input);
    PiecesSnoc(events, last);
    AppliedFinish(b, id, name, input);
    var i := FindTool(b.openTools, id);
    FlushedToolsKeepText(b.(openTools := b.openTools[i := b.openTools[i].(finished := Some((name, input)))]));
    SameText(b, Applied(b, last).0, events, events + [last]);
  }

  lemma TextStep(b: BuilderState, events: seq<ModelStreamEvent>, last: ModelStreamEvent)
    requires TextInvariant(b, events) && Applied(b, last).1.None?
    ensures TextInvariant(Applied(b, last).0, events + [last])
  {
    match last
    case TextPart(blockIndex, text) => PartStep(b, events, last, Piece(false, blockIndex, text));
    case ThinkingPart(blockIndex, text) => PartStep(b, events, last, Piece(true, blockIndex, text));
    case ToolUseStarted(_, _) => StartText(b, events, last);
    case ToolUsePart(_, _) =>
      PiecesSnoc(events, last);
      SameText(b, Applied(b, last).0, events, events + [last]);
    case ToolUseFinished(id, name, input) => FinishText(b, events, id, name, input);
    case Finished(_, _, _) =>
      PiecesSnoc(events, last);
      FlushedText(b, events);
      AppliedEnd(b, last);
      FlushedIsText(b, Applied(b, last).0, events, events + [last]);
  }

  /** A part that continues the open part extends the last run. */
  lemma PartContinues(b: BuilderState, events: seq<ModelStreamEvent>, p: Piece)
    requires TextInvariant(b, events) && p.Piece?
    requires !b.openPart.NoPart? && SameRun(OpenRun(b), p)
    ensures var runs, more := Runs(Pieces(events)), Runs(Pieces(events) + [p]);
            && more != [] && |more| == |runs|
            && more[..|more| - 1] == runs[..|runs| - 1]
            && more[|more| - 1] == OpenRun(b).(text := OpenRun(b).text + p.text)
  {
    RunsSameRun(Pieces(events), p);
  }

  /** Any other part starts a new run after flushing the open one. */
  lemma PartStarts(b: BuilderState, events: seq<ModelStreamEvent>, p: Piece)
    requires TextInvariant(b, events) && p.Piece? && !b.finished
    requires b.openPart.NoPart? || !SameRun(OpenRun(b), p)
    ensures var runs, more := Runs(Pieces(events)), Runs(Pieces(events) + [p]);
            && more != []
            && more[..|more| - 1] == runs
            && more[|more| - 1] == p
  {
    RunsNewRun(Pieces(events), p);
  }

  /** An open part whose run is the last one. */
  lemma OpenIsText(b: BuilderState, events: seq<ModelStreamEvent>, p: Piece)
    requires var pieces, runs := Pieces(events), Runs(Pieces(events));
             && pieces != [] && pieces[|pieces| - 1] == p && p.Piece?
             && !b.openPart.NoPart? && SameRun(OpenRun(b), p)
             && runs != [] && runs[|runs| - 1] == OpenRun(b) && NonTool(b.content) == RunBlocks(runs[..|runs| - 1])
    requires if b.openPart.OpenText? then b.openThinking == "" else b.openText == ""
    ensures TextInvariant(b, events)
  {
  }

  lemma PartStep(b: BuilderState, events: seq<ModelStreamEvent>, last: ModelStreamEvent, p: Piece)
    requires TextInvariant(b, events) && Applied(b, last).1.None? && PartEvent(last, p)
    ensures TextInvariant(Applied(b, last).0, events + [last])
  {
    PiecesSnoc(events, last);
    AppliedPart(b, last, p);
    if !b.openPart.NoPart? && SameRun(OpenRun(b), p) {
      ContinuedPart(b, Applied(b, last).0, events, events + [last], p);
    } else {
      StartedPart(b, Applied(b, last).0, events, events + [last], p);
    }
  }

  lemma ContinuedPart(b: BuilderState, b': BuilderState, events: seq<ModelStreamEvent>, events': seq<ModelStreamEvent>, p: Piece)
    requires TextInvariant(b, events) && Pieces(events') == Pieces(events) + [p]
    requires p.Piece? && !b.openPart.NoPart? && SameRun(OpenRun(b), p)
    requires b' == if p.thinking then b.(openThinking := b.openThinking + p.text) else b.(openText := b.openText + p.text)
    ensures TextInvariant(b', events')
  {
    PartContinues(b, events, p);
    assert OpenRun(b') == OpenRun(b).(text := OpenRun(b).text + p.text);
    OpenIsText(b', events', p);
  }

  lemma StartedPart(b: BuilderState, b': BuilderState, events: seq<ModelStreamEvent>, events': seq<ModelStreamEvent>, p: Piece)
    requires TextInvariant(b, events) && !b.finished && Pieces(events') == Pieces(events) + [p]
    requires p.Piece? && (b.openPart.NoPart? || !SameRun(OpenRun(b), p))
    requires var part := FlushedPart(b).(openPart := PartOf(p));
             b' == if p.thinking then part.(openThinking := part.openThinking + p.text)
                   else part.(openText := part.openText + p.text)
    ensures TextInvariant(b', events')
  {
    FlushedText(b, events);
    PartStarts(b, events, p);
    assert "" + p.text == p.text;
    assert OpenRun(b') == p;
    OpenIsText(b', events', p);
  }

  // ---- Tools: starts matched with their finishes -------------------------

  /** A started tool and what finished it, if anything has. */
  datatype Slot = Slot(id: string, finished: Option<(string, Json)>)

  /** The first finish of `id` in a stream. */
  function FirstFinish(events: seq<ModelStreamEvent>, id: string): Option<(string, Json)> {
    if events == [] then None
    else if events[0].ToolUseFinished? && events[0].id == id then Some((events[0].name, events[0].input))
    else FirstFinish(events[1..], id)
  }

  /** The tools in start order, each with the first finish of its id after the start. */
  function Slots(events: seq<ModelStreamEvent>): seq<Slot> {
    if events == [] then []
    else if events[0].ToolUseStarted? then
      [Slot(events[0].id, FirstFinish(events[1..], events[0].id))] + Slots(events[1..])
    else Slots(events[1..])
  }

  /** A finish reaches every unfinished slot of its id. */
  function Fill(slots: seq<Slot>, id: string, finish: (string, Json)): (filled: seq<Slot>)
    ensures |filled| == |slots|
    ensures forall i :: 0 <= i < |slots| ==>
              filled[i] == if slots[i].id == id && slots[i].finished.None? then Slot(id, Some(finish)) else slots[i]
  {
    seq(|slots|, i requires 0 <= i < |slots| =>
      if slots[i].id == id && slots[i].finished.None? then Slot(id, Some(finish)) else slots[i])
  }

  lemma {:induction false} FirstFinishSnoc(events: seq<ModelStreamEvent>, last: ModelStreamEvent, id: string)
    ensures FirstFinish(events + [last], id) ==
            if FirstFinish(events, id).Some? then FirstFinish(events, id)
            else if last.ToolUseFinished? && last.id == id then Some((last.name, last.input))
            else None
  {
    if events == [] {
      assert (events + [last])[1..] == [];
    } else {
      assert (events + [last])[1..] == events[1..] + [last];
      FirstFinishSnoc(events[1..], last, id);
    }
  }

  function SlotsAfter(slots: seq<Slot>, last: ModelStreamEvent): seq<Slot> {
    match last
    case ToolUseStarted(id, _) => slots + [Slot(id, None)]
    case ToolUseFinished(id, name, input) => Fill(slots, id, (name, input))
    case _ => slots
  }

  lemma FillCons(slot: Slot, slots: seq<Slot>, id: string, finish: (string, Json))
    ensures Fill([slot] + slots, id, finish) ==
            [if slot.id == id && slot.finished.None? then Slot(id, Some(finish)) else slot] + Fill(slots, id, finish)
  {
  }

  lemma SlotsAfterCons(slot: Slot, slots: seq<Slot>, last: ModelStreamEvent)
    ensures SlotsAfter([slot] + slots, last) ==
            [if last.ToolUseFinished? && slot.id == last.id && slot.finished.None? then Slot(slot.id, Some((last.name, last.input)))
             else slot] + SlotsAfter(slots, last)
  {
    match last
    case ToolUseStarted(id, _) => Regroup([slot], slots, [Slot(id, None)]);
    case ToolUseFinished(id, name, input) => FillCons(slot, slots, id, (name, input));
    case _ =>
  }

  lemma {:induction false} SlotsSnoc(events: seq<ModelStreamEvent>, last: ModelStreamEvent)
    ensures Slots(events + [last]) == SlotsAfter(Slots(events), last)
  {
    if events == [] {
      assert (events + [last])[1..] == [];
    } else {
      var rest := events[1..];
      assert (events + [last])[1..] == rest + [last];
      SlotsSnoc(rest, last);
      if events[0].ToolUseStarted? {
        FirstFinishSnoc(rest, last, events[0].id);
        SlotsAfterCons(Slot(events[0].id, FirstFinish(rest, events[0].id)), Slots(rest), last);
      }
    }
  }

  /** The tool blocks of a content as finished slots. */
  function ToolSlots(content: seq<ContentBlock>): seq<Slot> {
    if content == [] then []
    else
      var last := content[|content| - 1];
      ToolSlots(content[..|content| - 1]) + if last.ToolUse? then [Slot(last.id, Some((last.name, last.input)))] else []
  }

  function QueueSlots(tools: seq<OpenTool>): (slots: seq<Slot>)
    ensures |slots| == |tools|
    ensures forall i :: 0 <= i < |tools| ==> slots[i] == Slot(tools[i].id, tools[i].finished)
  {
    seq(|tools|, i requires 0 <= i < |tools| => Slot(tools[i].id, tools[i].finished))
  }

  predicate DistinctTools(tools: seq<OpenTool>) {
    forall i, j :: 0 <= i < j < |tools| ==> tools[i].id != tools[j].id
  }

  /** The content and the queue hold the slots of the stream; the queue starts with an unfinished tool. */
  predicate ToolInvariant(b: BuilderState, events: seq<ModelStreamEvent>) {
    && Slots(events) == ToolSlots(b.content) + QueueSlots(b.openTools)
    && DistinctTools(b.openTools)
    && (b.openTools == [] || b.openTools[0].finished.None?)
  }

  lemma ToolSlotsSnoc(content: seq<ContentBlock>, last: ContentBlock)
    ensures ToolSlots(content + [last]) ==
            ToolSlots(content) + if last.ToolUse? then [Slot(last.id, Some((last.name, last.input)))] else []
  {
    assert (content + [last])[..|content|] == content;
  }

  lemma {:induction false} ToolSlotsFinished(content: seq<ContentBlock>)
    ensures forall i :: 0 <= i < |ToolSlots(content)| ==> ToolSlots(content)[i].finished.Some?
  {
    if content != [] {
      ToolSlotsFinished(content[..|content| - 1]);
    }
  }

  lemma FlushedPartKeepsTools(b: BuilderState)
    ensures ToolSlots(FlushedPart(b).content) == ToolSlots(b.content)
    ensures FlushedPart(b).openTools == b.openTools
    ensures b.content <= FlushedPart(b).content
    ensures FlushedPart(b).finished == b.finished
  {
    ToolSlotsSnoc(b.content, Text(b.openText));
    ToolSlotsSnoc(b.content, Thinking(b.openThinking));
  }

  lemma QueueSlotsCons(tools: seq<OpenTool>)
    requires tools != []
    ensures QueueSlots(tools) == [Slot(tools[0].id, tools[0].finished)] + QueueSlots(tools[1..])
  {
  }

  lemma FrontMovesOver(content: seq<ContentBlock>, tools: seq<OpenTool>)
    requires tools != [] && tools[0].finished.Some?
    ensures ToolSlots(content + [FinishedBlock(tools[0])]) + QueueSlots(tools[1..]) == ToolSlots(content) + QueueSlots(tools)
  {
    ToolSlotsSnoc(content, FinishedBlock(tools[0]));
    QueueSlotsCons(tools);
    Regroup(ToolSlots(content), [Slot(tools[0].id, tools[0].finished)], QueueSlots(tools[1..]));
  }

  lemma {:induction false} FlushedToolsKeepSlots(b: BuilderState)
    requires DistinctTools(b.openTools)
    ensures var flushed := FlushedTools(b);
            && ToolSlots(flushed.content) + QueueSlots(flushed.openTools) == ToolSlots(b.content) + QueueSlots(b.openTools)
            && DistinctTools(flushed.openTools)
            && (flushed.openTools == [] || flushed.openTools[0].finished.None?)
            && b.content <= flushed.content
    decreases |b.openTools|
  {
    if b.openTools != [] && b.openTools[0].finished.Some? {
      var block := FinishedBlock(b.openTools[0]);
      var next := b.(content := b.content + [block], openTools := b.openTools[1..]);
      FrontMovesOver(b.content, b.openTools);
      FlushedToolsKeepSlots(next);
    }
  }

  lemma SameTools(b: BuilderState, b': BuilderState, events: seq<ModelStreamEvent>, events': seq<ModelStreamEvent>)
    requires ToolInvariant(b, events) && Slots(events') == Slots(events)
    requires ToolSlots(b'.content) == ToolSlots(b.content) && QueueSlots(b'.openTools) == QueueSlots(b.openTools)
    ensures ToolInvariant(b', events')
  {
    var queue, queue' := b.openTools, b'.openTools;
    assert |queue| == |QueueSlots(queue)| == |QueueSlots(queue')| == |queue'|;
    forall i | 0 <= i < |queue| ensures queue'[i].id == queue[i].id && queue'[i].finished == queue[i].finished {
      assert QueueSlots(queue)[i] == QueueSlots(queue')[i];
    }
  }

  lemma QueueSlotsSnoc(tools: seq<OpenTool>, tool: OpenTool)
    ensures QueueSlots(tools + [tool]) == QueueSlots(tools) + [Slot(tool.id, tool.finished)]
  {
  }

  lemma NewToolIsDistinct(tools: seq<OpenTool>, tool: OpenTool)
    requires DistinctTools(tools) && FindTool(tools, tool.id) == |tools|
    ensures DistinctTools(tools + [tool])
  {
  }

  lemma QueueGrows(b: BuilderState, b': BuilderState, events: seq<ModelStreamEvent>, events': seq<ModelStreamEvent>, tool: OpenTool)
    requires ToolInvariant(b, events) && tool.finished.None? && FindTool(b.openTools, tool.id) == |b.openTools|
    requires ToolSlots(b'.content) == ToolSlots(b.content) && b'.openTools == b.openTools + [tool]
    requires Slots(events') == Slots(events) + [Slot(tool.id, None)]
    ensures ToolInvariant(b', events')
  {
    QueueSlotsSnoc(b.openTools, tool);
    NewToolIsDistinct(b.openTools, tool);
    Regroup(ToolSlots(b.content), QueueSlots(b.openTools), [Slot(tool.id, None)]);
  }

  lemma StartStep(b: BuilderState, events: seq<ModelStreamEvent>, id: string, name: string)
    requires ToolInvariant(b, events) && Applied(b, ToolUseStarted(id, name)).1.None?
    ensures ToolInvariant(Applied(b, ToolUseStarted(id, name)).0, events + [ToolUseStarted(id, name)])
    ensures b.content <= Applied(b, ToolUseStarted(id, name)).0.content
  {
    SlotsSnoc(events, ToolUseStarted(id, name));
    FlushedPartKeepsTools(b);
    AppliedStart(b, id, name);
    QueueGrows(b, Applied(b, ToolUseStarted(id, name)).0, events, events + [ToolUseStarted(id, name)],
               OpenTool(id, name, "", None));
  }

  lemma AppliedFlushes(b: BuilderState, last: ModelStreamEvent)
    requires Applied(b, last).1.None? && (last.TextPart? || last.ThinkingPart? || last.Finished?)
    ensures var b' := Applied(b, last).0;
            && (b'.content == b.content || b'.content == FlushedPart(b).content)
            && b'.openTools == FlushedPart(b).openTools
  {
  }

  lemma FlushedStep(b: BuilderState, events: seq<ModelStreamEvent>, last: ModelStreamEvent)
    requires ToolInvariant(b, events) && Applied(b, last).1.None?
    requires last.TextPart? || last.ThinkingPart? || last.Finished?
    ensures ToolInvariant(Applied(b, last).0, events + [last])
    ensures b.content <= Applied(b, last).0.content
  {
    SlotsSnoc(events, last);
    FlushedPartKeepsTools(b);
    AppliedFlushes(b, last);
    SameTools(b, Applied(b, last).0, events, events + [last]);
  }

  lemma InputStep(b: BuilderState, events: seq<ModelStreamEvent>, last: ModelStreamEvent)
    requires ToolInvariant(b, events) && Applied(b, last).1.None? && last.ToolUsePart?
    ensures ToolInvariant(Applied(b, last).0, events + [last])
    ensures b.content <= Applied(b, last).0.content
  {
    SlotsSnoc(events, last);
    AppliedInput(b, last.id, last.inputJson);
    SameTools(b, Applied(b, last).0, events, events + [last]);
  }

  lemma ToolStep(b: BuilderState, events: seq<ModelStreamEvent>, last: ModelStreamEvent)
    requires ToolInvariant(b, events) && Applied(b, last).1.None?
    ensures ToolInvariant(Applied(b, last).0, events + [last])
    ensures b.content <= Applied(b, last).0.content
  {
    match last
    case ToolUseStarted(id, name) => StartStep(b, events, id, name);
    case ToolUsePart(_, _) => InputStep(b, events, last);
    case ToolUseFinished(id, name, input) => FinishStep(b, events, id, name, input);
    case _ => FlushedStep(b, events, last);
  }

  /** A finish fills the one queued slot of its id, and no slot of the content. */
  lemma FinishFills(content: seq<ContentBlock>, tools: seq<OpenTool>, i: nat, finish: (string, Json))
    requires DistinctTools(tools) && i < |tools| && tools[i].finished.None?
    ensures Fill(ToolSlots(content) + QueueSlots(tools), tools[i].id, finish) ==
            ToolSlots(content) + QueueSlots(tools[i := tools[i].(finished := Some(finish))])
  {
    ToolSlotsFinished(content);
  }

  lemma FinishStep(b: BuilderState, events: seq<ModelStreamEvent>, id: string, name: string, input: Json)
    requires ToolInvariant(b, events) && Applied(b, ToolUseFinished(id, name, input)).1.None?
    ensures ToolInvariant(Applied(b, ToolUseFinished(id, name, input)).0, events + [ToolUseFinished(id, name, input)])
    ensures b.content <= Applied(b, ToolUseFinished(id, name, input)).0.content
  {
    AppliedFinish(b, id, name, input);
    var i := FindTool(b.openTools, id);
    var tools := b.openTools[i := b.openTools[i].(finished := Some((name, input)))];
    SlotsSnoc(events, ToolUseFinished(id, name, input));
    FinishFills(b.content, b.openTools, i, (name, input));
    StillDistinct(b.openTools, i, Some((name, input)));
    FlushedToolsKeepSlots(b.(openTools := tools));
  }

  lemma StillDistinct(tools: seq<OpenTool>, i: nat, finish: Option<(string, Json)>)
    requires DistinctTools(tools) && i < |tools|
    ensures DistinctTools(tools[i := tools[i].(finished := finish)])
  {
  }

  // ---- Refinement --------------------------------------------------------

  predicate FinishInvariant(b: BuilderState, events: seq<ModelStreamEvent>) {
    && (b.finished <==> events != [] && events[|events| - 1].Finished?)
    && (b.finished ==>
          var last := events[|events| - 1];
          && b.openTools == [] && b.openPart == NoPart
          && b.stopReason == Some(last.stopReason) && b.usage == last.usage && b.responseId == last.responseId)
  }

  lemma {:induction false} FoldInvariant(model: string, events: seq<ModelStreamEvent>)
    requires Fold(model, events).Some?
    ensures TextInvariant(Fold(model, events).value, events)
    ensures ToolInvariant(Fold(model, events).value, events)
    ensures FinishInvariant(Fold(model, events).value, events)
    ensures Fold(model, events).value.model == Some(model)
    decreases |events|
  {
    if events == [] {
      assert QueueSlots([]) == [];
    } else {
      var front := events[..|events| - 1];
      var last := events[|events| - 1];
      assert events == front + [last];
      FoldInvariant(model, front);
      var b := Fold(model, front).value;
      TextStep(b, front, last);
      ToolStep(b, front, last);
      FinishedOnlyAtEnd(b, last);
    }
  }

  lemma FinishedOnlyAtEnd(b: BuilderState, last: ModelStreamEvent)
    requires Applied(b, last).1.None?
    ensures !b.finished
    ensures Applied(b, last).0.finished <==> last.Finished?
    ensures Applied(b, last).0.model == b.model
  {
    FlushedPartKeepsTools(b);
    if last.ToolUseFinished? {
      var i := FindTool(b.openTools, last.id);
      FlushedToolsModel(b.(openTools := b.openTools[i := b.openTools[i].(finished := Some((last.name, last.input)))]));
    }
  }

  lemma {:induction false} FlushedToolsModel(b: BuilderState)
    ensures FlushedTools(b).model == b.model && FlushedTools(b).finished == b.finished
    ensures FlushedTools(b).stopReason == b.stopReason && FlushedTools(b).usage == b.usage
    decreases |b.openTools|
  {
    if b.openTools != [] && b.openTools[0].finished.Some? {
      FlushedToolsModel(b.(content := b.content + [FinishedBlock(b.openTools[0])], openTools := b.openTools[1..]));
    }
  }

  /** The response of an accepted stream: every started tool in start order with its own finish, and the runs of text. */
  lemma ResponseOfStream(model: string, events: seq<ModelStreamEvent>)
    requires Accepted(model, events)
    ensures var response := FinishOf(Fold(model, events).value).value;
            var last := events[|events| - 1];
            && ToolSlots(response.content) == Slots(events)
            && (forall i :: 0 <= i < |Slots(events)| ==> Slots(events)[i].finished.Some?)
            && NonTool(response.content) == RunBlocks(Runs(Pieces(events)))
            && last.Finished?
            && response == ModelResponse(response.content, last.stopReason, last.usage, Some(model), last.responseId)
  {
    FoldInvariant(model, events);
    var b := Fold(model, events).value;
    assert QueueSlots(b.openTools) == [];
    ToolSlotsFinished(b.content);
  }

  // ---- The order of runs and tools ---------------------------------------

  /** The runs that nothing can extend any more: a cut, a run of another kind or the end of the stream has followed. */
  function ClosedRuns(events: seq<ModelStreamEvent>): (runs: seq<Piece>)
    ensures AllPieces(runs)
  {
    var pieces := Pieces(events);
    var runs := Runs(pieces);
    if pieces == [] || pieces[|pieces| - 1].Cut? || events[|events| - 1].Finished? || runs == [] then runs
    else runs[..|runs| - 1]
  }

  /** The tools that are finished, as are all tools started before them. */
  function Ready(slots: seq<Slot>): (ready: seq<Slot>)
    ensures forall i :: 0 <= i < |ready| ==> ready[i].finished.Some?
  {
    if slots == [] || slots[0].finished.None? then [] else [slots[0]] + Ready(slots[1..])
  }

  function SlotBlocks(slots: seq<Slot>): (blocks: seq<ContentBlock>)
    requires forall i :: 0 <= i < |slots| ==> slots[i].finished.Some?
    ensures |blocks| == |slots|
  {
    seq(|slots|, i requires 0 <= i < |slots| => ToolUse(slots[i].id, slots[i].finished.value.0, slots[i].finished.value.1))
  }

  function Since<T>(before: seq<T>, after: seq<T>): seq<T> {
    if |before| <= |after| then after[|before|..] else []
  }

  /** The blocks of a stream, each at the event that completes it: a run when it is closed, a tool when it is ready. */
  function ContentOf(events: seq<ModelStreamEvent>): seq<ContentBlock> {
    if events == [] then []
    else
      var front := events[..|events| - 1];
      ContentOf(front) +
      Since(RunBlocks(ClosedRuns(front)), RunBlocks(ClosedRuns(events))) +
      SlotBlocks(Since(Ready(Slots(front)), Ready(Slots(events))))
  }

  lemma {:induction false} ReadySplits(ready: seq<Slot>, rest: seq<Slot>)
    requires forall i :: 0 <= i < |ready| ==> ready[i].finished.Some?
    requires rest == [] || rest[0].finished.None?
    ensures Ready(ready + rest) == ready
  {
    if ready == [] {
      assert ready + rest == rest;
    } else {
      assert (ready + rest)[1..] == ready[1..] + rest;
      ReadySplits(ready[1..], rest);
    }
  }

  lemma ContentHoldsReady(b: BuilderState, events: seq<ModelStreamEvent>)
    requires ToolInvariant(b, events)
    ensures ToolSlots(b.content) == Ready(Slots(events))
  {
    ToolSlotsFinished(b.content);
    ReadySplits(ToolSlots(b.content), QueueSlots(b.openTools));
  }

  lemma ContentHoldsClosed(b: BuilderState, events: seq<ModelStreamEvent>)
    requires TextInvariant(b, events) && FinishInvariant(b, events)
    ensures NonTool(b.content) == RunBlocks(ClosedRuns(events))
  {
  }

  lemma {:induction false} NonToolConcat(a: seq<ContentBlock>, b: seq<ContentBlock>)
    ensures NonTool(a + b) == NonTool(a) + NonTool(b)
    decreases |b|
  {
    if b == [] {
      assert a + b == a;
    } else {
      var front, last := b[..|b| - 1], b[|b| - 1];
      assert a + b == (a + front) + [last];
      NonToolConcat(a, front);
      NonToolSnoc(a + front, last);
    }
  }

  lemma {:induction false} ToolSlotsConcat(a: seq<ContentBlock>, b: seq<ContentBlock>)
    ensures ToolSlots(a + b) == ToolSlots(a) + ToolSlots(b)
    decreases |b|
  {
    if b == [] {
      assert a + b == a;
    } else {
      var front, last := b[..|b| - 1], b[|b| - 1];
      assert a + b == (a + front) + [last];
      ToolSlotsConcat(a, front);
      ToolSlotsSnoc(a + front, last);
    }
  }

  lemma {:induction false} OnlyPlain(blocks: seq<ContentBlock>)
    requires ToolSlots(blocks) == []
    ensures NonTool(blocks) == blocks
    decreases |blocks|
  {
    if blocks != [] {
      OnlyPlain(blocks[..|blocks| - 1]);
    }
  }

  lemma {:induction false} OnlyTools(blocks: seq<ContentBlock>)
    requires NonTool(blocks) == []
    ensures |ToolSlots(blocks)| == |blocks| && forall i :: 0 <= i < |blocks| ==> ToolSlots(blocks)[i].finished.Some?
    ensures SlotBlocks(ToolSlots(blocks)) == blocks
    decreases |blocks|
  {
    if blocks != [] {
      OnlyTools(blocks[..|blocks| - 1]);
    }
  }

  lemma SinceAppended<T>(before: seq<T>, added: seq<T>)
    ensures Since(before, before + added) == added
  {
  }

  /** An event completes runs or makes tools ready, never both. */
  lemma OneKindAdded(events: seq<ModelStreamEvent>, last: ModelStreamEvent)
    requires events == [] || !events[|events| - 1].Finished?
    ensures last.ToolUseFinished? ==> ClosedRuns(events + [last]) == ClosedRuns(events)
    ensures !last.ToolUseFinished? ==> Ready(Slots(events + [last])) == Ready(Slots(events))
  {
    PiecesSnoc(events, last);
    SlotsSnoc(events, last);
    if last.ToolUseStarted? { ReadyIgnoresStart(Slots(events), Slot(last.id, None)); }
  }

  lemma {:induction false} ReadyIgnoresStart(slots: seq<Slot>, started: Slot)
    requires started.finished.None?
    ensures Ready(slots + [started]) == Ready(slots)
  {
    if slots != [] {
      assert (slots + [started])[1..] == slots[1..] + [started];
      ReadyIgnoresStart(slots[1..], started);
    }
  }

  lemma BlocksAdded(before: seq<ContentBlock>, added: seq<ContentBlock>)
    requires NonTool(added) == [] || ToolSlots(added) == []
    ensures forall i :: 0 <= i < |ToolSlots(added)| ==> ToolSlots(added)[i].finished.Some?
    ensures before + added == before + NonTool(added) + SlotBlocks(ToolSlots(added))
  {
    ToolSlotsFinished(added);
    if NonTool(added) == [] {
      OnlyTools(added);
      assert before + [] == before;
    } else {
      OnlyPlain(added);
      assert before + added + [] == before + added;
    }
  }

  lemma ContentAdded(b: BuilderState, b': BuilderState, events: seq<ModelStreamEvent>, all: seq<ModelStreamEvent>, last: ModelStreamEvent)
    requires TextInvariant(b, events) && ToolInvariant(b, events) && FinishInvariant(b, events) && !b.finished
    requires all == events + [last] && TextInvariant(b', all) && ToolInvariant(b', all) && FinishInvariant(b', all)
    requires b.content <= b'.content
    ensures b'.content == b.content +
                          Since(RunBlocks(ClosedRuns(events)), RunBlocks(ClosedRuns(all))) +
                          SlotBlocks(Since(Ready(Slots(events)), Ready(Slots(all))))
  {
    var added := b'.content[|b.content|..];
    assert b'.content == b.content + added;
    AddedParts(b, b', events, all, added);
    OneKindAdded(events, last);
    SinceAppended(RunBlocks(ClosedRuns(events)), NonTool(added));
    SinceAppended(Ready(Slots(events)), ToolSlots(added));
    BlocksAdded(b.content, added);
  }

  lemma AddedParts(b: BuilderState, b': BuilderState, events: seq<ModelStreamEvent>, all: seq<ModelStreamEvent>, added: seq<ContentBlock>)
    requires TextInvariant(b, events) && ToolInvariant(b, events) && FinishInvariant(b, events)
    requires TextInvariant(b', all) && ToolInvariant(b', all) && FinishInvariant(b', all)
    requires b'.content == b.content + added
    ensures RunBlocks(ClosedRuns(all)) == RunBlocks(ClosedRuns(events)) + NonTool(added)
    ensures Ready(Slots(all)) == Ready(Slots(events)) + ToolSlots(added)
  {
    NonToolConcat(b.content, added);
    ToolSlotsConcat(b.content, added);
    ContentHoldsClosed(b, events);
    ContentHoldsClosed(b', all);
    ContentHoldsReady(b, events);
    ContentHoldsReady(b', all);
  }

  /** The content of every snapshot, and so of the response: each run and tool of the stream where it is completed. */
  lemma {:induction false} ContentOfStream(model: string, events: seq<ModelStreamEvent>)
    requires Fold(model, events).Some?
    ensures Fold(model, events).value.content == ContentOf(events)
    decreases |events|
  {
    if events != [] {
      var front, last := events[..|events| - 1], events[|events| - 1];
      assert events == front + [last];
      ContentOfStream(model, front);
      FoldInvariant(model, front);
      FoldInvariant(model, events);
      var b := Fold(model, front).value;
      ToolStep(b, front, last);
      FinishedOnlyAtEnd(b, last);
      ContentAdded(b, Fold(model, events).value, front, events, last);
    }
  }

  // ---- What is still pending ---------------------------------------------

  /** All input that arrives for `id`, in order. */
  function InputOf(events: seq<ModelStreamEvent>, id: string): string {
    if events == [] then ""
    else (if events[0].ToolUsePart? && events[0].id == id then events[0].inputJson else "") + InputOf(events[1..], id)
  }

  /** The started tools that nothing has finished since, each with its name and the input it was given since. */
  function Unfinished(events: seq<ModelStreamEvent>): seq<PendingBlock> {
    if events == [] then []
    else if events[0].ToolUseStarted? && FirstFinish(events[1..], events[0].id).None? then
      [PendingToolUse(events[0].id, events[0].name, InputOf(events[1..], events[0].id))] + Unfinished(events[1..])
    else Unfinished(events[1..])
  }

  /** The first unfinished tool, or else the run that more text may extend, if it has any text. */
  function PendingIn(events: seq<ModelStreamEvent>): Option<PendingBlock> {
    var runs := Runs(Pieces(events));
    if Unfinished(events) != [] then Some(Unfinished(events)[0])
    else if ClosedRuns(events) == runs || runs[|runs| - 1].text == "" then None
    else if runs[|runs| - 1].thinking then Some(PendingThinking(runs[|runs| - 1].text))
    else Some(PendingText(runs[|runs| - 1].text))
  }

  lemma {:induction false} InputSnoc(events: seq<ModelStreamEvent>, last: ModelStreamEvent, id: string)
    ensures InputOf(events + [last], id) ==
            if last.ToolUsePart? && last.id == id then InputOf(events, id) + last.inputJson else InputOf(events, id)
  {
    if events == [] {
      assert (events + [last])[1..] == [];
    } else {
      assert (events + [last])[1..] == events[1..] + [last];
      InputSnoc(events[1..], last, id);
      var first := if events[0].ToolUsePart? && events[0].id == id then events[0].inputJson else "";
      if last.ToolUsePart? { Regroup(first, InputOf(events[1..], id), last.inputJson); }
    }
  }

  predicate AllTools(blocks: seq<PendingBlock>) {
    forall i :: 0 <= i < |blocks| ==> blocks[i].PendingToolUse?
  }

  lemma {:induction false} UnfinishedAreTools(events: seq<ModelStreamEvent>)
    ensures AllTools(Unfinished(events))
  {
    if events != [] { UnfinishedAreTools(events[1..]); }
  }

  /** What a further event makes of an unfinished tool. */
  function ToolAfter(block: PendingBlock, last: ModelStreamEvent): seq<PendingBlock>
    requires block.PendingToolUse?
  {
    if last.ToolUseFinished? && last.id == block.id then []
    else if last.ToolUsePart? && last.id == block.id then [block.(inputJson := block.inputJson + last.inputJson)]
    else [block]
  }

  function ToolsAfter(blocks: seq<PendingBlock>, last: ModelStreamEvent): seq<PendingBlock>
    requires AllTools(blocks)
  {
    if blocks == [] then (if last.ToolUseStarted? then [PendingToolUse(last.id, last.name, "")] else [])
    else ToolAfter(blocks[0], last) + ToolsAfter(blocks[1..], last)
  }

  lemma ToolsAfterCons(block: PendingBlock, blocks: seq<PendingBlock>, last: ModelStreamEvent)
    requires block.PendingToolUse? && AllTools(blocks)
    ensures ToolsAfter([block] + blocks, last) == ToolAfter(block, last) + ToolsAfter(blocks, last)
  {
    assert ([block] + blocks)[1..] == blocks;
  }

  lemma {:induction false} StartedSnoc(events: seq<ModelStreamEvent>, last: ModelStreamEvent)
    ensures AllTools(Unfinished(events)) && Unfinished(events + [last]) == ToolsAfter(Unfinished(events), last)
  {
    UnfinishedAreTools(events);
    if events == [] {
      assert (events + [last])[1..] == [];
    } else {
      var rest := events[1..];
      assert (events + [last])[1..] == rest + [last];
      StartedSnoc(rest, last);
      if events[0].ToolUseStarted? {
        var id := events[0].id;
        FirstFinishSnoc(rest, last, id);
        InputSnoc(rest, last, id);
        if FirstFinish(rest, id).None? {
          ToolsAfterCons(PendingToolUse(id, events[0].name, InputOf(rest, id)), Unfinished(rest), last);
          assert [] + ToolsAfter(Unfinished(rest), last) == ToolsAfter(Unfinished(rest), last);
        }
      }
    }
  }

  /** The unfinished tools of the queue. */
  function Waiting(tools: seq<OpenTool>): seq<PendingBlock> {
    if tools == [] then []
    else (if tools[0].finished.None? then [PendingToolUse(tools[0].id, tools[0].name, tools[0].inputJson)] else []) + Waiting(tools[1..])
  }

  lemma {:induction false} WaitingAreTools(tools: seq<OpenTool>)
    ensures AllTools(Waiting(tools))
  {
    if tools != [] { WaitingAreTools(tools[1..]); }
  }

  lemma {:induction false} FirstWaiting(tools: seq<OpenTool>)
    ensures var i := FirstUnfinished(tools);
            if i < |tools| then Waiting(tools) != [] && Waiting(tools)[0] == PendingToolUse(tools[i].id, tools[i].name, tools[i].inputJson)
            else Waiting(tools) == []
  {
    if tools != [] { FirstWaiting(tools[1..]); }
  }

  lemma {:induction false} FlushedToolsKeepWaiting(b: BuilderState)
    ensures Waiting(FlushedTools(b).openTools) == Waiting(b.openTools)
    decreases |b.openTools|
  {
    if b.openTools != [] && b.openTools[0].finished.Some? {
      FlushedToolsKeepWaiting(b.(content := b.content + [FinishedBlock(b.openTools[0])], openTools := b.openTools[1..]));
    }
  }

  /** What an event does to the tool of its id in the queue. */
  function ToolWith(tool: OpenTool, last: ModelStreamEvent): OpenTool {
    match last
    case ToolUsePart(id, json) => if tool.id == id then tool.(inputJson := tool.inputJson + json) else tool
    case ToolUseFinished(id, name, input) => if tool.id == id then tool.(finished := Some((name, input))) else tool
    case _ => tool
  }

  function QueueWith(tools: seq<OpenTool>, last: ModelStreamEvent): (changed: seq<OpenTool>)
    ensures |changed| == |tools| && forall i :: 0 <= i < |tools| ==> changed[i] == ToolWith(tools[i], last)
  {
    seq(|tools|, i requires 0 <= i < |tools| => ToolWith(tools[i], last))
  }

  function WaitsAs(tool: OpenTool): seq<PendingBlock> {
    if tool.finished.None? then [PendingToolUse(tool.id, tool.name, tool.inputJson)] else []
  }

  lemma WaitingCons(tool: OpenTool, tools: seq<OpenTool>)
    ensures Waiting([tool] + tools) == WaitsAs(tool) + Waiting(tools)
  {
    assert ([tool] + tools)[1..] == tools;
  }

  lemma OneWaitsAfter(tool: OpenTool, last: ModelStreamEvent)
    requires tool.finished.Some? ==> ToolWith(tool, last).finished.Some?
    ensures WaitsAs(ToolWith(tool, last)) ==
            if tool.finished.None? then ToolAfter(PendingToolUse(tool.id, tool.name, tool.inputJson), last) else []
  {
  }

  lemma {:induction false} WaitingAfter(tools: seq<OpenTool>, last: ModelStreamEvent)
    ensures AllTools(Waiting(tools))
    ensures Waiting(QueueWith(tools, last) + if last.ToolUseStarted? then [OpenTool(last.id, last.name, "", None)] else []) ==
            ToolsAfter(Waiting(tools), last)
  {
    WaitingAreTools(tools);
    var more := if last.ToolUseStarted? then [OpenTool(last.id, last.name, "", None)] else [];
    if tools == [] {
      assert QueueWith(tools, last) + more == more;
    } else {
      var first, rest := tools[0], tools[1..];
      assert QueueWith(tools, last) + more == [ToolWith(first, last)] + (QueueWith(rest, last) + more);
      WaitingAfter(rest, last);
      WaitingCons(ToolWith(first, last), QueueWith(rest, last) + more);
      OneWaitsAfter(first, last);
      WaitingFirst(first, rest, last);
    }
  }

  lemma WaitingFirst(first: OpenTool, rest: seq<OpenTool>, last: ModelStreamEvent)
    requires AllTools(Waiting([first] + rest)) && AllTools(Waiting(rest))
    ensures ToolsAfter(Waiting([first] + rest), last) ==
            (if first.finished.None? then ToolAfter(PendingToolUse(first.id, first.name, first.inputJson), last) else []) +
            ToolsAfter(Waiting(rest), last)
  {
    WaitingCons(first, rest);
    if first.finished.None? {
      ToolsAfterCons(PendingToolUse(first.id, first.name, first.inputJson), Waiting(rest), last);
    } else {
      assert [] + Waiting(rest) == Waiting(rest);
      assert [] + ToolsAfter(Waiting(rest), last) == ToolsAfter(Waiting(rest), last);
    }
  }

  lemma QueueWithOne(tools: seq<OpenTool>, i: nat, last: ModelStreamEvent)
    requires DistinctTools(tools) && i < |tools| && tools[i].finished.None?
    requires (last.ToolUsePart? || last.ToolUseFinished?) && last.id == tools[i].id
    ensures QueueWith(tools, last) == tools[i := ToolWith(tools[i], last)]
  {
  }

  lemma PartWaits(b: BuilderState, events: seq<ModelStreamEvent>, last: ModelStreamEvent)
    requires ToolInvariant(b, events) && Applied(b, last).1.None? && Waiting(b.openTools) == Unfinished(events)
    requires last.ToolUsePart? || last.ToolUseFinished?
    ensures Waiting(Applied(b, last).0.openTools) == Unfinished(events + [last])
  {
    var i := FindTool(b.openTools, last.id);
    var tools := b.openTools[i := ToolWith(b.openTools[i], last)];
    QueueWithOne(b.openTools, i, last);
    WaitingAfter(b.openTools, last);
    assert QueueWith(b.openTools, last) + [] == tools;
    StartedSnoc(events, last);
    FlushedToolsKeepWaiting(b.(openTools := tools));
  }

  lemma {:induction false} ToolsAfterOther(blocks: seq<PendingBlock>, last: ModelStreamEvent)
    requires AllTools(blocks) && !last.ToolUseStarted? && !last.ToolUsePart? && !last.ToolUseFinished?
    ensures ToolsAfter(blocks, last) == blocks
  {
    if blocks != [] { ToolsAfterOther(blocks[1..], last); }
  }

  lemma WaitingStep(b: BuilderState, events: seq<ModelStreamEvent>, last: ModelStreamEvent)
    requires ToolInvariant(b, events) && Applied(b, last).1.None? && Waiting(b.openTools) == Unfinished(events)
    ensures Waiting(Applied(b, last).0.openTools) == Unfinished(events + [last])
  {
    FlushedPartKeepsTools(b);
    StartedSnoc(events, last);
    match last
    case ToolUseStarted(id, name) =>
      WaitingAfter(b.openTools, last);
      AppliedStart(b, id, name);
      assert QueueWith(b.openTools, last) == b.openTools;
    case ToolUsePart(_, _) => PartWaits(b, events, last);
    case ToolUseFinished(_, _, _) => PartWaits(b, events, last);
    case _ =>
      ToolsAfterOther(Unfinished(events), last);
      AppliedFlushes(b, last);
  }

  /** What the end of a stream has said, and nothing before it. */
  predicate EndShows(snapshot: ModelResponseSnapshot, events: seq<ModelStreamEvent>) {
    if events != [] && events[|events| - 1].Finished? then
      snapshot.stopReason == Some(events[|events| - 1].stopReason) && snapshot.usage == events[|events| - 1].usage
    else snapshot.stopReason == None && snapshot.usage == None
  }

  lemma PendingRun(b: BuilderState, events: seq<ModelStreamEvent>)
    requires TextInvariant(b, events) && FinishInvariant(b, events)
    ensures var runs := Runs(Pieces(events));
            if b.openPart.NoPart? then ClosedRuns(events) == runs
            else ClosedRuns(events) != runs && runs[|runs| - 1] == OpenRun(b)
  {
  }

  lemma {:induction false} WaitingOfStream(model: string, events: seq<ModelStreamEvent>)
    requires Fold(model, events).Some?
    ensures Waiting(Fold(model, events).value.openTools) == Unfinished(events)
    decreases |events|
  {
    if events != [] {
      var front, last := events[..|events| - 1], events[|events| - 1];
      assert events == front + [last];
      WaitingOfStream(model, front);
      FoldInvariant(model, front);
      WaitingStep(Fold(model, front).value, front, last);
    }
  }

  lemma {:induction false} EndOfStreamShows(model: string, events: seq<ModelStreamEvent>)
    requires Fold(model, events).Some?
    ensures EndShows(SnapshotOf(Fold(model, events).value), events)
    decreases |events|
  {
    FoldInvariant(model, events);
    if events != [] && !events[|events| - 1].Finished? {
      var front, last := events[..|events| - 1], events[|events| - 1];
      EndOfStreamShows(model, front);
      FoldInvariant(model, front);
      MetadataOnlyAtEnd(Fold(model, front).value, last);
    }
  }

  lemma PendingOfStream(b: BuilderState, events: seq<ModelStreamEvent>)
    requires TextInvariant(b, events) && FinishInvariant(b, events) && Waiting(b.openTools) == Unfinished(events)
    ensures PendingOf(b) == PendingIn(events)
  {
    FirstWaiting(b.openTools);
    PendingRun(b, events);
  }

  /**
   * After every prefix of a stream the snapshot is determined by its events: the completed blocks, and as pending the
   * first unfinished tool with all input it was given, or else the open run of text or thinking.
   */
  lemma SnapshotOfStream(model: string, events: seq<ModelStreamEvent>)
    requires Fold(model, events).Some?
    ensures var snapshot := SnapshotOf(Fold(model, events).value);
            && snapshot.content == ContentOf(events) && snapshot.pending == PendingIn(events)
            && snapshot.model == Some(model) && EndShows(snapshot, events)
  {
    ContentOfStream(model, events);
    FoldInvariant(model, events);
    WaitingOfStream(model, events);
    PendingOfStream(Fold(model, events).value, events);
    EndOfStreamShows(model, events);
  }

  lemma MetadataOnlyAtEnd(b: BuilderState, last: ModelStreamEvent)
    requires Applied(b, last).1.None? && !last.Finished?
    ensures Applied(b, last).0.stopReason == b.stopReason && Applied(b, last).0.usage == b.usage
  {
    if last.ToolUseFinished? {
      var i := FindTool(b.openTools, last.id);
      FlushedToolsModel(b.(openTools := b.openTools[i := b.openTools[i].(finished := Some((last.name, last.input)))]));
    }
  }

  /** Each snapshot's content is a prefix of every later one. */
  lemma {:induction false} SnapshotsGrow(model: string, events: seq<ModelStreamEvent>, i: nat)
    requires i <= |events| && Fold(model, events).Some?
    ensures Fold(model, events[..i]).Some?
    ensures SnapshotOf(Fold(model, events[..i]).value).content <= SnapshotOf(Fold(model, events).value).content
    decreases |events|
  {
    if i == |events| {
      assert events[..i] == events;
    } else {
      var front := events[..|events| - 1];
      assert events == front + [events[|events| - 1]];
      SnapshotsGrow(model, front, i);
      assert front[..i] == events[..i];
      FoldInvariant(model, front);
      ToolStep(Fold(model, front).value, front, events[|events| - 1]);
    }
  }

  /** All text of one kind, in order. */
  function TextOf(pieces: seq<Piece>, thinking: bool): string {
    if pieces == [] then ""
    else (if pieces[0].Piece? && pieces[0].thinking == thinking then pieces[0].text else "") + TextOf(pieces[1..], thinking)
  }

  /** Grouping into runs neither loses nor repeats text. */
  lemma {:induction false} RunsKeepText(pieces: seq<Piece>, thinking: bool)
    ensures TextOf(Runs(pieces), thinking) == TextOf(pieces, thinking)
    decreases |pieces|
  {
    if pieces != [] {
      RunsKeepText(pieces[1..], thinking);
      var runs := Runs(pieces);
      if pieces[0].Piece? {
        if |pieces| > 1 && SameRun(pieces[0], pieces[1]) {
          var rest := Runs(pieces[1..]);
          assert runs[1..] == rest[1..];
        } else {
          assert runs[1..] == Runs(pieces[1..]);
        }
      }
    }
  }

  // ---- Acceptance --------------------------------------------------------

  /** The open tool ids after a stream, or nothing once a start, part or finish is out of place. */
  function OpenAfter(events: seq<ModelStreamEvent>): Option<set<string>> {
    if events == [] then Some({})
    else
      match OpenAfter(events[..|events| - 1])
      case None => None
      case Some(open) =>
        match events[|events| - 1]
        case ToolUseStarted(id, _) => if id in open then None else Some(open + {id})
        case ToolUsePart(id, _) => if id in open then Some(open) else None
        case ToolUseFinished(id, _, _) => if id in open then Some(open - {id}) else None
        case _ => Some(open)
  }

  predicate NoEarlyFinish(events: seq<ModelStreamEvent>) {
    forall i :: 0 <= i < |events| - 1 ==> !events[i].Finished?
  }

  /** The stream invariants of the provider contract. */
  predicate StreamInvariants(events: seq<ModelStreamEvent>) {
    && NoEarlyFinish(events)
    && events != [] && events[|events| - 1].Finished?
    && OpenAfter(events) == Some({})
  }

  /** Some tool with this id has finished while an earlier-started tool has not. */
  ghost predicate Blocked(slots: seq<Slot>, id: string) {
    exists j, k :: 0 <= k < j < |slots| && slots[j].id == id && slots[j].finished.Some? && slots[k].finished.None?
  }

  /** No id is started again while its previous use is finished but blocked behind an unfinished tool. */
  ghost predicate NoBlockedRestart(events: seq<ModelStreamEvent>) {
    forall i :: 0 <= i < |events| && events[i].ToolUseStarted? ==> !Blocked(Slots(events[..i]), events[i].id)
  }

  function UnfinishedIds(tools: seq<OpenTool>): set<string> {
    set i | 0 <= i < |tools| && tools[i].finished.None? :: tools[i].id
  }

  predicate QueuedFinished(b: BuilderState, id: string) {
    var i := FindTool(b.openTools, id); i < |b.openTools| && b.openTools[i].finished.Some?
  }

  /** The slots of the queue stand behind those of the content, and the first of them is unfinished. */
  lemma QueueSlotAt(b: BuilderState, events: seq<ModelStreamEvent>, i: nat)
    requires ToolInvariant(b, events) && i < |b.openTools|
    ensures var at := |ToolSlots(b.content)| + i;
            at < |Slots(events)| && Slots(events)[at] == Slot(b.openTools[i].id, b.openTools[i].finished)
  {
    assert QueueSlots(b.openTools)[i] == Slot(b.openTools[i].id, b.openTools[i].finished);
  }

  lemma FinishedInQueueIsBlocked(b: BuilderState, events: seq<ModelStreamEvent>, id: string)
    requires ToolInvariant(b, events) && QueuedFinished(b, id)
    ensures Blocked(Slots(events), id)
  {
    var i := FindTool(b.openTools, id);
    QueueSlotAt(b, events, i);
    QueueSlotAt(b, events, 0);
  }

  lemma ContentSlotAt(b: BuilderState, events: seq<ModelStreamEvent>, k: nat)
    requires ToolInvariant(b, events) && k < |ToolSlots(b.content)|
    ensures Slots(events)[k].finished.Some?
  {
    ToolSlotsFinished(b.content);
  }

  /** Behind an unfinished slot stand only slots of the queue. */
  lemma BehindUnfinished(b: BuilderState, events: seq<ModelStreamEvent>, j: nat, k: nat) returns (i: nat)
    requires ToolInvariant(b, events) && k < j < |Slots(events)| && Slots(events)[k].finished.None?
    ensures i < |b.openTools| && Slots(events)[j] == Slot(b.openTools[i].id, b.openTools[i].finished)
  {
    var c := |ToolSlots(b.content)|;
    if k < c { ContentSlotAt(b, events, k); }
    i := j - c;
    assert |Slots(events)| == c + |QueueSlots(b.openTools)|;
    QueueSlotAt(b, events, i);
  }

  lemma BlockedIsFinishedInQueue(b: BuilderState, events: seq<ModelStreamEvent>, id: string)
    requires ToolInvariant(b, events) && Blocked(Slots(events), id)
    ensures QueuedFinished(b, id)
  {
    var slots := Slots(events);
    var j, k :| 0 <= k < j < |slots| && slots[j].id == id && slots[j].finished.Some? && slots[k].finished.None?;
    var i := BehindUnfinished(b, events, j, k);
    FoundAt(b.openTools, i);
  }

  lemma FoundAt(tools: seq<OpenTool>, i: nat)
    requires DistinctTools(tools) && i < |tools|
    ensures FindTool(tools, tools[i].id) == i
  {
  }

  /** A queued tool is finished exactly when its id is blocked. */
  lemma QueuedFinishedIsBlocked(b: BuilderState, events: seq<ModelStreamEvent>, id: string)
    requires ToolInvariant(b, events)
    ensures Blocked(Slots(events), id) <==> QueuedFinished(b, id)
  {
    if QueuedFinished(b, id) { FinishedInQueueIsBlocked(b, events, id); }
    if Blocked(Slots(events), id) { BlockedIsFinishedInQueue(b, events, id); }
  }

  lemma QueuedUnfinishedIsOpen(tools: seq<OpenTool>, id: string)
    requires DistinctTools(tools)
    ensures id in UnfinishedIds(tools) <==>
            var i := FindTool(tools, id); i < |tools| && tools[i].finished.None?
  {
    if id in UnfinishedIds(tools) {
      var j :| 0 <= j < |tools| && tools[j].finished.None? && tools[j].id == id;
      assert FindTool(tools, id) == j;
    }
  }

  /** The builder and the invariant checker agree on the next event, blocked restarts apart. */
  ghost predicate Agrees(b: BuilderState, events: seq<ModelStreamEvent>, last: ModelStreamEvent) {
    var applied, open := Applied(b, last), OpenAfter(events + [last]);
    && (applied.1.None? <==>
          && open.Some?
          && (last.ToolUseStarted? ==> !Blocked(Slots(events), last.id))
          && (last.Finished? ==> open == Some({})))
    && (applied.1.None? ==> open == Some(UnfinishedIds(applied.0.openTools)))
  }

  lemma StartAgrees(b: BuilderState, events: seq<ModelStreamEvent>, id: string, name: string)
    requires ToolInvariant(b, events) && !b.finished
    requires OpenAfter(events) == Some(UnfinishedIds(b.openTools))
    ensures Agrees(b, events, ToolUseStarted(id, name))
  {
    OpenSnoc(events, ToolUseStarted(id, name));
    FlushedPartKeepsTools(b);
    QueuedFinishedIsBlocked(b, events, id);
    QueuedUnfinishedIsOpen(b.openTools, id);
    UnfinishedSnoc(b.openTools, OpenTool(id, name, "", None));
  }

  lemma PartAgrees(b: BuilderState, events: seq<ModelStreamEvent>, id: string, inputJson: string)
    requires ToolInvariant(b, events) && !b.finished
    requires OpenAfter(events) == Some(UnfinishedIds(b.openTools))
    ensures Agrees(b, events, ToolUsePart(id, inputJson))
  {
    OpenSnoc(events, ToolUsePart(id, inputJson));
    QueuedUnfinishedIsOpen(b.openTools, id);
    AppliedInput(b, id, inputJson);
    UnfinishedSame(b.openTools, Applied(b, ToolUsePart(id, inputJson)).0.openTools);
  }

  lemma FinishAgrees(b: BuilderState, events: seq<ModelStreamEvent>, id: string, name: string, input: Json)
    requires ToolInvariant(b, events) && !b.finished
    requires OpenAfter(events) == Some(UnfinishedIds(b.openTools))
    ensures Agrees(b, events, ToolUseFinished(id, name, input))
  {
    OpenSnoc(events, ToolUseFinished(id, name, input));
    QueuedUnfinishedIsOpen(b.openTools, id);
    var i := FindTool(b.openTools, id);
    if i < |b.openTools| && b.openTools[i].finished.None? {
      UnfinishedFinish(b.openTools, i, Some((name, input)));
      FlushedToolsUnfinished(b.(openTools := b.openTools[i := b.openTools[i].(finished := Some((name, input)))]));
    }
  }

  lemma EndAgrees(b: BuilderState, events: seq<ModelStreamEvent>, last: ModelStreamEvent)
    requires last.TextPart? || last.ThinkingPart? || last.Finished?
    requires ToolInvariant(b, events) && !b.finished
    requires OpenAfter(events) == Some(UnfinishedIds(b.openTools))
    ensures Agrees(b, events, last)
  {
    OpenSnoc(events, last);
    FlushedPartKeepsTools(b);
    if b.openTools == [] {
      assert UnfinishedIds(b.openTools) == {};
    } else {
      assert b.openTools[0].id in UnfinishedIds(b.openTools);
    }
  }

  lemma StepAgrees(b: BuilderState, events: seq<ModelStreamEvent>, last: ModelStreamEvent)
    requires ToolInvariant(b, events) && !b.finished
    requires OpenAfter(events) == Some(UnfinishedIds(b.openTools))
    ensures Agrees(b, events, last)
  {
    match last
    case ToolUseStarted(id, name) => StartAgrees(b, events, id, name);
    case ToolUsePart(id, inputJson) => PartAgrees(b, events, id, inputJson);
    case ToolUseFinished(id, name, input) => FinishAgrees(b, events, id, name, input);
    case _ => EndAgrees(b, events, last);
  }

  lemma UnfinishedSnoc(tools: seq<OpenTool>, tool: OpenTool)
    requires tool.finished.None?
    ensures UnfinishedIds(tools + [tool]) == UnfinishedIds(tools) + {tool.id}
  {
    var all := tools + [tool];
    assert all[|tools|].id in UnfinishedIds(all);
    forall id | id in UnfinishedIds(tools) ensures id in UnfinishedIds(all) {
      var i :| 0 <= i < |tools| && tools[i].finished.None? && tools[i].id == id;
      assert all[i].id == id;
    }
  }

  lemma UnfinishedSame(tools: seq<OpenTool>, tools': seq<OpenTool>)
    ensures QueueSlots(tools) == QueueSlots(tools') ==> UnfinishedIds(tools) == UnfinishedIds(tools')
  {
    if QueueSlots(tools) == QueueSlots(tools') {
      assert |tools| == |tools'|;
      forall i | 0 <= i < |tools| ensures tools[i].id == tools'[i].id && tools[i].finished == tools'[i].finished {
        assert QueueSlots(tools)[i] == QueueSlots(tools')[i];
      }
    }
  }

  lemma UnfinishedFinish(tools: seq<OpenTool>, i: nat, finish: Option<(string, Json)>)
    requires i < |tools| && DistinctTools(tools) && finish.Some?
    ensures UnfinishedIds(tools[i := tools[i].(finished := finish)]) == UnfinishedIds(tools) - {tools[i].id}
  {
    var after := tools[i := tools[i].(finished := finish)];
    forall id | id in UnfinishedIds(tools) && id != tools[i].id ensures id in UnfinishedIds(after) {
      var k :| 0 <= k < |tools| && tools[k].finished.None? && tools[k].id == id;
      assert after[k].id == id && after[k].finished.None?;
    }
    forall id | id in UnfinishedIds(after) ensures id in UnfinishedIds(tools) && id != tools[i].id {
      var k :| 0 <= k < |after| && after[k].finished.None? && after[k].id == id;
      assert tools[k].id == id && tools[k].finished.None?;
    }
  }

  lemma {:induction false} FlushedToolsUnfinished(b: BuilderState)
    ensures UnfinishedIds(FlushedTools(b).openTools) == UnfinishedIds(b.openTools)
    decreases |b.openTools|
  {
    if b.openTools != [] && b.openTools[0].finished.Some? {
      var next := b.(content := b.content + [FinishedBlock(b.openTools[0])], openTools := b.openTools[1..]);
      FlushedToolsUnfinished(next);
      forall id | id in UnfinishedIds(b.openTools) ensures id in UnfinishedIds(next.openTools) {
        var i :| 0 <= i < |b.openTools| && b.openTools[i].finished.None? && b.openTools[i].id == id;
        assert next.openTools[i - 1].id == id;
      }
    }
  }

  ghost predicate FoldableStream(events: seq<ModelStreamEvent>) {
    && NoEarlyFinish(events)
    && OpenAfter(events).Some?
    && NoBlockedRestart(events)
    && (events != [] && events[|events| - 1].Finished? ==> OpenAfter(events) == Some({}))
  }

  lemma NoEarlyFinishSnoc(front: seq<ModelStreamEvent>, last: ModelStreamEvent)
    ensures NoEarlyFinish(front + [last]) <==>
            NoEarlyFinish(front) && !(front != [] && front[|front| - 1].Finished?)
  {
    var all := front + [last];
    assert forall i :: 0 <= i < |front| ==> all[i] == front[i];
    if NoEarlyFinish(all) {
      forall i | 0 <= i < |front| ensures !front[i].Finished? { assert all[i] == front[i]; }
    }
  }

  lemma NoBlockedRestartSnoc(front: seq<ModelStreamEvent>, last: ModelStreamEvent)
    ensures NoBlockedRestart(front + [last]) <==>
            NoBlockedRestart(front) && (last.ToolUseStarted? ==> !Blocked(Slots(front), last.id))
  {
    var all := front + [last];
    assert all[..|front|] == front && all[|front|] == last;
    assert forall i :: 0 <= i < |front| ==> all[i] == front[i] && all[..i] == front[..i];
  }

  lemma FoldableFront(front: seq<ModelStreamEvent>, last: ModelStreamEvent)
    ensures FoldableStream(front + [last]) <==>
            && FoldableStream(front)
            && !(front != [] && front[|front| - 1].Finished?)
            && OpenAfter(front + [last]).Some?
            && (last.ToolUseStarted? ==> !Blocked(Slots(front), last.id))
            && (last.Finished? ==> OpenAfter(front + [last]) == Some({}))
  {
    NoEarlyFinishSnoc(front, last);
    NoBlockedRestartSnoc(front, last);
    OpenSnoc(front, last);
  }

  /** The builder folds exactly the foldable streams. */
  lemma {:induction false} FoldsIffFoldable(model: string, events: seq<ModelStreamEvent>)
    ensures Fold(model, events).Some? <==> FoldableStream(events)
    ensures Fold(model, events).Some? ==> OpenAfter(events) == Some(UnfinishedIds(Fold(model, events).value.openTools))
    decreases |events|
  {
    if events == [] {
      assert UnfinishedIds([]) == {};
    } else {
      var front := events[..|events| - 1];
      var last := events[|events| - 1];
      assert events == front + [last];
      FoldsIffFoldable(model, front);
      FoldableFront(front, last);
      if Fold(model, front).Some? {
        FoldInvariant(model, front);
        var b := Fold(model, front).value;
        if !b.finished { StepAgrees(b, front, last); }
      }
    }
  }

  /** A stream is accepted exactly when it satisfies the stream invariants and restarts no blocked id. */
  lemma AcceptedIff(model: string, events: seq<ModelStreamEvent>)
    ensures Accepted(model, events) <==> StreamInvariants(events) && NoBlockedRestart(events)
  {
    FoldsIffFoldable(model, events);
    if Fold(model, events).Some? {
      FoldInvariant(model, events);
    }
  }

  ghost predicate DistinctStarts(events: seq<ModelStreamEvent>) {
    forall i, j :: 0 <= i < j < |events| && events[i].ToolUseStarted? && events[j].ToolUseStarted? ==>
      events[i].id != events[j].id
  }

  lemma {:induction false} SlotComesFromStart(events: seq<ModelStreamEvent>, j: nat) returns (i: nat)
    requires j < |Slots(events)|
    ensures i < |events| && events[i].ToolUseStarted? && events[i].id == Slots(events)[j].id
    decreases |events|
  {
    if events[0].ToolUseStarted? && j == 0 {
      i := 0;
    } else {
      i := SlotComesFromStart(events[1..], if events[0].ToolUseStarted? then j - 1 else j);
      i := i + 1;
    }
  }

  /** With distinct tool ids the stream invariants are exactly what the builder accepts. */
  lemma AcceptedWithDistinctIds(model: string, events: seq<ModelStreamEvent>)
    requires DistinctStarts(events)
    ensures Accepted(model, events) <==> StreamInvariants(events)
  {
    AcceptedIff(model, events);
    forall i | 0 <= i < |events| && events[i].ToolUseStarted? ensures !Blocked(Slots(events[..i]), events[i].id) {
      var slots := Slots(events[..i]);
      if Blocked(slots, events[i].id) {
        var j, k :| 0 <= k < j < |slots| && slots[j].id == events[i].id && slots[j].finished.Some? && slots[k].finished.None?;
        var start := SlotComesFromStart(events[..i], j);
        assert false;
      }
    }
  }

  lemma OpenSnoc(events: seq<ModelStreamEvent>, last: ModelStreamEvent)
    ensures OpenAfter(events + [last]) ==
            match OpenAfter(events)
            case None => None
            case Some(open) =>
              match last
              case ToolUseStarted(id, _) => if id in open then None else Some(open + {id})
              case ToolUsePart(id, _) => if id in open then Some(open) else None
              case ToolUseFinished(id, _, _) => if id in open then Some(open - {id}) else None
              case _ => Some(open)
  {
    assert (events + [last])[..|events|] == events;
  }

  function RestartStream(input: Json): seq<ModelStreamEvent> {
    [ToolUseStarted("a", "read"), ToolUseStarted("b", "grep"), ToolUseFinished("b", "grep", input),
     ToolUseStarted("b", "grep"), ToolUseFinished("b", "grep", input), ToolUseFinished("a", "read", input),
     Finished(ToolUseStop, None, None)]
  }

  lemma StartAndFinish(events: seq<ModelStreamEvent>, id: string, input: Json)
    requires OpenAfter(events).Some? && id !in OpenAfter(events).value
    ensures OpenAfter(events + [ToolUseStarted(id, "grep")] + [ToolUseFinished(id, "grep", input)]) == OpenAfter(events)
  {
    OpenSnoc(events, ToolUseStarted(id, "grep"));
    OpenSnoc(events + [ToolUseStarted(id, "grep")], ToolUseFinished(id, "grep", input));
    var open := OpenAfter(events).value;
    assert open + {id} - {id} == open;
  }

  lemma RestartCloses(input: Json) returns (events: seq<ModelStreamEvent>)
    ensures OpenAfter(events) == Some({}) && events == RestartStream(input)[..6]
  {
    var empty: seq<ModelStreamEvent> := [];
    var e1 := empty + [ToolUseStarted("a", "read")];
    OpenSnoc(empty, ToolUseStarted("a", "read"));
    StartAndFinish(e1, "b", input);
    var e3 := e1 + [ToolUseStarted("b", "grep")] + [ToolUseFinished("b", "grep", input)];
    StartAndFinish(e3, "b", input);
    var e5 := e3 + [ToolUseStarted("b", "grep")] + [ToolUseFinished("b", "grep", input)];
    OpenSnoc(e5, ToolUseFinished("a", "read", input));
    events := e5 + [ToolUseFinished("a", "read", input)];
  }

  lemma RestartKeepsInvariants(input: Json)
    ensures StreamInvariants(RestartStream(input))
  {
    var events := RestartCloses(input);
    OpenSnoc(events, Finished(ToolUseStop, None, None));
    assert RestartStream(input) == events + [Finished(ToolUseStop, None, None)];
  }

  /** Without distinct ids the stream invariants do not suffice: "b" is reused while blocked behind "a". */
  lemma RestartBehindUnfinishedIsRefused(model: string) returns (events: seq<ModelStreamEvent>)
    ensures StreamInvariants(events) && !Accepted(model, events)
  {
    var input := Json("{}");
    var stop := Finished(ToolUseStop, None, None);
    var e1 := [ToolUseStarted("a", "read")];
    var e2 := e1 + [ToolUseStarted("b", "grep")];
    var e3 := e2 + [ToolUseFinished("b", "grep", input)];
    var e4 := e3 + [ToolUseStarted("b", "grep")];
    var e5 := e4 + [ToolUseFinished("b", "grep", input)];
    var e6 := e5 + [ToolUseFinished("a", "read", input)];
    events := e6 + [stop];
    RestartKeepsInvariants(input);
    assert events == RestartStream(input);
    SlotsSnoc(e1, ToolUseStarted("b", "grep"));
    SlotsSnoc(e2, ToolUseFinished("b", "grep", input));
    var slots := Slots(e3);
    assert slots[1].id == "b" && slots[1].finished.Some? && slots[0].finished.None?;
    assert Blocked(slots, "b");
    assert events[..3] == e3 && events[3] == ToolUseStarted("b", "grep");
    AcceptedIff(model, events);
  }
}
