/** The session store: commit, load and fork of one append-only log. */
module SessionStores {
  import opened Protocol
  import opened Tools
  import opened SessionTypes

  const HEADER_VERSION: nat := 2

  datatype SessionHeader = SessionHeader(version: nat, sessionId: Id, parentSession: Option<Id>, seedLen: nat)

  predicate SupportedVersion(version: nat) {
    version == 1 || version == HEADER_VERSION
  }

  datatype CommitError = Rejected(reason: DraftError) | AppendFailed

  datatype FaultKind = SeqGap | ForeignSession | TurnWentBack | InvalidCallIdentity | InvalidResultIdentity

  datatype LoadError = UnsupportedVersion(version: nat) | Fault(line: nat, kind: FaultKind)

  datatype ForkError = BoundaryNotFound | NotTurnBoundary | ForkCreateFailed | ForkAppendFailed

  /** The item that committing a draft adds to the log, or why it adds nothing. */
  function CommitOutcome(items: seq<SessionItem>, sessionId: Id, draft: SessionItemDraft, id: Id, at: nat, appendOk: bool)
    : Result<SessionItem, CommitError>
  {
    match ValidateDraft(draft, items)
    case Err(reason) => Err(Rejected(reason))
    case Ok(_) =>
      if appendOk then Ok(FreezeItem(draft, SessionItemBase(id, |items|, sessionId, draft.turn, at)))
      else Err(AppendFailed)
  }

  /** Turns do not decrease, texts and identities are not empty, and an assistant message holds text and thinking only. */
  predicate Draftable(draft: SessionItemDraft, items: seq<SessionItem>) {
    && (items == [] || items[|items| - 1].base.turn <= draft.turn)
    && match draft.body
       case UserMessage(text) => text != ""
       case AssistantMessage(blocks) => forall i :: 0 <= i < |blocks| ==> blocks[i].Text? || blocks[i].Thinking?
       case CallItem(call) => !Blank(call.toolUseId) && !Blank(call.name)
       case ResultItem(result) => !Blank(result.toolUseId) && !Blank(result.name)
       case Compaction(_) => true
       case CheckpointCreated(checkpointId) => checkpointId != ""
  }

  /** Why a draft is rejected: its turn goes back, or else what its kind of payload must not be. */
  predicate RejectedFor(reason: DraftError, draft: SessionItemDraft, items: seq<SessionItem>) {
    if items != [] && draft.turn < items[|items| - 1].base.turn then reason == TurnDecreased
    else
      match reason
      case TurnDecreased => false
      case EmptyUserText => draft.body.UserMessage?
      case ToolBlockInAssistant => draft.body.AssistantMessage?
      case EmptyToolIdentity => draft.body.CallItem? || draft.body.ResultItem?
      case EmptyCheckpointId => draft.body.CheckpointCreated?
  }

  function NextTurn(items: seq<SessionItem>): Option<nat> {
    if items == [] then Some(0)
    else if items[|items| - 1].base.turn >= U64_MAX then None
    else Some(items[|items| - 1].base.turn + 1)
  }

  /** What loading finds wrong with line `i`, in the order the checks are made. */
  function FaultAt(items: seq<SessionItem>, sessionId: Id, i: nat): Option<FaultKind>
    requires i < |items|
  {
    var item := items[i];
    if item.base.seqNo != i then Some(SeqGap)
    else if item.base.sessionId != sessionId then Some(ForeignSession)
    else if i > 0 && item.base.turn < items[i - 1].base.turn then Some(TurnWentBack)
    else if item.body.CallItem? && !NamedBody(item.body) then Some(InvalidCallIdentity)
    else if item.body.ResultItem? && !NamedBody(item.body) then Some(InvalidResultIdentity)
    else None
  }

  /** What is wrong with line `i`, none of the earlier kinds of fault being there. */
  predicate IsFault(items: seq<SessionItem>, sessionId: Id, i: nat, kind: FaultKind)
    requires i < |items|
  {
    var base, body := items[i].base, items[i].body;
    match kind
    case SeqGap => base.seqNo != i
    case ForeignSession => base.seqNo == i && base.sessionId != sessionId
    case TurnWentBack => base.seqNo == i && base.sessionId == sessionId && i > 0 && base.turn < items[i - 1].base.turn
    case InvalidCallIdentity =>
      && base.seqNo == i && base.sessionId == sessionId && (i > 0 ==> base.turn >= items[i - 1].base.turn)
      && body.CallItem? && (Blank(body.call.toolUseId) || Blank(body.call.name))
    case InvalidResultIdentity =>
      && base.seqNo == i && base.sessionId == sessionId && (i > 0 ==> base.turn >= items[i - 1].base.turn)
      && body.ResultItem? && (Blank(body.result.toolUseId) || Blank(body.result.name))
  }

  lemma WellFormedSnoc(items: seq<SessionItem>, sessionId: Id, item: SessionItem)
    ensures WellFormedLog(items + [item], sessionId) <==>
            WellFormedLog(items, sessionId) && FaultAt(items + [item], sessionId, |items|) == None
  {
    var all := items + [item];
    if WellFormedLog(all, sessionId) {
      forall i | 0 <= i < |items|
        ensures items[i].base.seqNo == i && items[i].base.sessionId == sessionId && NamedBody(items[i].body)
      {
        assert all[i] == items[i];
      }
      forall i, j | 0 <= i <= j < |items| ensures items[i].base.turn <= items[j].base.turn {
        assert all[i] == items[i] && all[j] == items[j];
      }
      assert all[|items|] == item;
      if items != [] { assert all[|items| - 1].base.turn <= all[|items|].base.turn; }
    } else if WellFormedLog(items, sessionId) && FaultAt(all, sessionId, |items|) == None {
      forall i, j | 0 <= i <= j < |all| ensures all[i].base.turn <= all[j].base.turn {
        if j == |items| && i < j {
          assert items[i].base.turn <= items[|items| - 1].base.turn;
        }
      }
      assert WellFormedLog(all, sessionId);
    }
  }

  /** A committed item keeps the log well formed, so it will load again. */
  lemma CommitKeepsWellFormed(items: seq<SessionItem>, sessionId: Id, draft: SessionItemDraft, id: Id, at: nat)
    requires WellFormedLog(items, sessionId)
    requires CommitOutcome(items, sessionId, draft, id, at, true).Ok?
    ensures WellFormedLog(items + [CommitOutcome(items, sessionId, draft, id, at, true).value], sessionId)
  {
    WellFormedSnoc(items, sessionId, CommitOutcome(items, sessionId, draft, id, at, true).value);
  }

  /** The items of a child session seeded with the first `count` items. */
  function ForkedItems(items: seq<SessionItem>, count: nat, child: Id): (forked: seq<SessionItem>)
    requires count <= |items|
    ensures |forked| == count
    ensures forall i :: 0 <= i < count ==>
              forked[i] == items[i].(base := items[i].base.(seqNo := i, sessionId := child))
  {
    seq(count, i requires 0 <= i < count =>
      RebaseItem(items[i], SessionItemBase(items[i].base.id, i, child, items[i].base.turn, items[i].base.at)))
  }

  /** Item `boundary` is the last of its turn. */
  predicate IsTurnBoundary(items: seq<SessionItem>, boundary: nat)
    requires boundary < |items|
  {
    forall j :: boundary < j < |items| ==> items[j].base.turn != items[boundary].base.turn
  }

  predicate IsFirstWithId(items: seq<SessionItem>, id: Id, i: nat) {
    && i < |items|
    && items[i].base.id == id
    && forall j :: 0 <= j < i ==> items[j].base.id != id
  }

  class SessionStore {
    const header: SessionHeader
    var items: seq<SessionItem>
    var nextSeq: nat
    /** The lines of the log file. */
    var lines: seq<SessionItem>

    /** Memory and file agree, and the file is a log that loads. */
    ghost predicate Valid()
      reads this
    {
      && SupportedVersion(header.version)
      && nextSeq == |items|
      && lines == items
      && WellFormedLog(items, header.sessionId)
    }

    constructor Create(sessionId: Id)
      ensures Valid() && items == [] && header == SessionHeader(HEADER_VERSION, sessionId, None, 0)
    {
      header := SessionHeader(HEADER_VERSION, sessionId, None, 0);
      items, nextSeq, lines := [], 0, [];
    }

    /** The handle on a session whose log has already been read or written. */
    constructor Open(header: SessionHeader, items: seq<SessionItem>)
      requires SupportedVersion(header.version) && WellFormedLog(items, header.sessionId)
      ensures Valid() && this.items == items && this.header == header
    {
      this.header := header;
      this.items, nextSeq, lines := items, |items|, items;
    }

    /** A failed append writes nothing. */
    method AppendLine(line: SessionItem, appendOk: bool) returns (ok: bool)
      modifies this`lines
      ensures ok == appendOk
      ensures lines == if ok then old(lines) + [line] else old(lines)
    {
      ok := appendOk;
      if ok { lines := lines + [line]; }
    }

    method CommitItem(draft: SessionItemDraft, id: Id, at: nat, appendOk: bool)
      returns (r: Result<SessionItem, CommitError>)
      requires Valid()
      modifies this
      ensures Valid()
      ensures r == CommitOutcome(old(items), header.sessionId, draft, id, at, appendOk)
      ensures r.Ok? <==> Draftable(draft, old(items)) && appendOk
      ensures r == Err(AppendFailed) <==> Draftable(draft, old(items)) && !appendOk
      ensures r.Err? && r.error.Rejected? ==> RejectedFor(r.error.reason, draft, old(items))
      ensures r.Ok? ==>
                r.value == SessionItem(SessionItemBase(id, |old(items)|, header.sessionId, draft.turn, at), draft.body)
      ensures items == if r.Ok? then old(items) + [r.value] else old(items)
    {
      var verdict := ValidateDraft(draft, items);
      if verdict.Err? {
        return Err(Rejected(verdict.error));
      }
      var item := FreezeItem(draft, SessionItemBase(id, nextSeq, header.sessionId, draft.turn, at));
      CommitKeepsWellFormed(items, header.sessionId, draft, id, at);
      var idx := |items|;
      items := items + [item];
      nextSeq := nextSeq + 1;
      var ok := AppendLine(item, appendOk);
      if !ok {
        items := items[..|items| - 1];
        nextSeq := nextSeq - 1;
        assert items == old(items);
        return Err(AppendFailed);
      }
      r := Ok(items[idx]);
    }

    /** Copies the prefix up to a turn boundary into the file of a new session. */
    method Fork(boundaryItemId: Id, child: Id, createOk: bool, appendOk: seq<bool>) returns (r: Result<SessionStore, ForkError>)
      requires Valid()
      requires |appendOk| == |items|
      ensures r == Err(BoundaryNotFound) <==> forall i :: 0 <= i < |items| ==> items[i].base.id != boundaryItemId
      ensures forall b: nat :: IsFirstWithId(items, boundaryItemId, b) ==>
                && (r == Err(NotTurnBoundary) <==> !IsTurnBoundary(items, b))
                && (r == Err(ForkCreateFailed) <==> IsTurnBoundary(items, b) && !createOk)
                && (r.Ok? <==> IsTurnBoundary(items, b) && createOk && forall i :: 0 <= i <= b ==> appendOk[i])
                && (r.Ok? ==>
                      && fresh(r.value)
                      && r.value.Valid()
                      && r.value.items == ForkedItems(items, b + 1, child)
                      && r.value.header == SessionHeader(HEADER_VERSION, child, Some(header.sessionId), b + 1))
    {
      var boundary := 0;
      while boundary < |items| && items[boundary].base.id != boundaryItemId
        invariant 0 <= boundary <= |items|
        invariant forall i :: 0 <= i < boundary ==> items[i].base.id != boundaryItemId
      {
        boundary := boundary + 1;
      }
      if boundary == |items| {
        return Err(BoundaryNotFound);
      }
      assert IsFirstWithId(items, boundaryItemId, boundary);
      if exists j | boundary < j < |items| :: items[j].base.turn == items[boundary].base.turn {
        return Err(NotTurnBoundary);
      }
      if !createOk {
        return Err(ForkCreateFailed);
      }
      var forked: seq<SessionItem> := [];
      var seqNo := 0;
      while seqNo <= boundary
        invariant 0 <= seqNo <= boundary + 1
        invariant forked == ForkedItems(items, seqNo, child)
        invariant forall i :: 0 <= i < seqNo ==> appendOk[i]
      {
        if !appendOk[seqNo] {
          return Err(ForkAppendFailed);
        }
        var source := items[seqNo];
        var base := SessionItemBase(source.base.id, seqNo, child, source.base.turn, source.base.at);
        forked := forked + [RebaseItem(source, base)];
        seqNo := seqNo + 1;
      }
      ForkWellFormed(items, boundary + 1, header.sessionId, child);
      var store := new SessionStore.Open(
        SessionHeader(HEADER_VERSION, child, Some(header.sessionId), boundary + 1), forked);
      r := Ok(store);
    }
  }

  lemma ForkWellFormed(items: seq<SessionItem>, count: nat, parent: Id, child: Id)
    requires WellFormedLog(items, parent) && count <= |items|
    ensures WellFormedLog(ForkedItems(items, count, child), child)
    ensures Bodies(ForkedItems(items, count, child)) == Bodies(items[..count])
  {
  }

  lemma FaultSpoils(items: seq<SessionItem>, sessionId: Id, i: nat)
    requires i < |items| && FaultAt(items, sessionId, i).Some?
    ensures !WellFormedLog(items, sessionId)
  {
    if items[i].base.seqNo == i && items[i].base.sessionId == sessionId && NamedBody(items[i].body) {
      assert items[i].base.turn < items[i - 1].base.turn;
    }
  }

  /** The check made on every load, line by line. */
  method ValidateLoadedItems(items: seq<SessionItem>, sessionId: Id) returns (r: Result<(), LoadError>)
    ensures r.Ok? <==> WellFormedLog(items, sessionId)
    ensures r.Err? ==>
              && r.error.Fault? && r.error.line < |items|
              && IsFault(items, sessionId, r.error.line, r.error.kind)
              && WellFormedLog(items[..r.error.line], sessionId)
  {
    var i := 0;
    while i < |items|
      invariant 0 <= i <= |items|
      invariant WellFormedLog(items[..i], sessionId)
    {
      assert items[..i + 1] == items[..i] + [items[i]];
      WellFormedSnoc(items[..i], sessionId, items[i]);
      var fault := FaultAt(items, sessionId, i);
      if fault.Some? {
        FaultSpoils(items, sessionId, i);
        return Err(Fault(i, fault.value));
      }
      i := i + 1;
    }
    assert items[..i] == items;
    r := Ok(());
  }

  method Load(header: SessionHeader, lines: seq<SessionItem>) returns (r: Result<SessionStore, LoadError>)
    ensures r.Ok? <==> (header.version == 1 || header.version == 2) && WellFormedLog(lines, header.sessionId)
    ensures r == Err(UnsupportedVersion(header.version)) <==> header.version != 1 && header.version != 2
    ensures r.Ok? ==> fresh(r.value) && r.value.Valid() && r.value.items == lines && r.value.header == header
  {
    if !SupportedVersion(header.version) {
      return Err(UnsupportedVersion(header.version));
    }
    var verdict := ValidateLoadedItems(lines, header.sessionId);
    if verdict.Err? {
      return Err(verdict.error);
    }
    var store := new SessionStore.Open(header, lines);
    r := Ok(store);
  }

  /** Whatever a store committed, forked or failed to commit before, loading its file gives the same session. */
  method Reload(store: SessionStore) returns (copy: SessionStore)
    requires store.Valid()
    ensures fresh(copy) && copy.Valid()
    ensures copy.items == store.items && copy.nextSeq == store.nextSeq && copy.header == store.header
  {
    var r := Load(store.header, store.lines);
    copy := r.value;
  }
}
