/** Session items and drafts: the facts of the append-only Session Item Log. */
module SessionTypes {
  import opened Protocol
  import opened Tools

  type Id = nat

  /** The payload of a session item; a draft is a payload with its turn. */
  datatype ItemBody =
    | UserMessage(text: string)
    | AssistantMessage(blocks: seq<ContentBlock>)
    | CallItem(call: ToolCall)
    | ResultItem(result: ToolResult)
    | Compaction(excluded: seq<Id>)
    | CheckpointCreated(checkpointId: string)

  datatype SessionItemBase = SessionItemBase(id: Id, seqNo: nat, sessionId: Id, turn: nat, at: nat)

  datatype SessionItem = SessionItem(base: SessionItemBase, body: ItemBody)

  datatype SessionItemDraft = SessionItemDraft(turn: nat, body: ItemBody)

  function Bodies(items: seq<SessionItem>): (bodies: seq<ItemBody>)
    ensures |bodies| == |items|
    ensures forall i :: 0 <= i < |items| ==> bodies[i] == items[i].body
  {
    seq(|items|, i requires 0 <= i < |items| => items[i].body)
  }

  predicate PlainBlock(block: ContentBlock) {
    block.Text? || block.Thinking?
  }

  predicate PlainBlocks(blocks: seq<ContentBlock>) {
    forall i :: 0 <= i < |blocks| ==> PlainBlock(blocks[i])
  }

  datatype DraftError =
    | TurnDecreased
    | EmptyUserText
    | ToolBlockInAssistant
    | EmptyToolIdentity
    | EmptyCheckpointId

  function ValidateBody(body: ItemBody): Result<(), DraftError> {
    match body
    case UserMessage(text) => if text == "" then Err(EmptyUserText) else Ok(())
    case AssistantMessage(blocks) => if PlainBlocks(blocks) then Ok(()) else Err(ToolBlockInAssistant)
    case CallItem(call) => if Blank(call.toolUseId) || Blank(call.name) then Err(EmptyToolIdentity) else Ok(())
    case ResultItem(result) => if Blank(result.toolUseId) || Blank(result.name) then Err(EmptyToolIdentity) else Ok(())
    case CheckpointCreated(checkpointId) => if checkpointId == "" then Err(EmptyCheckpointId) else Ok(())
    case Compaction(_) => Ok(())
  }

  function ValidateDraft(draft: SessionItemDraft, items: seq<SessionItem>): Result<(), DraftError> {
    if items != [] && draft.turn < items[|items| - 1].base.turn then Err(TurnDecreased)
    else ValidateBody(draft.body)
  }

  function FreezeItem(draft: SessionItemDraft, base: SessionItemBase): SessionItem {
    SessionItem(base, draft.body)
  }

  function RebaseItem(item: SessionItem, base: SessionItemBase): SessionItem {
    SessionItem(base, item.body)
  }

  /** The identities that loading a log insists on. */
  predicate NamedBody(body: ItemBody) {
    match body
    case CallItem(call) => !Blank(call.toolUseId) && !Blank(call.name)
    case ResultItem(result) => !Blank(result.toolUseId) && !Blank(result.name)
    case _ => true
  }

  /** Turn numbers never decrease along the log. */
  predicate TurnMonotone(items: seq<SessionItem>) {
    forall i, j :: 0 <= i <= j < |items| ==> items[i].base.turn <= items[j].base.turn
  }

  /** What a well-formed log of one session looks like. */
  predicate WellFormedLog(items: seq<SessionItem>, sessionId: Id) {
    && TurnMonotone(items)
    && (forall i :: 0 <= i < |items| ==>
          && items[i].base.seqNo == i
          && items[i].base.sessionId == sessionId
          && NamedBody(items[i].body))
  }

  lemma BodiesAppend(a: seq<SessionItem>, b: seq<SessionItem>)
    ensures Bodies(a + b) == Bodies(a) + Bodies(b)
  {
  }
}
