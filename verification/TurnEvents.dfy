/** Turn events, and which of them become session items. */
module TurnEvents {
  import opened Protocol
  import opened Tools
  import opened SessionTypes

  datatype LlmCallFailureKind = RequestFailure(kind: RequestFailureKind) | UnusableResponse

  datatype LlmCallOutcome =
    | CallSucceeded(stopReason: StopReason, usage: Option<Usage>)
    | CallFailed(failure: LlmCallFailureKind)
    | CallCancelled(reason: CancelReason)

  datatype TurnEvent =
    | TurnStarted(turn: nat)
    | TurnEnded(turn: nat)
    | UserPromptCommitted(turn: nat, text: string)
    | AssistantFinalized(turn: nat, llmCallId: Id, blocks: seq<ContentBlock>)
    | ToolCallRecorded(turn: nat, call: ToolCall)
    | ToolResultRecorded(turn: nat, result: ToolResult)
    | LlmCallStarted(turn: nat, step: nat, llmCallId: Id)
    | LlmCallEnded(turn: nat, step: nat, llmCallId: Id, outcome: LlmCallOutcome)
    | MessageUpdate(turn: nat, step: nat, llmCallId: Id, snapshot: ModelResponseSnapshot)
    | CompactionApplied(turn: nat, excluded: seq<Id>)
    | CompactionRecommended(turn: nat)
    | ContextPreflightEnded(turn: nat)
    | ContextPostflightEnded(turn: nat)
  {
    predicate IsCommittable() {
      || UserPromptCommitted? || AssistantFinalized? || ToolCallRecorded? || ToolResultRecorded?
      || CompactionApplied?
    }
  }

  datatype CommitPlan = Append(draft: SessionItemDraft) | Skip | NotCommittable

  /** What a commit of the event appends; an empty assistant marker appends nothing. */
  function PlanOf(event: TurnEvent): (plan: CommitPlan)
    ensures plan.NotCommittable? <==> !event.IsCommittable()
    ensures plan.Append? ==> plan.draft.turn == event.turn
  {
    match event
    case UserPromptCommitted(turn, text) => Append(SessionItemDraft(turn, UserMessage(text)))
    case AssistantFinalized(turn, _, blocks) =>
      if blocks == [] then Skip else Append(SessionItemDraft(turn, AssistantMessage(blocks)))
    case ToolCallRecorded(turn, call) => Append(SessionItemDraft(turn, CallItem(call)))
    case ToolResultRecorded(turn, result) => Append(SessionItemDraft(turn, ResultItem(result)))
    case CompactionApplied(turn, excluded) => Append(SessionItemDraft(turn, Compaction(excluded)))
    case _ => NotCommittable
  }
}
