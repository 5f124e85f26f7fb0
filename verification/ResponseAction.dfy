/** Classification of a model response into a terminal answer or a tool round. */
module ResponseActions {
  import opened Protocol
  import opened Tools
  import opened SessionTypes

  datatype ResponseError = BlankIdentity | DuplicateToolUse(id: string) | ResultBlockInResponse
    | EmptyToolRound | ToolUseInTerminal

  datatype ResponseAction =
    | Terminal(assistantBlocks: seq<ContentBlock>)
    | ToolRound(assistantBlocks: seq<ContentBlock>, calls: seq<ToolCall>)

  function CallOf(block: ContentBlock): ToolCall
    requires block.ToolUse?
  {
    ToolCall(block.id, block.name, block.input)
  }

  /** The tool calls of a content, in order. */
  function CallsOf(content: seq<ContentBlock>): seq<ToolCall> {
    if content == [] then []
    else
      var last := content[|content| - 1];
      CallsOf(content[..|content| - 1]) + if last.ToolUse? then [CallOf(last)] else []
  }

  /** The text and thinking blocks of a content, in order. */
  function PlainOf(content: seq<ContentBlock>): (plain: seq<ContentBlock>)
    ensures PlainBlocks(plain)
  {
    if content == [] then []
    else
      var last := content[|content| - 1];
      PlainOf(content[..|content| - 1]) + if PlainBlock(last) then [last] else []
  }

  /** No result blocks, and tool uses with non-blank, pairwise distinct identities. */
  ghost predicate UsableContent(content: seq<ContentBlock>) {
    && (forall i :: 0 <= i < |content| ==> !content[i].ToolResultBlock?)
    && (forall i :: 0 <= i < |CallsOf(content)| ==> WellNamed(CallsOf(content)[i]))
    && DistinctIds(CallsOf(content))
  }

  function ActionOf(response: ModelResponse): ResponseAction {
    if response.stopReason.ToolUseStop? then ToolRound(PlainOf(response.content), CallsOf(response.content))
    else Terminal(PlainOf(response.content))
  }

  /** A tool-use stop needs calls; any other stop forbids them. */
  ghost predicate UsableResponse(response: ModelResponse) {
    && UsableContent(response.content)
    && (response.stopReason.ToolUseStop? <==> CallsOf(response.content) != [])
  }

  function CallIds(calls: seq<ToolCall>): set<string> {
    set i | 0 <= i < |calls| :: calls[i].toolUseId
  }

  /** The loop over the blocks, as a left fold. */
  function SplitBlocks(content: seq<ContentBlock>): Result<(seq<ContentBlock>, seq<ToolCall>), ResponseError> {
    if content == [] then Ok(([], []))
    else
      match SplitBlocks(content[..|content| - 1])
      case Err(e) => Err(e)
      case Ok((blocks, calls)) =>
        match content[|content| - 1]
        case ToolUse(id, name, input) =>
          if Blank(id) || Blank(name) then Err(BlankIdentity)
          else if id in CallIds(calls) then Err(DuplicateToolUse(id))
          else Ok((blocks, calls + [ToolCall(id, name, input)]))
        case ToolResultBlock(_, _) => Err(ResultBlockInResponse)
        case plain => Ok((blocks + [plain], calls))
  }

  /** Specification of `ClassifyResponse`. */
  function Classified(response: ModelResponse): Result<ResponseAction, ResponseError> {
    match SplitBlocks(response.content)
    case Err(e) => Err(e)
    case Ok((blocks, calls)) =>
      if response.stopReason.ToolUseStop? then
        if calls == [] then Err(EmptyToolRound) else Ok(ToolRound(blocks, calls))
      else if calls != [] then Err(ToolUseInTerminal)
      else Ok(Terminal(blocks))
  }

  method ClassifyResponse(response: ModelResponse) returns (r: Result<ResponseAction, ResponseError>)
    ensures r == Classified(response)
  {
    var content := response.content;
    var assistantBlocks: seq<ContentBlock> := [];
    var calls: seq<ToolCall> := [];
    var callIds: set<string> := {};
    for i := 0 to |content|
      invariant SplitBlocks(content[..i]) == Ok((assistantBlocks, calls))
      invariant callIds == CallIds(calls)
    {
      assert content[..i + 1][..i] == content[..i];
      if content[i].ToolUse? {
        var call := CallOf(content[i]);
        if Blank(call.toolUseId) || Blank(call.name) {
          SplitStops(content, i + 1);
          return Err(BlankIdentity);
        }
        if call.toolUseId in callIds {
          SplitStops(content, i + 1);
          return Err(DuplicateToolUse(call.toolUseId));
        }
        CallIdsSnoc(calls, call);
        callIds := callIds + {call.toolUseId};
        calls := calls + [call];
      } else if content[i].ToolResultBlock? {
        SplitStops(content, i + 1);
        return Err(ResultBlockInResponse);
      } else {
        assistantBlocks := assistantBlocks + [content[i]];
      }
    }
    assert content[..|content|] == content;
    if response.stopReason.ToolUseStop? {
      r := if calls == [] then Err(EmptyToolRound) else Ok(ToolRound(assistantBlocks, calls));
    } else {
      r := if calls != [] then Err(ToolUseInTerminal) else Ok(Terminal(assistantBlocks));
    }
  }

  lemma CallIdsSnoc(calls: seq<ToolCall>, call: ToolCall)
    ensures CallIds(calls + [call]) == CallIds(calls) + {call.toolUseId}
  {
    var all := calls + [call];
    assert all[|calls|] == call;
    forall id | id in CallIds(calls) ensures id in CallIds(all) {
      var i :| 0 <= i < |calls| && calls[i].toolUseId == id;
      assert all[i].toolUseId == id;
    }
    assert all[|calls|].toolUseId in CallIds(all);
  }

  lemma {:induction false} SplitStops(content: seq<ContentBlock>, i: nat)
    requires i <= |content| && SplitBlocks(content[..i]).Err?
    ensures SplitBlocks(content) == SplitBlocks(content[..i])
    decreases |content| - i
  {
    if i == |content| {
      assert content[..i] == content;
    } else {
      assert content[..i + 1][..i] == content[..i];
      SplitStops(content, i + 1);
    }
  }

  lemma CallsSnoc(front: seq<ContentBlock>, last: ContentBlock)
    ensures CallsOf(front + [last]) == CallsOf(front) + if last.ToolUse? then [CallOf(last)] else []
    ensures PlainOf(front + [last]) == PlainOf(front) + if PlainBlock(last) then [last] else []
    ensures CallsOf(front) + [] == CallsOf(front) && PlainOf(front) + [] == PlainOf(front)
  {
    assert (front + [last])[..|front|] == front;
  }

  lemma DistinctSnoc(calls: seq<ToolCall>, last: ToolCall)
    ensures DistinctIds(calls + [last]) <==> DistinctIds(calls) && last.toolUseId !in CallIds(calls)
    ensures (forall i :: 0 <= i < |calls + [last]| ==> WellNamed((calls + [last])[i])) <==>
            (forall i :: 0 <= i < |calls| ==> WellNamed(calls[i])) && WellNamed(last)
  {
    var all := calls + [last];
    assert all[|calls|] == last && forall i :: 0 <= i < |calls| ==> all[i] == calls[i];
    if DistinctIds(all) {
      forall i, j | 0 <= i < j < |calls| ensures calls[i].toolUseId != calls[j].toolUseId {
        assert all[i] == calls[i] && all[j] == calls[j];
      }
    }
    if DistinctIds(calls) && last.toolUseId !in CallIds(calls) {
      forall i, j | 0 <= i < j < |all| ensures all[i].toolUseId != all[j].toolUseId {
        if j == |calls| { assert all[i].toolUseId in CallIds(calls); }
      }
    }
    if forall i :: 0 <= i < |all| ==> WellNamed(all[i]) {
      forall i | 0 <= i < |calls| ensures WellNamed(calls[i]) { assert all[i] == calls[i]; }
      assert WellNamed(all[|calls|]);
    }
  }

  lemma NoResultsSnoc(front: seq<ContentBlock>, last: ContentBlock)
    ensures (forall i :: 0 <= i < |front + [last]| ==> !(front + [last])[i].ToolResultBlock?) <==>
            (forall i :: 0 <= i < |front| ==> !front[i].ToolResultBlock?) && !last.ToolResultBlock?
  {
    var all := front + [last];
    assert all[|front|] == last;
    if forall i :: 0 <= i < |all| ==> !all[i].ToolResultBlock? {
      forall i | 0 <= i < |front| ensures !front[i].ToolResultBlock? { assert all[i] == front[i]; }
    }
  }

  lemma UsableSnoc(front: seq<ContentBlock>, last: ContentBlock)
    ensures UsableContent(front + [last]) <==>
            && UsableContent(front)
            && !last.ToolResultBlock?
            && (last.ToolUse? ==> WellNamed(CallOf(last)) && last.id !in CallIds(CallsOf(front)))
  {
    CallsSnoc(front, last);
    NoResultsSnoc(front, last);
    if last.ToolUse? { DistinctSnoc(CallsOf(front), CallOf(last)); }
  }

  lemma {:induction false} SplitIffUsable(content: seq<ContentBlock>)
    ensures SplitBlocks(content).Ok? <==> UsableContent(content)
    ensures SplitBlocks(content).Ok? ==> SplitBlocks(content).value == (PlainOf(content), CallsOf(content))
  {
    if content != [] {
      var front := content[..|content| - 1];
      var last := content[|content| - 1];
      assert content == front + [last];
      SplitIffUsable(front);
      CallsSnoc(front, last);
      UsableSnoc(front, last);
    }
  }

  /** A response is usable exactly when classification accepts it, and then nothing of it is lost. */
  lemma ClassifiesIffUsable(response: ModelResponse)
    ensures Classified(response).Ok? <==> UsableResponse(response)
    ensures Classified(response).Ok? ==> Classified(response).value == ActionOf(response)
  {
    SplitIffUsable(response.content);
  }

  /** What block `i` is refused for, if nothing before it is. */
  ghost predicate BlockRefusedFor(content: seq<ContentBlock>, i: nat, error: ResponseError)
    requires i < |content|
  {
    match error
    case BlankIdentity => content[i].ToolUse? && (Blank(content[i].id) || Blank(content[i].name))
    case DuplicateToolUse(id) =>
      && content[i].ToolUse? && id == content[i].id && !Blank(id) && !Blank(content[i].name)
      && exists j :: 0 <= j < i && content[j].ToolUse? && content[j].id == id
    case ResultBlockInResponse => content[i].ToolResultBlock?
    case _ => false
  }

  lemma {:induction false} CallIdsAreUses(content: seq<ContentBlock>, id: string)
    ensures id in CallIds(CallsOf(content)) <==> exists j :: 0 <= j < |content| && content[j].ToolUse? && content[j].id == id
    decreases |content|
  {
    if content != [] {
      var front, last := content[..|content| - 1], content[|content| - 1];
      assert content == front + [last];
      CallIdsAreUses(front, id);
      CallsSnoc(front, last);
      if last.ToolUse? { CallIdsSnoc(CallsOf(front), CallOf(last)); }
      if exists j :: 0 <= j < |front| && front[j].ToolUse? && front[j].id == id {
        var j :| 0 <= j < |front| && front[j].ToolUse? && front[j].id == id;
        assert content[j] == front[j];
      }
    }
  }

  lemma {:induction false} SplitRefuses(content: seq<ContentBlock>) returns (i: nat)
    requires SplitBlocks(content).Err?
    ensures i < |content| && SplitBlocks(content[..i]).Ok? && BlockRefusedFor(content, i, SplitBlocks(content).error)
    decreases |content|
  {
    var front, last := content[..|content| - 1], |content| - 1;
    if SplitBlocks(front).Err? {
      i := SplitRefuses(front);
      assert front[..i] == content[..i] && forall j :: 0 <= j <= i ==> front[j] == content[j];
    } else {
      i := last;
      SplitIffUsable(front);
      if content[last].ToolUse? { CallIdsAreUses(front, content[last].id); }
      assert forall j :: 0 <= j < |front| ==> front[j] == content[j];
    }
  }

  /** Why a response is unusable: its first block that cannot be acted on, or calls that do not fit the way it stopped. */
  lemma UnusableFor(response: ModelResponse) returns (i: nat)
    requires Classified(response).Err?
    ensures var error, content := Classified(response).error, response.content;
            if error.EmptyToolRound? then UsableContent(content) && response.stopReason.ToolUseStop? && CallsOf(content) == []
            else if error.ToolUseInTerminal? then UsableContent(content) && !response.stopReason.ToolUseStop? && CallsOf(content) != []
            else i < |content| && UsableContent(content[..i]) && BlockRefusedFor(content, i, error)
  {
    i := 0;
    SplitIffUsable(response.content);
    if SplitBlocks(response.content).Err? {
      i := SplitRefuses(response.content);
      SplitIffUsable(response.content[..i]);
    }
  }
}
