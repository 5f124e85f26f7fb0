/** What the pairing automaton accepts: logs made of plain messages and closed tool rounds. */
module LogGrammar {
  import opened Protocol
  import opened Tools
  import opened SessionTypes
  import opened Materialize

  // ---- Reference grammar -------------------------------------------------

  datatype Segment =
    | Plain(body: ItemBody)
    | Round(calls: seq<ToolCall>, results: seq<ToolResult>)

  function CallKeys(calls: seq<ToolCall>): (r: seq<(string, string)>)
    ensures |r| == |calls|
    ensures forall i :: 0 <= i < |calls| ==> r[i] == (calls[i].toolUseId, calls[i].name)
  {
    seq(|calls|, i requires 0 <= i < |calls| => (calls[i].toolUseId, calls[i].name))
  }

  function ResultKeys(results: seq<ToolResult>): (r: seq<(string, string)>)
    ensures |r| == |results|
    ensures forall i :: 0 <= i < |results| ==> r[i] == (results[i].toolUseId, results[i].name)
  {
    seq(|results|, i requires 0 <= i < |results| => (results[i].toolUseId, results[i].name))
  }

  function CallBodies(calls: seq<ToolCall>): (r: seq<ItemBody>)
    ensures |r| == |calls|
    ensures forall i :: 0 <= i < |calls| ==> r[i] == CallItem(calls[i])
  {
    seq(|calls|, i requires 0 <= i < |calls| => CallItem(calls[i]))
  }

  function ResultBodies(results: seq<ToolResult>): (r: seq<ItemBody>)
    ensures |r| == |results|
    ensures forall i :: 0 <= i < |results| ==> r[i] == ResultItem(results[i])
  {
    seq(|results|, i requires 0 <= i < |results| => ResultItem(results[i]))
  }

  function ToolUseBlocks(calls: seq<ToolCall>): (r: seq<ContentBlock>)
    ensures |r| == |calls|
    ensures forall i :: 0 <= i < |calls| ==> r[i] == ToolUse(calls[i].toolUseId, calls[i].name, calls[i].input)
  {
    seq(|calls|, i requires 0 <= i < |calls| => ToolUse(calls[i].toolUseId, calls[i].name, calls[i].input))
  }

  /** A result is shown to the model as text: its plain text, or its JSON value written out. */
  function ResultText(result: ToolResult): string {
    if result.content.PlainText? then result.content.text else result.content.value.text
  }

  function ResultBlocks(results: seq<ToolResult>): (r: seq<ContentBlock>)
    ensures |r| == |results|
    ensures forall i :: 0 <= i < |results| ==> r[i] == ToolResultBlock(results[i].toolUseId, TextContent(ResultText(results[i])))
  {
    seq(|results|, i requires 0 <= i < |results| => ToolResultBlock(results[i].toolUseId, TextContent(ResultText(results[i]))))
  }

  /** A round: calls with distinct ids, then a permutation of same-id same-name results. */
  ghost predicate ClosedRound(calls: seq<ToolCall>, results: seq<ToolResult>) {
    && calls != []
    && DistinctIds(calls)
    && multiset(CallKeys(calls)) == multiset(ResultKeys(results))
  }

  ghost predicate GoodSegment(segment: Segment) {
    match segment
    case Plain(body) => body.UserMessage? || body.AssistantMessage?
    case Round(calls, results) => ClosedRound(calls, results)
  }

  ghost predicate GoodSegments(segments: seq<Segment>) {
    forall i :: 0 <= i < |segments| ==> GoodSegment(segments[i])
  }

  function SegmentBodies(segment: Segment): seq<ItemBody> {
    match segment
    case Plain(body) => [body]
    case Round(calls, results) => CallBodies(calls) + ResultBodies(results)
  }

  function SegmentMessages(segment: Segment): seq<Message> {
    match segment
    case Plain(UserMessage(text)) => [Message(User, TextMessage(text))]
    case Plain(AssistantMessage(blocks)) => [Message(Assistant, BlockMessage(blocks))]
    case Plain(_) => []
    case Round(calls, results) =>
      [Message(Assistant, BlockMessage(ToolUseBlocks(calls))), Message(User, BlockMessage(ResultBlocks(results)))]
  }

  function Flatten(segments: seq<Segment>): seq<ItemBody> {
    if segments == [] then []
    else Flatten(segments[..|segments| - 1]) + SegmentBodies(segments[|segments| - 1])
  }

  function Render(segments: seq<Segment>): seq<Message> {
    if segments == [] then []
    else Render(segments[..|segments| - 1]) + SegmentMessages(segments[|segments| - 1])
  }

  function EraseCheckpoints(bodies: seq<ItemBody>): seq<ItemBody> {
    if bodies == [] then []
    else
      var last := bodies[|bodies| - 1];
      EraseCheckpoints(bodies[..|bodies| - 1]) + if last.CheckpointCreated? then [] else [last]
  }

  // ---- Scanning calls and results ----------------------------------------

  /** The pending calls after recording `calls`. */
  function CallMap(calls: seq<ToolCall>): map<string, string> {
    if calls == [] then map[]
    else
      var last := calls[|calls| - 1];
      CallMap(calls[..|calls| - 1])[last.toolUseId := last.name]
  }

  function ResultIds(results: seq<ToolResult>): set<string> {
    set i | 0 <= i < |results| :: results[i].toolUseId
  }

  /** The results answer pending calls, each at most once. */
  predicate Settles(results: seq<ToolResult>, pending: map<string, string>) {
    && (forall i, j :: 0 <= i < j < |results| ==> results[i].toolUseId != results[j].toolUseId)
    && (forall i :: 0 <= i < |results| ==>
          results[i].toolUseId in pending && pending[results[i].toolUseId] == results[i].name)
  }

  lemma {:induction false} CallMapLookup(calls: seq<ToolCall>)
    requires DistinctIds(calls)
    ensures forall id :: id in CallMap(calls) <==> exists i :: 0 <= i < |calls| && calls[i].toolUseId == id
    ensures forall i :: 0 <= i < |calls| ==>
              calls[i].toolUseId in CallMap(calls) && CallMap(calls)[calls[i].toolUseId] == calls[i].name
  {
    if calls != [] {
      var front := calls[..|calls| - 1];
      CallMapLookup(front);
      forall id | id in CallMap(calls) ensures exists i :: 0 <= i < |calls| && calls[i].toolUseId == id {
        if id in CallMap(front) {
          var i :| 0 <= i < |front| && front[i].toolUseId == id;
          assert calls[i].toolUseId == id;
        } else {
          assert calls[|calls| - 1].toolUseId == id;
        }
      }
      forall i | 0 <= i < |calls|
        ensures calls[i].toolUseId in CallMap(calls) && CallMap(calls)[calls[i].toolUseId] == calls[i].name
      {
        if i < |front| {
          assert calls[i] == front[i];
        }
      }
    }
  }

  lemma CallMapSnoc(calls: seq<ToolCall>, call: ToolCall)
    ensures CallMap(calls + [call]) == CallMap(calls)[call.toolUseId := call.name]
  {
    assert (calls + [call])[..|calls|] == calls;
  }

  lemma CallsSnoc(calls: seq<ToolCall>, call: ToolCall)
    ensures ToolUseBlocks(calls + [call]) == ToolUseBlocks(calls) + [ToolUseBlock(call)]
    ensures CallBodies(calls + [call]) == CallBodies(calls) + [CallItem(call)]
  {
  }

  /** The phase after recording some calls from an idle phase. */
  function OpenPhase(calls: seq<ToolCall>): Phase {
    if calls == [] then Idle else Calls(ToolUseBlocks(calls), CallMap(calls))
  }

  lemma OpenCallsSnoc(messages: seq<Message>, calls: seq<ToolCall>, call: ToolCall)
    requires call.toolUseId !in CallMap(calls)
    ensures Consume(Scan(messages, OpenPhase(calls)), CallItem(call)) == Ok(Scan(messages, OpenPhase(calls + [call])))
  {
    CallMapSnoc(calls, call);
    CallsSnoc(calls, call);
    if calls == [] { assert ToolUseBlocks(calls) + [ToolUseBlock(call)] == [ToolUseBlock(call)]; }
  }

  lemma OneMoreCall(messages: seq<Message>, calls: seq<ToolCall>, call: ToolCall)
    requires call.toolUseId !in CallMap(calls)
    requires ScanFrom(Scan(messages, Idle), CallBodies(calls)) == Ok(Scan(messages, OpenPhase(calls)))
    ensures ScanFrom(Scan(messages, Idle), CallBodies(calls + [call])) == Ok(Scan(messages, OpenPhase(calls + [call])))
  {
    CallsSnoc(calls, call);
    ScanSnoc(Scan(messages, Idle), CallBodies(calls), CallItem(call));
    OpenCallsSnoc(messages, calls, call);
  }

  lemma NewIdIsNotPending(calls: seq<ToolCall>, call: ToolCall)
    requires DistinctIds(calls + [call])
    ensures DistinctIds(calls) && call.toolUseId !in CallMap(calls)
  {
    var more := calls + [call];
    assert more[|calls|] == call && forall i :: 0 <= i < |calls| ==> more[i] == calls[i];
    CallMapLookup(calls);
  }

  /** Recording distinct calls from an idle phase opens a round with exactly those calls pending. */
  lemma {:induction false} ScanCalls(messages: seq<Message>, calls: seq<ToolCall>)
    requires DistinctIds(calls)
    ensures ScanFrom(Scan(messages, Idle), CallBodies(calls)) == Ok(Scan(messages, OpenPhase(calls)))
    decreases |calls|
  {
    if calls == [] {
      assert CallBodies(calls) == [];
    } else {
      var front, last := calls[..|calls| - 1], calls[|calls| - 1];
      assert calls == front + [last];
      NewIdIsNotPending(front, last);
      ScanCalls(messages, front);
      OneMoreCall(messages, front, last);
    }
  }

  /** The state after an open round has consumed some of its results. */
  function AfterResults(messages: seq<Message>, phase: Phase, results: seq<ToolResult>): Scan
    requires !phase.Idle?
  {
    var assistant := if phase.Calls? then [Message(Assistant, BlockMessage(phase.blocks))] else [];
    var blocks := (if phase.Calls? then [] else phase.blocks) + ResultBlocks(results);
    var pending := phase.pending - ResultIds(results);
    if results == [] then Scan(messages, phase)
    else if pending == map[] then Scan(messages + assistant + [Message(User, BlockMessage(blocks))], Idle)
    else Scan(messages + assistant, Results(blocks, pending))
  }

  lemma ResultIdsSnoc(front: seq<ToolResult>, last: ToolResult)
    ensures ResultIds(front + [last]) == ResultIds(front) + {last.toolUseId}
  {
    var all := front + [last];
    assert all[|front|] == last;
    forall id | id in ResultIds(front) ensures id in ResultIds(all) {
      var i :| 0 <= i < |front| && front[i].toolUseId == id;
      assert all[i].toolUseId == id;
    }
    assert all[|front|].toolUseId in ResultIds(all);
  }

  lemma AfterResultsSnoc(messages: seq<Message>, phase: Phase, front: seq<ToolResult>, last: ToolResult)
    requires !phase.Idle?
    requires Settles(front + [last], phase.pending)
    ensures Consume(AfterResults(messages, phase, front), ResultItem(last)) ==
            Ok(AfterResults(messages, phase, front + [last]))
  {
    var results := front + [last];
    assert results[|front|] == last;
    assert last.toolUseId in phase.pending && phase.pending[last.toolUseId] == last.name;
    ResultIdsSnoc(front, last);
    assert ResultBlocks(results) == ResultBlocks(front) + [ResultBlock(last)];
    assert phase.pending - ResultIds(results) == phase.pending - ResultIds(front) - {last.toolUseId};
    assert last.toolUseId !in ResultIds(front) by {
      forall i | 0 <= i < |front| ensures front[i].toolUseId != last.toolUseId {
        assert results[i] == front[i];
      }
    }
    var left := phase.pending - ResultIds(front);
    assert last.toolUseId in left;
    if front == [] {
      assert left == phase.pending;
      assert ResultBlocks(results) == [ResultBlock(last)];
      var assistant := if phase.Calls? then [Message(Assistant, BlockMessage(phase.blocks))] else [];
      var user := [Message(User, BlockMessage((if phase.Calls? then [] else phase.blocks) + [ResultBlock(last)]))];
      assert messages + (assistant + user) == messages + assistant + user;
    } else {
      var before := AfterResults(messages, phase, front);
      assert before.phase.Results? && before.phase.pending == left;
      assert before.phase.blocks + [ResultBlock(last)] ==
             (if phase.Calls? then [] else phase.blocks) + ResultBlocks(results);
      var user := [Message(User, BlockMessage(before.phase.blocks + [ResultBlock(last)]))];
      assert before.messages + ([] + user) == before.messages + user;
      assert before.messages + [] == before.messages;
    }
  }

  lemma OneMoreResult(messages: seq<Message>, phase: Phase, results: seq<ToolResult>, result: ToolResult)
    requires !phase.Idle? && Settles(results + [result], phase.pending)
    requires ScanFrom(Scan(messages, phase), ResultBodies(results)) == Ok(AfterResults(messages, phase, results))
    ensures ScanFrom(Scan(messages, phase), ResultBodies(results + [result])) ==
            Ok(AfterResults(messages, phase, results + [result]))
  {
    assert ResultBodies(results + [result]) == ResultBodies(results) + [ResultItem(result)];
    ScanSnoc(Scan(messages, phase), ResultBodies(results), ResultItem(result));
    AfterResultsSnoc(messages, phase, results, result);
  }

  lemma SettlesFront(results: seq<ToolResult>, result: ToolResult, pending: map<string, string>)
    requires Settles(results + [result], pending)
    ensures Settles(results, pending)
  {
    var more := results + [result];
    assert forall i :: 0 <= i < |results| ==> more[i] == results[i];
  }

  /** Any results that settle pending calls are accepted, and leave exactly the others pending. */
  lemma {:induction false} ScanResults(messages: seq<Message>, phase: Phase, results: seq<ToolResult>)
    requires !phase.Idle?
    requires Settles(results, phase.pending)
    ensures ScanFrom(Scan(messages, phase), ResultBodies(results)) == Ok(AfterResults(messages, phase, results))
    decreases |results|
  {
    if results != [] {
      var front, last := results[..|results| - 1], results[|results| - 1];
      assert results == front + [last];
      SettlesFront(front, last, phase.pending);
      ScanResults(messages, phase, front);
      OneMoreResult(messages, phase, front, last);
    }
  }

  /** A whole round from an idle phase: pending are the calls without a result. */
  lemma ScanRound(messages: seq<Message>, calls: seq<ToolCall>, results: seq<ToolResult>)
    requires calls != [] && DistinctIds(calls)
    requires Settles(results, CallMap(calls))
    ensures ScanFrom(Scan(messages, Idle), CallBodies(calls) + ResultBodies(results)) ==
            Ok(AfterResults(messages, Calls(ToolUseBlocks(calls), CallMap(calls)), results))
  {
    ScanCalls(messages, calls);
    ScanAppend(Scan(messages, Idle), CallBodies(calls), ResultBodies(results));
    ScanResults(messages, Calls(ToolUseBlocks(calls), CallMap(calls)), results);
  }

  // ---- What an open round refuses -----------------------------------------

  /** What becomes of the next item after some calls and some of their results; without calls there is no open round. */
  predicate Continued(calls: seq<ToolCall>, results: seq<ToolResult>, body: ItemBody, r: Result<Scan, MaterializeError>) {
    var pending := CallMap(calls) - ResultIds(results);
    match body
    case CheckpointCreated(_) => r.Ok?
    case Compaction(_) => r == Err(CompactionUnsupported)
    case UserMessage(_) => if calls == [] then r.Ok? else r == Err(PlainItemInsideRound(pending))
    case AssistantMessage(_) => if calls == [] then r.Ok? else r == Err(PlainItemInsideRound(pending))
    case CallItem(call) =>
      if results != [] then r == Err(CallDuringResults(call.toolUseId, pending))
      else if call.toolUseId in CallMap(calls) then r == Err(DuplicateCall(call.toolUseId))
      else r.Ok?
    case ResultItem(result) =>
      if calls == [] then r == Err(ResultWithoutCall(result.toolUseId))
      else if result.toolUseId !in pending then r == Err(UnknownResult(result.toolUseId))
      else if pending[result.toolUseId] != result.name then
        r == Err(NameMismatch(result.toolUseId, pending[result.toolUseId], result.name))
      else r.Ok?
  }

  /** A round stays open while calls are pending; what it refuses, and why, follows from its calls and results alone. */
  lemma OpenRoundRefuses(messages: seq<Message>, calls: seq<ToolCall>, results: seq<ToolResult>, body: ItemBody)
    requires DistinctIds(calls) && Settles(results, CallMap(calls))
    requires if calls == [] then results == [] else CallMap(calls) - ResultIds(results) != map[]
    ensures var s := ScanFrom(Scan(messages, Idle), CallBodies(calls) + ResultBodies(results));
            s.Ok? && Continued(calls, results, body, Consume(s.value, body))
  {
    if calls == [] {
      assert CallBodies(calls) + ResultBodies(results) == [];
      assert CallMap(calls) == map[];
    } else {
      ScanRound(messages, calls, results);
      if results == [] { assert CallMap(calls) - ResultIds(results) == CallMap(calls); }
    }
  }

  /** A log that cannot be scanned fails at its first refused item, with that item's error. */
  lemma {:induction false} FirstRefusalDecides(bodies: seq<ItemBody>) returns (i: nat)
    requires ScanFrom(START, bodies).Err?
    ensures i < |bodies| && ScanFrom(START, bodies[..i]).Ok?
    ensures Consume(ScanFrom(START, bodies[..i]).value, bodies[i]) == ScanFrom(START, bodies)
    decreases |bodies|
  {
    var front := bodies[..|bodies| - 1];
    if ScanFrom(START, front).Ok? {
      i := |front|;
    } else {
      i := FirstRefusalDecides(front);
      assert front[..i] == bodies[..i];
    }
  }

  // ---- Rounds as permutations --------------------------------------------

  lemma {:induction false} DistinctCount<T>(s: seq<T>, x: T)
    requires forall i, j :: 0 <= i < j < |s| ==> s[i] != s[j]
    ensures multiset(s)[x] == if x in s then 1 else 0
  {
    if s != [] {
      DistinctCount(s[..|s| - 1], x);
      assert s == s[..|s| - 1] + [s[|s| - 1]];
    }
  }

  lemma RepeatedCount<T>(s: seq<T>, i: nat, j: nat)
    requires i < j < |s| && s[i] == s[j]
    ensures multiset(s)[s[i]] >= 2
  {
    assert s == s[..j] + s[j..];
    assert multiset(s) == multiset(s[..j]) + multiset(s[j..]);
    assert s[..j][i] == s[i] && s[j..][0] == s[i];
  }

  lemma PermutationMatches(calls: seq<ToolCall>, results: seq<ToolResult>, i: nat) returns (k: nat)
    requires ClosedRound(calls, results) && i < |results|
    ensures k < |calls| && CallKeys(calls)[k] == ResultKeys(results)[i]
  {
    assert ResultKeys(results)[i] in multiset(ResultKeys(results));
    assert ResultKeys(results)[i] in CallKeys(calls);
    k :| 0 <= k < |calls| && CallKeys(calls)[k] == ResultKeys(results)[i];
  }

  lemma PermutationDistinct(calls: seq<ToolCall>, results: seq<ToolResult>, i: nat, j: nat)
    requires ClosedRound(calls, results) && i < j < |results|
    ensures results[i].toolUseId != results[j].toolUseId
  {
    var k := PermutationMatches(calls, results, i);
    var l := PermutationMatches(calls, results, j);
    if k == l {
      RepeatedCount(ResultKeys(results), i, j);
      DistinctCount(CallKeys(calls), ResultKeys(results)[i]);
      assert false;
    }
  }

  /** A permutation of the calls settles all of them. */
  lemma PermutationSettles(calls: seq<ToolCall>, results: seq<ToolResult>)
    requires ClosedRound(calls, results)
    ensures Settles(results, CallMap(calls))
    ensures CallMap(calls).Keys == ResultIds(results)
    ensures results != []
  {
    CallMapLookup(calls);
    forall i, j | 0 <= i < j < |results| ensures results[i].toolUseId != results[j].toolUseId {
      PermutationDistinct(calls, results, i, j);
    }
    forall i | 0 <= i < |results|
      ensures results[i].toolUseId in CallMap(calls)
      ensures CallMap(calls)[results[i].toolUseId] == results[i].name
    {
      var k := PermutationMatches(calls, results, i);
      assert calls[k].toolUseId == results[i].toolUseId;
    }
    forall k | 0 <= k < |calls| ensures calls[k].toolUseId in ResultIds(results) {
      assert CallKeys(calls)[k] in multiset(CallKeys(calls));
      assert CallKeys(calls)[k] in ResultKeys(results);
    }
    assert calls[0].toolUseId in ResultIds(results);
  }

  /** Results that settle every call are a permutation of the calls. */
  lemma SettledIsPermutation(calls: seq<ToolCall>, results: seq<ToolResult>)
    requires calls != [] && DistinctIds(calls)
    requires Settles(results, CallMap(calls))
    requires CallMap(calls).Keys == ResultIds(results)
    ensures ClosedRound(calls, results)
  {
    var ck, rk := CallKeys(calls), ResultKeys(results);
    CallMapLookup(calls);
    forall x | true ensures multiset(ck)[x] == multiset(rk)[x] {
      DistinctCount(ck, x);
      DistinctCount(rk, x);
      if x in ck {
        var k :| 0 <= k < |ck| && ck[k] == x;
        assert calls[k].toolUseId in ResultIds(results);
        var i :| 0 <= i < |results| && results[i].toolUseId == calls[k].toolUseId;
        assert rk[i] == x;
      }
      if x in rk {
        var i :| 0 <= i < |rk| && rk[i] == x;
        assert results[i].toolUseId in CallMap(calls);
        var k :| 0 <= k < |calls| && calls[k].toolUseId == results[i].toolUseId;
        assert ck[k] == x;
      }
    }
    assert multiset(ck) == multiset(rk);
  }

  // ---- Characterization --------------------------------------------------

  /** Checkpoints are transparent. */
  lemma {:induction false} ScanIgnoresCheckpoints(s: Scan, bodies: seq<ItemBody>)
    ensures ScanFrom(s, bodies) == ScanFrom(s, EraseCheckpoints(bodies))
    decreases |bodies|
  {
    if bodies != [] {
      var front := bodies[..|bodies| - 1];
      var last := bodies[|bodies| - 1];
      ScanIgnoresCheckpoints(s, front);
      if !last.CheckpointCreated? {
        ScanSnoc(s, EraseCheckpoints(front), last);
      } else {
        assert EraseCheckpoints(front) + [] == EraseCheckpoints(front);
      }
    }
  }

  lemma CloseMessages(messages: seq<Message>, calls: seq<ToolCall>, results: seq<ToolResult>)
    requires results != [] && CallMap(calls) - ResultIds(results) == map[]
    ensures AfterResults(messages, Calls(ToolUseBlocks(calls), CallMap(calls)), results)
         == Scan(messages + SegmentMessages(Round(calls, results)), Idle)
  {
    var pair := SegmentMessages(Round(calls, results));
    Regroup([], ResultBlocks(results), []);
    Regroup(messages, [pair[0]], [pair[1]]);
  }

  lemma ScanSegment(messages: seq<Message>, segment: Segment)
    requires GoodSegment(segment)
    ensures ScanFrom(Scan(messages, Idle), SegmentBodies(segment)) ==
            Ok(Scan(messages + SegmentMessages(segment), Idle))
  {
    var s := Scan(messages, Idle);
    match segment
    case Plain(body) =>
      ScanSnoc(s, [], body);
      assert [] + [body] == [body];
    case Round(calls, results) =>
      PermutationSettles(calls, results);
      ScanRound(messages, calls, results);
      assert CallMap(calls) - ResultIds(results) == map[];
      CloseMessages(messages, calls, results);
  }

  lemma {:induction false} ScanSegments(segments: seq<Segment>)
    requires GoodSegments(segments)
    ensures ScanFrom(START, Flatten(segments)) == Ok(Scan(Render(segments), Idle))
    decreases |segments|
  {
    if segments != [] {
      var front := segments[..|segments| - 1];
      var last := segments[|segments| - 1];
      ScanSegments(front);
      ScanAppend(START, Flatten(front), SegmentBodies(last));
      ScanSegment(Render(front), last);
    }
  }

  /** How a scan state decomposes: closed segments, then an open round of calls and results. */
  ghost predicate Decomposes(bodies: seq<ItemBody>, s: Scan,
                             segments: seq<Segment>, calls: seq<ToolCall>, results: seq<ToolResult>)
  {
    && GoodSegments(segments)
    && DistinctIds(calls)
    && EraseCheckpoints(bodies) == Flatten(segments) + CallBodies(calls) + ResultBodies(results)
    && Settles(results, CallMap(calls))
    && (calls == [] ==> results == [] && s == Scan(Render(segments), Idle))
    && (calls != [] ==>
          && s == AfterResults(Render(segments), Calls(ToolUseBlocks(calls), CallMap(calls)), results)
          && !s.phase.Idle?)
  }

  lemma {:induction false} Decompose(bodies: seq<ItemBody>)
    returns (segments: seq<Segment>, calls: seq<ToolCall>, results: seq<ToolResult>)
    requires ScanFrom(START, bodies).Ok?
    ensures Decomposes(bodies, ScanFrom(START, bodies).value, segments, calls, results)
    decreases |bodies|
  {
    if bodies == [] {
      segments, calls, results := [], [], [];
      NothingOpen([]);
    } else {
      var front := bodies[..|bodies| - 1];
      var last := bodies[|bodies| - 1];
      assert bodies == front + [last];
      segments, calls, results := Decompose(front);
      match last {
        case UserMessage(_) => segments := DecomposePlain(front, last, segments, calls, results);
        case AssistantMessage(_) => segments := DecomposePlain(front, last, segments, calls, results);
        case CallItem(call) => DecomposeCall(front, call, segments, calls, results); calls := calls + [call];
        case ResultItem(result) =>
          segments, calls, results := DecomposeResult(front, result, segments, calls, results);
        case CheckpointCreated(_) => DecomposeCheckpoint(front, last, segments, calls, results);
        case Compaction(_) => ScanSnoc(START, front, last); assert false;
      }
    }
  }

  lemma DecomposeCheckpoint(front: seq<ItemBody>, last: ItemBody,
                            segments: seq<Segment>, calls: seq<ToolCall>, results: seq<ToolResult>)
    requires ScanFrom(START, front).Ok? && last.CheckpointCreated?
    requires Decomposes(front, ScanFrom(START, front).value, segments, calls, results)
    ensures ScanFrom(START, front + [last]) == ScanFrom(START, front)
    ensures Decomposes(front + [last], ScanFrom(START, front).value, segments, calls, results)
  {
    ScanSnoc(START, front, last);
    EraseSnoc(front, last);
  }

  lemma EraseSnoc(front: seq<ItemBody>, last: ItemBody)
    ensures EraseCheckpoints(front + [last]) ==
            if last.CheckpointCreated? then EraseCheckpoints(front) else EraseCheckpoints(front) + [last]
  {
    assert (front + [last])[..|front|] == front;
    Regroup([], EraseCheckpoints(front), []);
  }

  lemma NothingOpen(closed: seq<ItemBody>)
    ensures closed + CallBodies([]) + ResultBodies([]) == closed
  {
    assert CallBodies([]) == [] && ResultBodies([]) == [];
  }

  lemma AppendSegment(segments: seq<Segment>, last: Segment)
    ensures Flatten(segments + [last]) == Flatten(segments) + SegmentBodies(last)
    ensures Render(segments + [last]) == Render(segments) + SegmentMessages(last)
    ensures GoodSegments(segments) && GoodSegment(last) ==> GoodSegments(segments + [last])
  {
    assert (segments + [last])[..|segments|] == segments;
  }

  lemma DecomposePlain(front: seq<ItemBody>, last: ItemBody,
                       segments: seq<Segment>, calls: seq<ToolCall>, results: seq<ToolResult>)
    returns (segments': seq<Segment>)
    requires ScanFrom(START, front + [last]).Ok? && ScanFrom(START, front).Ok?
    requires last.UserMessage? || last.AssistantMessage?
    requires Decomposes(front, ScanFrom(START, front).value, segments, calls, results)
    ensures calls == [] && results == []
    ensures Decomposes(front + [last], ScanFrom(START, front + [last]).value, segments', [], [])
  {
    ScanSnoc(START, front, last);
    assert calls == [];
    segments' := segments + [Plain(last)];
    AppendSegment(segments, Plain(last));
    EraseSnoc(front, last);
    NothingOpen(Flatten(segments));
    NothingOpen(Flatten(segments'));
  }

  lemma DistinctSnoc(calls: seq<ToolCall>, call: ToolCall)
    requires DistinctIds(calls) && call.toolUseId !in CallMap(calls)
    ensures DistinctIds(calls + [call])
  {
    CallMapLookup(calls);
  }

  lemma OpenBodiesSnoc(closed: seq<ItemBody>, calls: seq<ToolCall>, call: ToolCall)
    ensures closed + CallBodies(calls) + ResultBodies([]) + [CallItem(call)]
         == closed + CallBodies(calls + [call]) + ResultBodies([])
  {
    var more := calls + [call];
    assert CallBodies(more) == CallBodies(calls) + [CallItem(call)];
    assert ResultBodies([]) == [];
    Regroup(closed, CallBodies(calls), [CallItem(call)]);
  }

  /** A call is recorded only while no result has come, and only under a new id. */
  lemma CallFits(s: Scan, call: ToolCall, segments: seq<Segment>, calls: seq<ToolCall>, results: seq<ToolResult>)
    requires Consume(s, CallItem(call)).Ok? && Settles(results, CallMap(calls))
    requires calls == [] ==> results == [] && s == Scan(Render(segments), Idle)
    requires calls != [] ==> s == AfterResults(Render(segments), OpenPhase(calls), results) && !s.phase.Idle?
    ensures results == [] && call.toolUseId !in CallMap(calls) && s == Scan(Render(segments), OpenPhase(calls))
  {
  }

  lemma DecomposeCall(front: seq<ItemBody>, call: ToolCall,
                      segments: seq<Segment>, calls: seq<ToolCall>, results: seq<ToolResult>)
    requires ScanFrom(START, front + [CallItem(call)]).Ok? && ScanFrom(START, front).Ok?
    requires Decomposes(front, ScanFrom(START, front).value, segments, calls, results)
    ensures results == []
    ensures Decomposes(front + [CallItem(call)], ScanFrom(START, front + [CallItem(call)]).value,
                       segments, calls + [call], results)
  {
    ScanSnoc(START, front, CallItem(call));
    CallFits(ScanFrom(START, front).value, call, segments, calls, results);
    OpenCallsSnoc(Render(segments), calls, call);
    OpensWithCall(front, call, segments, calls);
  }

  lemma OpensWithCall(front: seq<ItemBody>, call: ToolCall, segments: seq<Segment>, calls: seq<ToolCall>)
    requires GoodSegments(segments) && DistinctIds(calls) && call.toolUseId !in CallMap(calls)
    requires EraseCheckpoints(front) == Flatten(segments) + CallBodies(calls) + ResultBodies([])
    ensures Decomposes(front + [CallItem(call)], Scan(Render(segments), OpenPhase(calls + [call])), segments, calls + [call], [])
  {
    EraseSnoc(front, CallItem(call));
    DistinctSnoc(calls, call);
    OpenBodiesSnoc(Flatten(segments), calls, call);
  }

  lemma DecomposeResult(front: seq<ItemBody>, result: ToolResult,
                        segments: seq<Segment>, calls: seq<ToolCall>, results: seq<ToolResult>)
    returns (segments': seq<Segment>, calls': seq<ToolCall>, results': seq<ToolResult>)
    requires ScanFrom(START, front + [ResultItem(result)]).Ok? && ScanFrom(START, front).Ok?
    requires Decomposes(front, ScanFrom(START, front).value, segments, calls, results)
    ensures Decomposes(front + [ResultItem(result)], ScanFrom(START, front + [ResultItem(result)]).value,
                       segments', calls', results')
  {
    ScanSnoc(START, front, ResultItem(result));
    var open, more := OpenPhase(calls), results + [result];
    SettleOneMore(Render(segments), calls, results, result);
    AfterResultsSnoc(Render(segments), open, results, result);
    EraseSnoc(front, ResultItem(result));
    ResultBodiesSnoc(Flatten(segments) + CallBodies(calls), results, result);
    if CallMap(calls) - ResultIds(more) == map[] {
      segments' := ClosesWithResult(front + [ResultItem(result)], segments, calls, more);
      calls', results' := [], [];
    } else {
      segments', calls', results' := segments, calls, more;
    }
  }

  lemma ResultBodiesSnoc(before: seq<ItemBody>, results: seq<ToolResult>, result: ToolResult)
    ensures before + ResultBodies(results) + [ResultItem(result)] == before + ResultBodies(results + [result])
  {
    assert ResultBodies(results + [result]) == ResultBodies(results) + [ResultItem(result)];
    Regroup(before, ResultBodies(results), [ResultItem(result)]);
  }

  /** The result that leaves nothing pending ends the segment. */
  lemma ClosesWithResult(bodies: seq<ItemBody>, segments: seq<Segment>, calls: seq<ToolCall>, results: seq<ToolResult>)
    returns (segments': seq<Segment>)
    requires GoodSegments(segments) && DistinctIds(calls) && calls != [] && results != []
    requires EraseCheckpoints(bodies) == Flatten(segments) + CallBodies(calls) + ResultBodies(results)
    requires Settles(results, CallMap(calls)) && CallMap(calls) - ResultIds(results) == map[]
    ensures Decomposes(bodies, AfterResults(Render(segments), OpenPhase(calls), results), segments', [], [])
  {
    segments' := segments + [Round(calls, results)];
    CloseRound(calls, results);
    CloseMessages(Render(segments), calls, results);
    CloseBodies(segments, calls, results);
    AppendSegment(segments, Round(calls, results));
  }

  lemma SettleOneMore(messages: seq<Message>, calls: seq<ToolCall>, results: seq<ToolResult>, result: ToolResult)
    requires calls != [] && Settles(results, CallMap(calls))
    requires var s := AfterResults(messages, Calls(ToolUseBlocks(calls), CallMap(calls)), results);
             !s.phase.Idle? && Consume(s, ResultItem(result)).Ok?
    ensures Settles(results + [result], CallMap(calls))
  {
    if results != [] {
      assert result.toolUseId in CallMap(calls) - ResultIds(results);
      forall i | 0 <= i < |results| ensures results[i].toolUseId != result.toolUseId {
        assert results[i].toolUseId in ResultIds(results);
      }
    }
  }

  /** The result that empties the pending set closes the round. */
  lemma CloseRound(calls: seq<ToolCall>, results: seq<ToolResult>)
    requires calls != [] && DistinctIds(calls)
    requires Settles(results, CallMap(calls)) && CallMap(calls) - ResultIds(results) == map[]
    ensures ClosedRound(calls, results)
  {
    forall id | id in CallMap(calls) ensures id in ResultIds(results) {
      assert id in ResultIds(results) || id in CallMap(calls) - ResultIds(results);
    }
    SettledIsPermutation(calls, results);
  }

  lemma CloseBodies(segments: seq<Segment>, calls: seq<ToolCall>, results: seq<ToolResult>)
    ensures Flatten(segments + [Round(calls, results)]) + CallBodies([]) + ResultBodies([])
         == Flatten(segments) + CallBodies(calls) + ResultBodies(results)
  {
    AppendSegment(segments, Round(calls, results));
    Regroup(Flatten(segments), CallBodies(calls), ResultBodies(results));
    NothingOpen(Flatten(segments + [Round(calls, results)]));
  }

  ghost predicate IsSequenceOfRounds(items: seq<SessionItem>, segments: seq<Segment>) {
    GoodSegments(segments) && Flatten(segments) == EraseCheckpoints(Bodies(items))
  }

  /** A log materializes exactly when, checkpoints erased, it is plain messages and closed rounds. */
  lemma MaterializesIffRounds(items: seq<SessionItem>)
    ensures Materialized(items).Ok? <==> exists segments :: IsSequenceOfRounds(items, segments)
  {
    if Materialized(items).Ok? {
      var segments, calls, results := Decompose(Bodies(items));
      var empty: seq<ItemBody> := [];
      assert Flatten(segments) + empty + empty == Flatten(segments);
      assert IsSequenceOfRounds(items, segments);
    }
    if segments :| IsSequenceOfRounds(items, segments) {
      MaterializesToRender(items, segments);
    }
  }

  /** The messages are the rendering of the segments: one pair of messages per round. */
  lemma MaterializesToRender(items: seq<SessionItem>, segments: seq<Segment>)
    requires IsSequenceOfRounds(items, segments)
    ensures Materialized(items) == Ok(Render(segments))
  {
    ScanIgnoresCheckpoints(START, Bodies(items));
    ScanSegments(segments);
  }

  // ---- Concatenation -----------------------------------------------------

  lemma {:induction false} ScanShift(prefix: seq<Message>, s: Scan, bodies: seq<ItemBody>)
    ensures ScanFrom(s.(messages := prefix + s.messages), bodies) ==
            match ScanFrom(s, bodies)
            case Err(e) => Err(e)
            case Ok(t) => Ok(t.(messages := prefix + t.messages))
    decreases |bodies|
  {
    if bodies != [] {
      var front := bodies[..|bodies| - 1];
      var last := bodies[|bodies| - 1];
      ScanShift(prefix, s, front);
      if ScanFrom(s, front).Ok? {
        ConsumeShift(prefix, ScanFrom(s, front).value, last);
      }
    }
  }

  lemma ConsumeShift(prefix: seq<Message>, s: Scan, body: ItemBody)
    ensures Consume(s.(messages := prefix + s.messages), body) ==
            match Consume(s, body)
            case Err(e) => Err(e)
            case Ok(t) => Ok(t.(messages := prefix + t.messages))
  {
    match Consume(s, body)
    case Err(_) =>
    case Ok(t) =>
      assert s.messages <= t.messages;
      assert t.messages == s.messages + t.messages[|s.messages|..];
      assert (prefix + s.messages) + t.messages[|s.messages|..] == prefix + t.messages;
  }

  /** After an accepted log, the rest of the log materializes on its own. */
  lemma MaterializeConcat(a: seq<SessionItem>, b: seq<SessionItem>)
    requires Materialized(a).Ok?
    ensures Materialized(a + b) ==
            match Materialized(b)
            case Err(e) => Err(e)
            case Ok(messages) => Ok(Materialized(a).value + messages)
  {
    BodiesAppend(a, b);
    ScanAppend(START, Bodies(a), Bodies(b));
    var messages := Materialized(a).value;
    ScanShift(messages, START, Bodies(b));
    assert messages + [] == messages;
  }

  // ---- Pending calls -----------------------------------------------------

  /** The call recorded at position `i` has no later result with its id. */
  predicate Unanswered(bodies: seq<ItemBody>, i: nat)
    requires i < |bodies|
  {
    && bodies[i].CallItem?
    && forall j :: i < j < |bodies| && bodies[j].ResultItem? ==>
         bodies[j].result.toolUseId != bodies[i].call.toolUseId
  }

  function UnansweredIds(bodies: seq<ItemBody>): set<string> {
    set i | 0 <= i < |bodies| && Unanswered(bodies, i) :: bodies[i].call.toolUseId
  }

  lemma UnansweredSnoc(bodies: seq<ItemBody>, last: ItemBody)
    ensures UnansweredIds(bodies + [last]) ==
            match last
            case CallItem(call) => UnansweredIds(bodies) + {call.toolUseId}
            case ResultItem(result) => UnansweredIds(bodies) - {result.toolUseId}
            case _ => UnansweredIds(bodies)
  {
    var all := bodies + [last];
    forall i | 0 <= i < |bodies|
      ensures Unanswered(all, i) <==>
              Unanswered(bodies, i) && !(last.ResultItem? && last.result.toolUseId == bodies[i].call.toolUseId)
    {
      assert forall j :: i < j < |bodies| ==> all[j] == bodies[j];
      assert all[|bodies|] == last;
    }
    forall id | id in UnansweredIds(bodies) && !(last.ResultItem? && last.result.toolUseId == id)
      ensures id in UnansweredIds(all)
    {
      var i :| 0 <= i < |bodies| && Unanswered(bodies, i) && bodies[i].call.toolUseId == id;
      assert Unanswered(all, i) && all[i].call.toolUseId == id;
    }
    forall id | id in UnansweredIds(all) && !(last.CallItem? && last.call.toolUseId == id)
      ensures id in UnansweredIds(bodies)
    {
      var i :| 0 <= i < |all| && Unanswered(all, i) && all[i].call.toolUseId == id;
      assert i < |bodies| && Unanswered(bodies, i);
    }
    if last.CallItem? {
      assert Unanswered(all, |bodies|) && all[|bodies|].call.toolUseId == last.call.toolUseId;
    }
  }

  /** Whatever the scan accepts so far, the pending calls are exactly the recorded calls without a result. */
  lemma {:induction false} PendingIsUnanswered(bodies: seq<ItemBody>)
    requires ScanFrom(START, bodies).Ok?
    ensures ScanFrom(START, bodies).value.phase.Pending().Keys == UnansweredIds(bodies)
    decreases |bodies|
  {
    if bodies != [] {
      var front := bodies[..|bodies| - 1];
      var last := bodies[|bodies| - 1];
      PendingIsUnanswered(front);
      assert bodies == front + [last];
      UnansweredSnoc(front, last);
    }
  }
}
