/** Handing a message history to an adapter family that does not take thinking blocks. */
module Handoff {
  import opened Protocol
  import opened Tools
  import opened SessionTypes
  import opened Materialize
  import opened LogGrammar

  // ---- Sanitizing --------------------------------------------------------

  function SanitizeBlock(block: ContentBlock): Option<ContentBlock>
    decreases block
  {
    match block
    case Thinking(_) => None
    case ToolResultBlock(id, BlockContent(nested)) =>
      var kept := SanitizeBlocks(nested);
      if kept == [] then None else Some(ToolResultBlock(id, BlockContent(kept)))
    case other => Some(other)
  }

  function SanitizeBlocks(blocks: seq<ContentBlock>): seq<ContentBlock>
    decreases blocks
  {
    if blocks == [] then []
    else
      var first := SanitizeBlock(blocks[0]);
      (if first.Some? then [first.value] else []) + SanitizeBlocks(blocks[1..])
  }

  function SanitizeMessage(message: Message): Option<Message> {
    match message.content
    case TextMessage(_) => Some(message)
    case BlockMessage(blocks) =>
      var kept := SanitizeBlocks(blocks);
      if kept == [] then None else Some(Message(message.role, BlockMessage(kept)))
  }

  function SanitizeAll(messages: seq<Message>): seq<Message> {
    if messages == [] then []
    else
      var first := SanitizeMessage(messages[0]);
      (if first.Some? then [first.value] else []) + SanitizeAll(messages[1..])
  }

  function SanitizeForHandoff(messages: seq<Message>, stripThinking: bool): seq<Message> {
    if stripThinking then SanitizeAll(messages) else messages
  }

  // ---- Clean blocks ------------------------------------------------------

  /** No thinking block at any depth, and no empty nested result. */
  predicate Clean(block: ContentBlock)
    decreases block
  {
    match block
    case Thinking(_) => false
    case ToolResultBlock(_, BlockContent(nested)) => nested != [] && AllClean(nested)
    case _ => true
  }

  predicate AllClean(blocks: seq<ContentBlock>)
    decreases blocks
  {
    blocks == [] || (Clean(blocks[0]) && AllClean(blocks[1..]))
  }

  predicate CleanMessage(message: Message) {
    message.content.BlockMessage? ==> message.content.blocks != [] && AllClean(message.content.blocks)
  }

  lemma {:induction false} AllCleanAppend(block: ContentBlock, rest: seq<ContentBlock>)
    ensures AllClean([block] + rest) <==> Clean(block) && AllClean(rest)
  {
    assert ([block] + rest)[1..] == rest;
  }

  lemma {:induction false} SanitizedIsClean(block: ContentBlock)
    ensures SanitizeBlock(block).Some? ==> Clean(SanitizeBlock(block).value)
    decreases block
  {
    if block.ToolResultBlock? && block.content.BlockContent? {
      SanitizedAreClean(block.content.blocks);
    }
  }

  lemma {:induction false} SanitizedAreClean(blocks: seq<ContentBlock>)
    ensures AllClean(SanitizeBlocks(blocks))
    decreases blocks
  {
    if blocks != [] {
      SanitizedIsClean(blocks[0]);
      SanitizedAreClean(blocks[1..]);
      var first, rest := SanitizeBlock(blocks[0]), SanitizeBlocks(blocks[1..]);
      if first.Some? { AllCleanAppend(first.value, rest); } else { assert [] + rest == rest; }
    }
  }

  /** Sanitizing leaves a block alone exactly when it is clean. */
  lemma {:induction false} FixedIffClean(block: ContentBlock)
    ensures SanitizeBlock(block) == Some(block) <==> Clean(block)
    decreases block
  {
    if block.ToolResultBlock? && block.content.BlockContent? {
      AllFixedIffClean(block.content.blocks);
    }
  }

  lemma {:induction false} SanitizeShrinks(blocks: seq<ContentBlock>)
    ensures |SanitizeBlocks(blocks)| <= |blocks|
    decreases |blocks|
  {
    if blocks != [] { SanitizeShrinks(blocks[1..]); }
  }

  lemma SameCons<T>(x: T, xs: seq<T>, y: T, ys: seq<T>)
    ensures [x] + xs == [y] + ys <==> x == y && xs == ys
  {
    if [x] + xs == [y] + ys {
      assert ([x] + xs)[0] == ([y] + ys)[0];
      assert xs == ([x] + xs)[1..] && ys == ([y] + ys)[1..];
    }
  }

  lemma {:induction false} AllFixedIffClean(blocks: seq<ContentBlock>)
    ensures SanitizeBlocks(blocks) == blocks <==> AllClean(blocks)
    decreases blocks
  {
    if blocks != [] {
      var tail := blocks[1..];
      FixedIffClean(blocks[0]);
      AllFixedIffClean(tail);
      var first, rest := SanitizeBlock(blocks[0]), SanitizeBlocks(tail);
      assert blocks == [blocks[0]] + tail;
      if first.Some? {
        SameCons(first.value, rest, blocks[0], tail);
      } else {
        SanitizeShrinks(tail);
        assert SanitizeBlocks(blocks) == rest;
      }
    }
  }

  lemma {:induction false} MessagesAreClean(messages: seq<Message>)
    ensures forall i :: 0 <= i < |SanitizeAll(messages)| ==> CleanMessage(SanitizeAll(messages)[i])
    decreases |messages|
  {
    if messages != [] {
      MessagesAreClean(messages[1..]);
      if messages[0].content.BlockMessage? { SanitizedAreClean(messages[0].content.blocks); }
    }
  }

  lemma {:induction false} CleanMessagesAreFixed(messages: seq<Message>)
    requires forall i :: 0 <= i < |messages| ==> CleanMessage(messages[i])
    ensures SanitizeAll(messages) == messages
    decreases |messages|
  {
    if messages != [] {
      if messages[0].content.BlockMessage? { AllFixedIffClean(messages[0].content.blocks); }
      assert forall i :: 0 <= i < |messages[1..]| ==> messages[1..][i] == messages[i + 1];
      CleanMessagesAreFixed(messages[1..]);
      assert messages == [messages[0]] + messages[1..];
    }
  }

  /** Sanitizing once is enough, and leaves no thinking at any depth. */
  lemma SanitizeIsIdempotent(messages: seq<Message>)
    ensures SanitizeForHandoff(SanitizeForHandoff(messages, true), true) == SanitizeForHandoff(messages, true)
    ensures forall i :: 0 <= i < |SanitizeForHandoff(messages, true)| ==> CleanMessage(SanitizeForHandoff(messages, true)[i])
  {
    MessagesAreClean(messages);
    CleanMessagesAreFixed(SanitizeAll(messages));
  }

  function WithoutThinking(blocks: seq<ContentBlock>): seq<ContentBlock> {
    if blocks == [] then []
    else (if blocks[0].Thinking? then [] else [blocks[0]]) + WithoutThinking(blocks[1..])
  }

  predicate Flat(block: ContentBlock) {
    !(block.ToolResultBlock? && block.content.BlockContent?)
  }

  /** Without nested results, exactly the thinking blocks go. */
  lemma {:induction false} FlatBlocksLoseOnlyThinking(blocks: seq<ContentBlock>)
    requires forall i :: 0 <= i < |blocks| ==> Flat(blocks[i])
    ensures SanitizeBlocks(blocks) == WithoutThinking(blocks)
    decreases |blocks|
  {
    if blocks != [] { FlatBlocksLoseOnlyThinking(blocks[1..]); }
  }

  /** A block that is neither thinking nor a nested result, with the ids of the results it stands in, outermost first. */
  datatype Leaf = Leaf(path: seq<string>, block: ContentBlock)

  /** What a block says apart from thinking, at every depth and in order. */
  function Leaves(path: seq<string>, block: ContentBlock): seq<Leaf>
    decreases block
  {
    match block
    case Thinking(_) => []
    case ToolResultBlock(id, BlockContent(nested)) => AllLeaves(path + [id], nested)
    case _ => [Leaf(path, block)]
  }

  function AllLeaves(path: seq<string>, blocks: seq<ContentBlock>): seq<Leaf>
    decreases blocks
  {
    if blocks == [] then [] else Leaves(path, blocks[0]) + AllLeaves(path, blocks[1..])
  }

  lemma AllLeavesCons(path: seq<string>, block: ContentBlock, rest: seq<ContentBlock>)
    ensures AllLeaves(path, [block] + rest) == Leaves(path, block) + AllLeaves(path, rest)
  {
    assert ([block] + rest)[1..] == rest;
  }

  lemma {:induction false} SanitizedSaysTheSame(path: seq<string>, block: ContentBlock)
    ensures Leaves(path, block) == if SanitizeBlock(block).Some? then Leaves(path, SanitizeBlock(block).value) else []
    decreases block
  {
    if block.ToolResultBlock? && block.content.BlockContent? {
      SanitizedSayTheSame(path + [block.toolUseId], block.content.blocks);
    }
  }

  /** Nothing but thinking is lost, at any depth, and the order is kept. */
  lemma {:induction false} SanitizedSayTheSame(path: seq<string>, blocks: seq<ContentBlock>)
    ensures AllLeaves(path, SanitizeBlocks(blocks)) == AllLeaves(path, blocks)
    decreases blocks
  {
    if blocks != [] {
      SanitizedSaysTheSame(path, blocks[0]);
      SanitizedSayTheSame(path, blocks[1..]);
      var first, rest := SanitizeBlock(blocks[0]), SanitizeBlocks(blocks[1..]);
      if first.Some? {
        AllLeavesCons(path, first.value, rest);
      } else {
        assert [] + rest == rest && [] + AllLeaves(path, rest) == AllLeaves(path, rest);
      }
    }
  }

  /** What a conversation says: who, and either a text or the leaves of its blocks. */
  datatype Saying = SaysText(role: Role, text: string) | SaysLeaf(role: Role, leaf: Leaf)

  function Spoken(role: Role, leaves: seq<Leaf>): (sayings: seq<Saying>)
    ensures |sayings| == |leaves| && forall i :: 0 <= i < |leaves| ==> sayings[i] == SaysLeaf(role, leaves[i])
  {
    seq(|leaves|, i requires 0 <= i < |leaves| => SaysLeaf(role, leaves[i]))
  }

  function SaidBy(message: Message): seq<Saying> {
    match message.content
    case TextMessage(text) => [SaysText(message.role, text)]
    case BlockMessage(blocks) => Spoken(message.role, AllLeaves([], blocks))
  }

  function Said(messages: seq<Message>): seq<Saying> {
    if messages == [] then [] else SaidBy(messages[0]) + Said(messages[1..])
  }

  /** A handoff changes nothing that is said but thinking, and nothing at all if thinking is kept. */
  lemma {:induction false} HandoffSaysTheSame(messages: seq<Message>)
    ensures Said(SanitizeForHandoff(messages, true)) == Said(messages)
    ensures SanitizeForHandoff(messages, false) == messages
    decreases |messages|
  {
    if messages != [] {
      var first, rest := SanitizeMessage(messages[0]), SanitizeAll(messages[1..]);
      HandoffSaysTheSame(messages[1..]);
      if messages[0].content.BlockMessage? { SanitizedSayTheSame([], messages[0].content.blocks); }
      if first.Some? {
        assert ([first.value] + rest)[1..] == rest;
      } else {
        assert [] + rest == rest && [] + Said(rest) == Said(rest);
      }
    }
  }

  // ---- Pairing -----------------------------------------------------------

  /** The ids of the tool uses among some blocks. */
  function UseIds(blocks: seq<ContentBlock>): seq<string> {
    if blocks == [] then [] else (if blocks[0].ToolUse? then [blocks[0].id] else []) + UseIds(blocks[1..])
  }

  /** The ids answered by the results among some blocks. */
  function AnsweredIds(blocks: seq<ContentBlock>): seq<string> {
    if blocks == [] then []
    else (if blocks[0].ToolResultBlock? then [blocks[0].toolUseId] else []) + AnsweredIds(blocks[1..])
  }

  function BlocksOf(message: Message): seq<ContentBlock> {
    if message.content.BlockMessage? then message.content.blocks else []
  }

  /** The results in each message are exactly those that the tool uses of the message before it are owed. */
  ghost predicate Owes(messages: seq<Message>, owed: seq<string>)
    decreases |messages|
  {
    if messages == [] then owed == []
    else
      && multiset(AnsweredIds(BlocksOf(messages[0]))) == multiset(owed)
      && (owed != [] ==> messages[0].role == User)
      && Owes(messages[1..], UseIds(BlocksOf(messages[0])))
  }

  /** Every message with tool uses is directly followed by the user message with all its results. */
  ghost predicate Paired(messages: seq<Message>) {
    Owes(messages, [])
  }

  lemma OwesCons(message: Message, rest: seq<Message>, owed: seq<string>)
    ensures Owes([message] + rest, owed) <==>
            && multiset(AnsweredIds(BlocksOf(message))) == multiset(owed)
            && (owed != [] ==> message.role == User)
            && Owes(rest, UseIds(BlocksOf(message)))
  {
    assert ([message] + rest)[1..] == rest;
  }

  lemma {:induction false} OwesAppend(a: seq<Message>, b: seq<Message>, owed: seq<string>)
    requires Owes(a, owed) && Owes(b, [])
    ensures Owes(a + b, owed)
    decreases |a|
  {
    if a == [] {
      assert a + b == b;
    } else {
      var first, rest := a[0], a[1..];
      assert a == [first] + rest;
      OwesCons(first, rest, owed);
      OwesAppend(rest, b, UseIds(BlocksOf(first)));
      OwesCons(first, rest + b, owed);
      Regroup([first], rest, b);
    }
  }

  // ---- Materialized histories are paired ---------------------------------

  /** Every item passed the checks made at commit. */
  predicate CommittedLog(items: seq<SessionItem>) {
    forall i :: 0 <= i < |items| ==> ValidateBody(items[i].body).Ok?
  }

  lemma {:induction false} PlainHasNoIds(blocks: seq<ContentBlock>)
    requires PlainBlocks(blocks)
    ensures UseIds(blocks) == [] && AnsweredIds(blocks) == []
    decreases |blocks|
  {
    if blocks != [] {
      assert PlainBlock(blocks[0]);
      assert forall i :: 0 <= i < |blocks[1..]| ==> blocks[1..][i] == blocks[i + 1];
      PlainHasNoIds(blocks[1..]);
    }
  }

  function CallIdSeq(calls: seq<ToolCall>): seq<string> {
    seq(|calls|, i requires 0 <= i < |calls| => calls[i].toolUseId)
  }

  function ResultIdSeq(results: seq<ToolResult>): seq<string> {
    seq(|results|, i requires 0 <= i < |results| => results[i].toolUseId)
  }

  lemma {:induction false} IdsOfCalls(calls: seq<ToolCall>)
    ensures UseIds(ToolUseBlocks(calls)) == CallIdSeq(calls) && AnsweredIds(ToolUseBlocks(calls)) == []
    decreases |calls|
  {
    if calls != [] {
      IdsOfCalls(calls[1..]);
      assert ToolUseBlocks(calls)[1..] == ToolUseBlocks(calls[1..]);
      assert CallIdSeq(calls) == [calls[0].toolUseId] + CallIdSeq(calls[1..]);
    }
  }

  lemma {:induction false} IdsOfResults(results: seq<ToolResult>)
    ensures AnsweredIds(ResultBlocks(results)) == ResultIdSeq(results) && UseIds(ResultBlocks(results)) == []
    decreases |results|
  {
    if results != [] {
      IdsOfResults(results[1..]);
      assert ResultBlocks(results)[1..] == ResultBlocks(results[1..]);
      assert ResultIdSeq(results) == [results[0].toolUseId] + ResultIdSeq(results[1..]);
    }
  }

  lemma CallIdMembers(calls: seq<ToolCall>, x: string)
    requires DistinctIds(calls)
    ensures multiset(CallIdSeq(calls))[x] == if x in CallMap(calls) then 1 else 0
  {
    CallMapLookup(calls);
    DistinctCount(CallIdSeq(calls), x);
    if x in CallMap(calls) {
      var i :| 0 <= i < |calls| && calls[i].toolUseId == x;
      assert CallIdSeq(calls)[i] == x;
    }
  }

  lemma ResultIdMembers(results: seq<ToolResult>, pending: map<string, string>, x: string)
    requires Settles(results, pending)
    ensures multiset(ResultIdSeq(results))[x] == if x in ResultIds(results) then 1 else 0
  {
    DistinctCount(ResultIdSeq(results), x);
    if x in ResultIds(results) {
      var i :| 0 <= i < |results| && results[i].toolUseId == x;
      assert ResultIdSeq(results)[i] == x;
    }
  }

  /** A closed round has as many results as calls, with the same ids. */
  lemma SameIds(calls: seq<ToolCall>, results: seq<ToolResult>)
    requires ClosedRound(calls, results)
    ensures multiset(CallIdSeq(calls)) == multiset(ResultIdSeq(results))
  {
    PermutationSettles(calls, results);
    forall x | true ensures multiset(CallIdSeq(calls))[x] == multiset(ResultIdSeq(results))[x] {
      CallIdMembers(calls, x);
      ResultIdMembers(results, CallMap(calls), x);
    }
  }

  lemma SegmentIsPaired(segment: Segment)
    requires GoodSegment(segment)
    requires segment.Plain? ==> ValidateBody(segment.body).Ok?
    ensures Paired(SegmentMessages(segment))
  {
    var messages := SegmentMessages(segment);
    match segment
    case Plain(body) =>
      if body.AssistantMessage? { PlainHasNoIds(body.blocks); }
      OwesCons(messages[0], [], []);
      assert messages == [messages[0]] + [];
    case Round(calls, results) =>
      IdsOfCalls(calls);
      IdsOfResults(results);
      SameIds(calls, results);
      assert messages == [messages[0]] + ([messages[1]] + []);
      OwesCons(messages[0], [messages[1]] + [], []);
      OwesCons(messages[1], [], CallIdSeq(calls));
  }

  lemma {:induction false} ErasedComesFrom(bodies: seq<ItemBody>, body: ItemBody)
    requires body in EraseCheckpoints(bodies)
    ensures body in bodies
    decreases |bodies|
  {
    if bodies != [] {
      var front := bodies[..|bodies| - 1];
      if body in EraseCheckpoints(front) { ErasedComesFrom(front, body); }
    }
  }

  lemma {:induction false} RenderIsPaired(segments: seq<Segment>)
    requires GoodSegments(segments)
    requires forall body :: body in Flatten(segments) ==> ValidateBody(body).Ok?
    ensures Paired(Render(segments))
    decreases |segments|
  {
    if segments != [] {
      var front := segments[..|segments| - 1];
      var last := segments[|segments| - 1];
      forall body | body in Flatten(front) ensures ValidateBody(body).Ok? { assert body in Flatten(segments); }
      RenderIsPaired(front);
      if last.Plain? {
        assert SegmentBodies(last)[0] in Flatten(segments);
      }
      SegmentIsPaired(last);
      OwesAppend(Render(front), SegmentMessages(last), []);
    }
  }

  lemma MaterializedIsPaired(items: seq<SessionItem>)
    requires CommittedLog(items) && Materialized(items).Ok?
    ensures Paired(Materialized(items).value)
  {
    MaterializesIffRounds(items);
    var segments :| IsSequenceOfRounds(items, segments);
    MaterializesToRender(items, segments);
    forall body | body in Flatten(segments) ensures ValidateBody(body).Ok? {
      ErasedComesFrom(Bodies(items), body);
      var i :| 0 <= i < |items| && Bodies(items)[i] == body;
      assert items[i].body == body;
    }
    RenderIsPaired(segments);
  }

  // ---- Sanitizing keeps pairing, unless a result vanishes ------------------

  /** Thinking, or a nested result that holds nothing else at any depth; an empty one holds nothing at all. */
  predicate Hollow(block: ContentBlock)
    decreases block
  {
    match block
    case Thinking(_) => true
    case ToolResultBlock(_, BlockContent(nested)) => AllHollow(nested)
    case _ => false
  }

  predicate AllHollow(blocks: seq<ContentBlock>)
    decreases blocks
  {
    blocks == [] || (Hollow(blocks[0]) && AllHollow(blocks[1..]))
  }

  /** Exactly the hollow blocks are dropped. */
  lemma {:induction false} DroppedIffHollow(block: ContentBlock)
    ensures SanitizeBlock(block).None? <==> Hollow(block)
    decreases block
  {
    if block.ToolResultBlock? && block.content.BlockContent? {
      AllDroppedIffHollow(block.content.blocks);
    }
  }

  lemma {:induction false} AllDroppedIffHollow(blocks: seq<ContentBlock>)
    ensures SanitizeBlocks(blocks) == [] <==> AllHollow(blocks)
    decreases blocks
  {
    if blocks != [] {
      DroppedIffHollow(blocks[0]);
      AllDroppedIffHollow(blocks[1..]);
    }
  }

  /** A tool result that is dropped whole. */
  predicate Vanishes(block: ContentBlock) {
    block.ToolResultBlock? && Hollow(block)
  }

  predicate KeepsResults(message: Message) {
    forall i :: 0 <= i < |BlocksOf(message)| ==> !Vanishes(BlocksOf(message)[i])
  }

  lemma {:induction false} SanitizedUses(blocks: seq<ContentBlock>)
    ensures UseIds(SanitizeBlocks(blocks)) == UseIds(blocks)
    decreases |blocks|
  {
    if blocks != [] {
      SanitizedUses(blocks[1..]);
      var first, rest := SanitizeBlock(blocks[0]), SanitizeBlocks(blocks[1..]);
      if first.Some? { assert ([first.value] + rest)[1..] == rest; } else { assert [] + rest == rest; }
    }
  }

  lemma {:induction false} SanitizedAnswers(blocks: seq<ContentBlock>)
    ensures |AnsweredIds(SanitizeBlocks(blocks))| <= |AnsweredIds(blocks)|
    ensures AnsweredIds(SanitizeBlocks(blocks)) == AnsweredIds(blocks) <==>
            forall i :: 0 <= i < |blocks| ==> !Vanishes(blocks[i])
    ensures (exists i :: 0 <= i < |blocks| && Vanishes(blocks[i])) ==>
            |AnsweredIds(SanitizeBlocks(blocks))| < |AnsweredIds(blocks)|
    decreases |blocks|
  {
    if blocks != [] {
      var tail := blocks[1..];
      SanitizedAnswers(tail);
      var first, rest := SanitizeBlock(blocks[0]), SanitizeBlocks(tail);
      DroppedIffHollow(blocks[0]);
      if first.Some? { assert ([first.value] + rest)[1..] == rest; } else { assert [] + rest == rest; }
      assert forall i :: 0 <= i < |tail| ==> tail[i] == blocks[i + 1];
      if exists i :: 0 <= i < |blocks| && Vanishes(blocks[i]) {
        var i :| 0 <= i < |blocks| && Vanishes(blocks[i]);
        assert i > 0 ==> Vanishes(tail[i - 1]);
      }
      if forall i :: 0 <= i < |tail| ==> !Vanishes(tail[i]) {
        assert !Vanishes(blocks[0]) ==> forall i :: 0 <= i < |blocks| ==> !Vanishes(blocks[i]);
      }
    }
  }

  lemma SanitizedMessage(message: Message)
    ensures UseIds(BlocksOf(message)) != [] ==> SanitizeMessage(message).Some?
    ensures SanitizeMessage(message).Some? ==>
              && SanitizeMessage(message).value.role == message.role
              && UseIds(BlocksOf(SanitizeMessage(message).value)) == UseIds(BlocksOf(message))
              && |AnsweredIds(BlocksOf(SanitizeMessage(message).value))| <= |AnsweredIds(BlocksOf(message))|
              && (KeepsResults(message) <==>
                    AnsweredIds(BlocksOf(SanitizeMessage(message).value)) == AnsweredIds(BlocksOf(message)))
              && (!KeepsResults(message) ==>
                    |AnsweredIds(BlocksOf(SanitizeMessage(message).value))| < |AnsweredIds(BlocksOf(message))|)
    ensures AnsweredIds(BlocksOf(message)) != [] && KeepsResults(message) ==> SanitizeMessage(message).Some?
    ensures AnsweredIds(BlocksOf(message)) == [] ==> KeepsResults(message)
  {
    if message.content.BlockMessage? {
      SanitizedUses(message.content.blocks);
      SanitizedAnswers(message.content.blocks);
    }
  }

  predicate AllKeepResults(messages: seq<Message>) {
    forall i :: 0 <= i < |messages| ==> KeepsResults(messages[i])
  }

  lemma SanitizeAllCons(message: Message, rest: seq<Message>)
    ensures SanitizeAll([message] + rest) ==
            (if SanitizeMessage(message).Some? then [SanitizeMessage(message).value] else []) + SanitizeAll(rest)
    ensures AllKeepResults([message] + rest) <==> KeepsResults(message) && AllKeepResults(rest)
  {
    var all := [message] + rest;
    assert all[1..] == rest;
    if AllKeepResults(all) {
      assert KeepsResults(all[0]);
      forall i | 0 <= i < |rest| ensures KeepsResults(rest[i]) { assert all[i + 1] == rest[i]; }
    }
  }

  /** Where nothing is owed, the first surviving message answers nothing. */
  lemma {:induction false} FirstSurvivorAsks(messages: seq<Message>)
    requires Owes(messages, []) && SanitizeAll(messages) != []
    ensures AnsweredIds(BlocksOf(SanitizeAll(messages)[0])) == []
    decreases |messages|
  {
    var first, rest := messages[0], messages[1..];
    assert messages == [first] + rest;
    OwesCons(first, rest, []);
    NoneOwed(AnsweredIds(BlocksOf(first)), []);
    SanitizedMessage(first);
    SanitizeAllCons(first, rest);
    if SanitizeMessage(first).None? {
      assert SanitizeAll(messages) == SanitizeAll(rest);
      FirstSurvivorAsks(rest);
    }
  }

  lemma NoneOwed(answered: seq<string>, owed: seq<string>)
    ensures multiset(answered) == multiset(owed) ==> |answered| == |owed|
  {
    assert |multiset(answered)| == |answered| && |multiset(owed)| == |owed|;
  }

  /** A message that survives settles what is owed exactly when it keeps all its results. */
  lemma SurvivorSettles(first: Message, rest: seq<Message>, owed: seq<string>)
    requires Owes([first] + rest, owed) && SanitizeMessage(first).Some?
    ensures Owes(SanitizeAll([first] + rest), owed) <==>
            KeepsResults(first) && Owes(SanitizeAll(rest), UseIds(BlocksOf(first)))
  {
    OwesCons(first, rest, owed);
    SanitizedMessage(first);
    SanitizeAllCons(first, rest);
    var kept := SanitizeMessage(first).value;
    OwesCons(kept, SanitizeAll(rest), owed);
    NoneOwed(AnsweredIds(BlocksOf(first)), owed);
    NoneOwed(AnsweredIds(BlocksOf(kept)), owed);
  }

  /** A message that is dropped settled nothing, or what it settled stays owed. */
  lemma DroppedSettles(first: Message, rest: seq<Message>, owed: seq<string>)
    requires Owes([first] + rest, owed) && SanitizeMessage(first).None?
    ensures Owes(SanitizeAll([first] + rest), owed) <==>
            KeepsResults(first) && Owes(SanitizeAll(rest), UseIds(BlocksOf(first)))
  {
    OwesCons(first, rest, owed);
    SanitizedMessage(first);
    SanitizeAllCons(first, rest);
    NoneOwed(AnsweredIds(BlocksOf(first)), owed);
    var tail := SanitizeAll(rest);
    assert SanitizeAll([first] + rest) == tail;
    assert UseIds(BlocksOf(first)) == [];
    if KeepsResults(first) {
      assert owed == [];
    } else {
      assert owed != [];
      StaysOwed(rest, owed);
    }
  }

  /** What is owed before a history where nothing is owed is never settled by its survivors. */
  lemma StaysOwed(rest: seq<Message>, owed: seq<string>)
    requires Owes(rest, []) && owed != []
    ensures !Owes(SanitizeAll(rest), owed)
  {
    var tail := SanitizeAll(rest);
    if tail != [] {
      FirstSurvivorAsks(rest);
      assert tail == [tail[0]] + tail[1..];
      OwesCons(tail[0], tail[1..], owed);
      NoneOwed(AnsweredIds(BlocksOf(tail[0])), owed);
    }
  }

  /** Handoff keeps a paired history paired exactly when none of its tool results is hollow. */
  lemma {:induction false} HandoffKeepsPairingIff(messages: seq<Message>, owed: seq<string>)
    requires Owes(messages, owed)
    ensures Owes(SanitizeAll(messages), owed) <==> AllKeepResults(messages)
    decreases |messages|
  {
    if messages != [] {
      var first, rest := messages[0], messages[1..];
      assert messages == [first] + rest;
      OwesCons(first, rest, owed);
      HandoffKeepsPairingIff(rest, UseIds(BlocksOf(first)));
      SanitizeAllCons(first, rest);
      if SanitizeMessage(first).Some? {
        SurvivorSettles(first, rest, owed);
      } else {
        DroppedSettles(first, rest, owed);
      }
    }
  }

  /** A materialized history survives the handoff paired, because its results are plain text. */
  lemma HandoffKeepsMaterializedPairing(items: seq<SessionItem>)
    requires CommittedLog(items) && Materialized(items).Ok?
    ensures Paired(SanitizeForHandoff(Materialized(items).value, true))
  {
    MaterializedIsPaired(items);
    MaterializedIsFlat(items);
    HandoffKeepsPairingIff(Materialized(items).value, []);
  }

  lemma MaterializedIsFlat(items: seq<SessionItem>)
    requires CommittedLog(items) && Materialized(items).Ok?
    ensures AllKeepResults(Materialized(items).value)
  {
    MaterializesIffRounds(items);
    var segments :| IsSequenceOfRounds(items, segments);
    MaterializesToRender(items, segments);
    forall body | body in Flatten(segments) ensures ValidateBody(body).Ok? {
      ErasedComesFrom(Bodies(items), body);
      var i :| 0 <= i < |items| && Bodies(items)[i] == body;
      assert items[i].body == body;
    }
    RenderKeepsResults(segments);
  }

  lemma {:induction false} RenderKeepsResults(segments: seq<Segment>)
    requires GoodSegments(segments)
    requires forall body :: body in Flatten(segments) ==> ValidateBody(body).Ok?
    ensures AllKeepResults(Render(segments))
    decreases |segments|
  {
    if segments != [] {
      var front := segments[..|segments| - 1];
      var last := segments[|segments| - 1];
      forall body | body in Flatten(front) ensures ValidateBody(body).Ok? { assert body in Flatten(segments); }
      RenderKeepsResults(front);
      if last.Plain? {
        assert SegmentBodies(last)[0] in Flatten(segments);
      }
    }
  }

  /** One tool use and its nested result. */
  function Exchange(id: string, nested: seq<ContentBlock>): seq<Message> {
    [Message(Assistant, BlockMessage([ToolUse(id, "read", Json("{}"))])),
     Message(User, BlockMessage([ToolResultBlock(id, BlockContent(nested))]))]
  }

  /** A single exchange is paired, and stays so exactly when its result holds anything that is not hollow. */
  lemma NestedResultSurvivesIff(id: string, nested: seq<ContentBlock>)
    ensures Paired(Exchange(id, nested))
    ensures Paired(SanitizeForHandoff(Exchange(id, nested), true)) <==> !AllHollow(nested)
  {
    var ask, answer := Exchange(id, nested)[0], Exchange(id, nested)[1];
    assert UseIds([ToolUse(id, "read", Json("{}"))]) == [id];
    assert AnsweredIds([ToolResultBlock(id, BlockContent(nested))]) == [id];
    assert Exchange(id, nested) == [ask] + ([answer] + []);
    OwesCons(ask, [answer] + [], []);
    OwesCons(answer, [], [id]);
    HandoffKeepsPairingIff(Exchange(id, nested), []);
    assert KeepsResults(ask);
    assert Vanishes(BlocksOf(answer)[0]) <==> AllHollow(nested);
    assert KeepsResults(Exchange(id, nested)[1]) <==> !AllHollow(nested);
  }

  /** A nested result of thinking alone, or of nothing, breaks the pairing of an otherwise paired history. */
  lemma HollowResultIsLost(id: string)
    ensures Paired(Exchange(id, [Thinking("hidden")])) && !Paired(SanitizeForHandoff(Exchange(id, [Thinking("hidden")]), true))
    ensures Paired(Exchange(id, [])) && !Paired(SanitizeForHandoff(Exchange(id, []), true))
  {
    NestedResultSurvivesIff(id, [Thinking("hidden")]);
    NestedResultSurvivesIff(id, []);
  }
}
