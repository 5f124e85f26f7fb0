/** Reading a session backwards by pages of complete turns. */
module TurnPages {
  import opened Protocol
  import opened SessionTypes

  datatype TurnPage = TurnPage(items: seq<SessionItem>, oldestTurn: Option<nat>, hasOlder: bool)

  datatype PageError = ZeroLimit

  predicate Visible(item: SessionItem, before: Option<nat>) {
    before.Some? ==> item.base.turn < before.value
  }

  function TurnsOf(items: seq<SessionItem>): set<nat> {
    set i | 0 <= i < |items| :: items[i].base.turn
  }

  /** The first `n` items are exactly the visible ones. */
  predicate VisiblePrefix(items: seq<SessionItem>, before: Option<nat>, n: nat) {
    && n <= |items|
    && (forall i :: 0 <= i < n ==> Visible(items[i], before))
    && (forall i :: n <= i < |items| ==> !Visible(items[i], before))
  }

  /** `items[lo..n]` starts where a turn starts. */
  predicate StartsTurn(items: seq<SessionItem>, lo: nat) {
    lo <= |items| && (0 < lo < |items| ==> items[lo - 1].base.turn != items[lo].base.turn)
  }

  /** The page is the stretch `lo..n` of complete turns just below `before`, as many as the limit allows. */
  predicate IsPage(items: seq<SessionItem>, before: Option<nat>, limit: nat, page: TurnPage, lo: nat, n: nat) {
    && VisiblePrefix(items, before, n)
    && lo <= n
    && (lo == n ==> n == 0)
    && StartsTurn(items, lo)
    && page.items == items[lo..n]
    && page.oldestTurn == (if n == 0 then None else Some(items[lo].base.turn))
    && (page.hasOlder <==> lo > 0)
    && |TurnsOf(page.items)| ==
       if |TurnsOf(items[..n])| < limit then |TurnsOf(items[..n])| else limit
  }

  /** The items of turns from `oldest` on that are visible. */
  function Select(items: seq<SessionItem>, oldest: nat, before: Option<nat>): seq<SessionItem> {
    if items == [] then []
    else
      var last := items[|items| - 1];
      Select(items[..|items| - 1], oldest, before) +
      if last.base.turn >= oldest && Visible(last, before) then [last] else []
  }

  /** What the selection of `items[lo..n]` rests on, up to item `k`. */
  predicate SelectsFrom(items: seq<SessionItem>, oldest: nat, before: Option<nat>, lo: nat, n: nat, k: nat) {
    && lo <= n && k <= |items|
    && forall i :: 0 <= i < k ==> (items[i].base.turn >= oldest && Visible(items[i], before) <==> lo <= i < n)
  }

  lemma SelectStep(items: seq<SessionItem>, oldest: nat, before: Option<nat>, k: nat)
    requires k < |items|
    ensures Select(items[..k + 1], oldest, before) ==
            Select(items[..k], oldest, before) +
            if items[k].base.turn >= oldest && Visible(items[k], before) then [items[k]] else []
  {
    assert items[..k + 1][..k] == items[..k];
  }

  lemma SliceStep(items: seq<SessionItem>, lo: nat, n: nat, k: nat)
    requires lo <= n <= |items| && k < |items|
    ensures items[Least(lo, k + 1)..Least(n, k + 1)] ==
            items[Least(lo, k)..Least(n, k)] + if lo <= k < n then [items[k]] else []
  {
  }

  lemma {:induction false} SelectIsSlice(items: seq<SessionItem>, oldest: nat, before: Option<nat>, lo: nat, n: nat, k: nat)
    requires SelectsFrom(items, oldest, before, lo, n, k) && n <= |items|
    ensures Select(items[..k], oldest, before) == items[Least(lo, k)..Least(n, k)]
    decreases k
  {
    if k > 0 {
      SelectIsSlice(items, oldest, before, lo, n, k - 1);
      SelectStep(items, oldest, before, k - 1);
      SliceStep(items, lo, n, k - 1);
    }
  }

  predicate Decreasing(turns: seq<nat>) {
    forall i, j :: 0 <= i < j < |turns| ==> turns[i] > turns[j]
  }

  function Elements(turns: seq<nat>): set<nat> {
    set i | 0 <= i < |turns| :: turns[i]
  }

  lemma {:induction false} DecreasingIsDistinct(turns: seq<nat>)
    requires Decreasing(turns)
    ensures |Elements(turns)| == |turns|
    decreases |turns|
  {
    if turns == [] {
      assert Elements(turns) == {};
    } else {
      var front, last := turns[..|turns| - 1], turns[|turns| - 1];
      DecreasingIsDistinct(front);
      assert Elements(turns) == Elements(front) + {last};
      assert last !in Elements(front);
    }
  }

  /** The visible items of a log with non-decreasing turns are a prefix of it. */
  lemma {:induction false} VisibleIsPrefix(items: seq<SessionItem>, before: Option<nat>) returns (n: nat)
    requires TurnMonotone(items)
    ensures VisiblePrefix(items, before, n)
    decreases |items|
  {
    n := |items|;
    if items != [] && !Visible(items[|items| - 1], before) {
      n := VisibleIsPrefix(items[..|items| - 1], before);
    } else {
      forall i | 0 <= i < |items| ensures Visible(items[i], before) {
        assert items[i].base.turn <= items[|items| - 1].base.turn;
      }
    }
  }

  /** The turns selected so far are those of the visible items from `i` on. */
  predicate SelectedFrom(items: seq<SessionItem>, i: nat, n: nat, turns: seq<nat>) {
    && i <= |items| && n <= |items|
    && Decreasing(turns)
    && (forall j :: i <= j < n ==> items[j].base.turn in turns)
    && (forall k :: 0 <= k < |turns| ==> exists j :: i <= j < n && items[j].base.turn == turns[k])
    && (turns != [] ==> i < n && turns[|turns| - 1] == items[i].base.turn)
    && (turns == [] ==> n <= i)
  }

  method SelectTurns(items: seq<SessionItem>, before: Option<nat>, limit: nat, ghost n: nat)
    returns (turns: seq<nat>, ghost from: nat)
    requires TurnMonotone(items) && VisiblePrefix(items, before, n) && limit > 0
    ensures SelectedFrom(items, from, n, turns) && |turns| <= limit && (|turns| < limit ==> from == 0)
  {
    turns := [];
    var i := |items|;
    while i > 0
      invariant 0 <= i <= |items|
      invariant SelectedFrom(items, i, n, turns)
      invariant |turns| < limit
    {
      i := i - 1;
      var turn := items[i].base.turn;
      if !Visible(items[i], before) || (turns != [] && turns[|turns| - 1] == turn) {
        continue;
      }
      assert SelectedFrom(items, i, n, turns + [turn]) by {
        SelectOneMore(items, i, n, turns);
      }
      turns := turns + [turn];
      if |turns| == limit {
        from := i;
        return;
      }
    }
    from := 0;
  }

  lemma SelectOneMore(items: seq<SessionItem>, i: nat, n: nat, turns: seq<nat>)
    requires TurnMonotone(items) && i < n <= |items|
    requires SelectedFrom(items, i + 1, n, turns)
    requires turns == [] || turns[|turns| - 1] != items[i].base.turn
    ensures SelectedFrom(items, i, n, turns + [items[i].base.turn])
  {
    var more := turns + [items[i].base.turn];
    forall k | 0 <= k < |turns| ensures turns[k] > items[i].base.turn {
      assert items[i].base.turn <= items[i + 1].base.turn;
      assert turns[k] >= turns[|turns| - 1];
    }
    forall k | 0 <= k < |more| ensures exists j :: i <= j < n && items[j].base.turn == more[k] {
      if k < |turns| {
        var j :| i + 1 <= j < n && items[j].base.turn == turns[k];
        assert items[j].base.turn == more[k];
      } else {
        assert items[i].base.turn == more[k];
      }
    }
    forall j | i <= j < n ensures items[j].base.turn in more {
      if j > i { assert items[j].base.turn in turns; } else { assert more[|turns|] == items[i].base.turn; }
    }
  }

  /** Where the oldest selected turn begins. */
  lemma {:induction false} TurnBegins(items: seq<SessionItem>, from: nat) returns (lo: nat)
    requires TurnMonotone(items) && from < |items|
    ensures lo <= from && items[lo].base.turn == items[from].base.turn && StartsTurn(items, lo)
    ensures forall i :: 0 <= i < |items| ==> (items[i].base.turn >= items[from].base.turn <==> i >= lo)
    decreases from
  {
    if from == 0 || items[from - 1].base.turn != items[from].base.turn {
      lo := from;
      forall i | 0 <= i < |items| ensures items[i].base.turn >= items[from].base.turn <==> i >= lo {
        if i < lo { assert items[i].base.turn <= items[from - 1].base.turn <= items[from].base.turn; }
        else { assert items[lo].base.turn <= items[i].base.turn; }
      }
    } else {
      lo := TurnBegins(items, from - 1);
    }
  }

  /** A page of complete turns; the log must come from a load, so its turns do not decrease. */
  method PageBackwards(items: seq<SessionItem>, before: Option<nat>, limit: nat)
    returns (r: Result<TurnPage, PageError>, ghost lo: nat, ghost n: nat)
    requires TurnMonotone(items)
    ensures r.Err? <==> limit == 0
    ensures r.Ok? ==> IsPage(items, before, limit, r.value, lo, n)
  {
    lo := 0;
    n := VisibleIsPrefix(items, before);
    if limit == 0 {
      return Err(ZeroLimit), lo, n;
    }
    var turns;
    ghost var from;
    turns, from := SelectTurns(items, before, limit, n);
    if turns == [] {
      assert TurnsOf(items[..n]) == {} && TurnsOf([]) == {};
      return Ok(TurnPage([], None, false)), 0, n;
    }
    var oldest := turns[|turns| - 1];
    lo := TurnBegins(items, from);
    assert items[..|items|] == items;
    SelectIsSlice(items, oldest, before, lo, n, |items|);
    var page := TurnPage(Select(items, oldest, before), Some(oldest), exists i :: 0 <= i < |items| && items[i].base.turn < oldest);
    OlderIff(items, oldest, lo);
    PageTurns(items, limit, turns, from, lo, n);
    r := Ok(page);
  }

  lemma OlderIff(items: seq<SessionItem>, oldest: nat, lo: nat)
    requires lo < |items| && forall i :: 0 <= i < |items| ==> (items[i].base.turn >= oldest <==> i >= lo)
    ensures (exists i :: 0 <= i < |items| && items[i].base.turn < oldest) <==> lo > 0
  {
    if lo > 0 { assert items[0].base.turn < oldest; }
  }

  lemma PageHoldsSelected(items: seq<SessionItem>, turns: seq<nat>, from: nat, lo: nat, n: nat)
    requires TurnMonotone(items) && SelectedFrom(items, from, n, turns) && turns != []
    requires lo <= from && items[lo].base.turn == items[from].base.turn
    ensures TurnsOf(items[lo..n]) == Elements(turns)
  {
    var page := items[lo..n];
    forall t | t in TurnsOf(page) ensures t in Elements(turns) {
      var j :| 0 <= j < |page| && page[j].base.turn == t;
      if lo + j < from {
        assert items[lo].base.turn <= items[lo + j].base.turn <= items[from].base.turn;
        assert t == turns[|turns| - 1];
      } else {
        assert items[lo + j].base.turn in turns;
      }
    }
    forall t | t in Elements(turns) ensures t in TurnsOf(page) {
      var k :| 0 <= k < |turns| && turns[k] == t;
      var j :| from <= j < n && items[j].base.turn == turns[k];
      assert page[j - lo].base.turn == t;
    }
  }

  lemma TurnsOfSlice(items: seq<SessionItem>, lo: nat, n: nat)
    requires lo <= n <= |items|
    ensures TurnsOf(items[lo..n]) <= TurnsOf(items[..n])
  {
    var page, all := items[lo..n], items[..n];
    forall j | 0 <= j < |page| ensures page[j].base.turn in TurnsOf(all) {
      assert all[lo + j] == page[j];
    }
  }

  /** The page holds exactly the selected turns. */
  lemma PageTurns(items: seq<SessionItem>, limit: nat, turns: seq<nat>, from: nat, lo: nat, n: nat)
    requires TurnMonotone(items) && SelectedFrom(items, from, n, turns) && turns != []
    requires |turns| <= limit && (|turns| < limit ==> from == 0)
    requires lo <= from && items[lo].base.turn == items[from].base.turn
    ensures |TurnsOf(items[lo..n])| == if |TurnsOf(items[..n])| < limit then |TurnsOf(items[..n])| else limit
  {
    DecreasingIsDistinct(turns);
    PageHoldsSelected(items, turns, from, lo, n);
    TurnsOfSlice(items, lo, n);
    SubsetCardinality(TurnsOf(items[lo..n]), TurnsOf(items[..n]));
    if |turns| < limit {
      assert items[lo..n] == items[..n];
    }
  }

  lemma SubsetCardinality(a: set<nat>, b: set<nat>)
    requires a <= b
    ensures |a| <= |b|
  {
    assert |b| == |a| + |b - a| by { assert b == a + (b - a); }
  }

  /** The pages from the newest back, put in order. */
  function Joined(pages: seq<seq<SessionItem>>): seq<SessionItem> {
    if pages == [] then [] else pages[|pages| - 1] + Joined(pages[..|pages| - 1])
  }

  lemma JoinedSnoc(pages: seq<seq<SessionItem>>, last: seq<SessionItem>)
    ensures Joined(pages + [last]) == last + Joined(pages)
  {
    assert (pages + [last])[..|pages|] == pages;
  }

  /** All of `older` belongs to earlier turns than all of `newer`. */
  predicate Unsplit(newer: seq<SessionItem>, older: seq<SessionItem>) {
    forall i, j :: 0 <= i < |newer| && 0 <= j < |older| ==> older[j].base.turn < newer[i].base.turn
  }

  lemma VisiblePrefixIsUnique(items: seq<SessionItem>, before: Option<nat>, a: nat, b: nat)
    requires VisiblePrefix(items, before, a) && VisiblePrefix(items, before, b)
    ensures a == b
  {
    var atA := a < |items| && Visible(items[a], before);
    var atB := b < |items| && Visible(items[b], before);
  }

  /** Below the first item of a turn are exactly the earlier turns. */
  lemma BelowTurn(items: seq<SessionItem>, lo: nat, n: nat)
    requires TurnMonotone(items) && lo < n <= |items| && StartsTurn(items, lo)
    ensures VisiblePrefix(items, Some(items[lo].base.turn), lo)
    ensures Unsplit(items[lo..n], items[..lo])
  {
    forall i | 0 <= i < lo ensures items[i].base.turn < items[lo].base.turn {
      assert items[i].base.turn <= items[lo - 1].base.turn <= items[lo].base.turn;
    }
    forall i | lo <= i < |items| ensures items[lo].base.turn <= items[i].base.turn {
    }
  }

  /** The pages read so far, newest first, of which `left` older items remain. */
  predicate ReadSoFar(items: seq<SessionItem>, limit: nat, pages: seq<seq<SessionItem>>, left: nat) {
    && left <= |items|
    && Joined(pages) == items[left..]
    && (forall k :: 0 <= k < |pages| - 1 ==> |TurnsOf(pages[k])| == limit && Unsplit(pages[k], pages[k + 1]))
    && (pages != [] ==>
          && |TurnsOf(pages[|pages| - 1])| <= limit
          && (left > 0 ==> |TurnsOf(pages[|pages| - 1])| == limit)
          && Unsplit(pages[|pages| - 1], items[..left]))
  }

  lemma ReadOneMore(items: seq<SessionItem>, limit: nat, pages: seq<seq<SessionItem>>, before: Option<nat>, page: TurnPage,
                    lo: nat, left: nat)
    requires TurnMonotone(items) && ReadSoFar(items, limit, pages, left) && IsPage(items, before, limit, page, lo, left)
    requires pages != [] ==> left > 0
    ensures ReadSoFar(items, limit, pages + [page.items], lo)
  {
    var more := pages + [page.items];
    JoinedSnoc(pages, page.items);
    assert items[lo..] == items[lo..left] + items[left..];
    if lo < left { BelowTurn(items, lo, left); }
    if pages != [] {
      assert Unsplit(pages[|pages| - 1], page.items) by {
        assert forall j :: 0 <= j < |page.items| ==> page.items[j] == items[..left][lo + j];
      }
    }
    forall k | 0 <= k < |more| - 1 ensures |TurnsOf(more[k])| == limit && Unsplit(more[k], more[k + 1]) {
      if k < |pages| - 1 { assert more[k] == pages[k] && more[k + 1] == pages[k + 1]; }
    }
    if lo > 0 {
      FullPage(items, before, limit, page, lo, left);
    }
  }

  /** Only a full page leaves something older behind. */
  lemma FullPage(items: seq<SessionItem>, before: Option<nat>, limit: nat, page: TurnPage, lo: nat, n: nat)
    requires TurnMonotone(items) && IsPage(items, before, limit, page, lo, n) && lo > 0
    ensures |TurnsOf(page.items)| == limit
  {
    BelowTurn(items, lo, n);
    TurnsOfSlice(items, lo, n);
    var all, t := TurnsOf(items[..n]), items[0].base.turn;
    assert items[..n][0].base.turn in all;
    assert t !in TurnsOf(page.items) by {
      assert items[..lo][0].base.turn == t;
    }
    SubsetCardinality(TurnsOf(page.items), all - {t});
  }

  /** Following `oldest_turn` until there is nothing older ends, and reads every item once, no turn split. */
  method ReadBackwards(items: seq<SessionItem>, limit: nat) returns (pages: seq<seq<SessionItem>>)
    requires TurnMonotone(items) && limit > 0
    ensures Joined(pages) == items
    ensures forall k :: 0 <= k < |pages| - 1 ==> |TurnsOf(pages[k])| == limit && Unsplit(pages[k], pages[k + 1])
    ensures pages != [] && |TurnsOf(pages[|pages| - 1])| <= limit
  {
    pages := [];
    var before: Option<nat> := None;
    var more := true;
    ghost var left: nat := |items|;
    while more
      invariant more ==> VisiblePrefix(items, before, left)
      invariant ReadSoFar(items, limit, pages, left)
      invariant pages != [] ==> (more <==> left > 0)
      invariant pages == [] ==> more
      decreases more, left
    {
      var r;
      ghost var lo, n;
      r, lo, n := PageBackwards(items, before, limit);
      var page := r.value;
      VisiblePrefixIsUnique(items, before, n, left);
      ReadOneMore(items, limit, pages, before, page, lo, left);
      pages := pages + [page.items];
      more := page.hasOlder;
      if more {
        BelowTurn(items, lo, left);
        before := page.oldestTurn;
      }
      left := lo;
    }
    assert items[0..] == items;
  }
}
