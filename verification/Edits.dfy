/** Several replacements in one text, all matched against the original. */
module Edits {
  import opened Protocol

  datatype Edit = Edit(oldString: string, newString: string)

  datatype EditError = EmptyOldString(index: nat) | NotFound(index: nat) | Ambiguous(index: nat) | Overlap

  datatype Range = Range(start: nat, end: nat, text: string)

  predicate OccursAt(s: string, p: string, i: nat) {
    i + |p| <= |s| && s[i..i + |p|] == p
  }

  /** The leftmost scan for occurrences that do not overlap. */
  function Matches(s: string, p: string, from: nat): seq<nat>
    requires p != [] && from <= |s|
    decreases |s| - from
  {
    if |s| - from < |p| then []
    else if OccursAt(s, p, from) then [from] + Matches(s, p, from + |p|)
    else Matches(s, p, from + 1)
  }

  ghost predicate OccursOnce(s: string, p: string) {
    exists i: nat :: OccursAt(s, p, i) && forall j: nat :: OccursAt(s, p, j) ==> j == i
  }

  /** No proper prefix is also a suffix. */
  predicate Unbordered(p: string) {
    forall k :: 0 < k < |p| ==> p[k..] != p[..|p| - k]
  }

  /** A scan without a match has missed no occurrence. */
  lemma {:induction false} ScanFindsNone(s: string, p: string, from: nat)
    requires p != [] && from <= |s| && Matches(s, p, from) == []
    ensures forall j: nat :: OccursAt(s, p, j) ==> j < from
    decreases |s| - from
  {
    if |s| - from >= |p| {
      ScanFindsNone(s, p, from + 1);
      assert !OccursAt(s, p, from);
    }
  }

  /** The first match is the first occurrence, and the scan goes on behind it. */
  lemma {:induction false} ScanFindsFirst(s: string, p: string, from: nat) returns (i: nat)
    requires p != [] && from <= |s| && Matches(s, p, from) != []
    ensures from <= i && OccursAt(s, p, i) && forall j: nat :: from <= j < i ==> !OccursAt(s, p, j)
    ensures Matches(s, p, from) == [i] + Matches(s, p, i + |p|)
    decreases |s| - from
  {
    if OccursAt(s, p, from) {
      i := from;
    } else {
      i := ScanFindsFirst(s, p, from + 1);
    }
  }

  lemma ScannedOnceCovers(s: string, p: string, i: nat)
    requires p != [] && Matches(s, p, 0) == [i]
    ensures OccursAt(s, p, i) && forall j: nat :: OccursAt(s, p, j) ==> i <= j < i + |p|
  {
    var first := ScanFindsFirst(s, p, 0);
    HeadAndRest(i, first, Matches(s, p, first + |p|));
    ScanFindsNone(s, p, i + |p|);
  }

  lemma HeadAndRest(i: nat, head: nat, rest: seq<nat>)
    requires [i] == [head] + rest
    ensures i == head && rest == []
  {
    assert ([head] + rest)[0] == head && |[head] + rest| == 1 + |rest|;
  }

  lemma CoveredIsScannedOnce(s: string, p: string, i: nat)
    requires p != [] && OccursAt(s, p, i) && forall j: nat :: OccursAt(s, p, j) ==> i <= j < i + |p|
    ensures Matches(s, p, 0) == [i]
  {
    if Matches(s, p, 0) == [] { ScanFindsNone(s, p, 0); }
    var first := ScanFindsFirst(s, p, 0);
    assert first == i;
    if Matches(s, p, i + |p|) != [] {
      var later := ScanFindsFirst(s, p, i + |p|);
    }
    assert [i] + [] == [i];
  }

  /** The scan reports one match exactly when every occurrence starts inside the first one. */
  lemma ScanOnceIff(s: string, p: string, i: nat)
    requires p != []
    ensures Matches(s, p, 0) == [i] <==>
            OccursAt(s, p, i) && forall j: nat :: OccursAt(s, p, j) ==> i <= j < i + |p|
  {
    if Matches(s, p, 0) == [i] { ScannedOnceCovers(s, p, i); }
    if OccursAt(s, p, i) && forall j: nat :: OccursAt(s, p, j) ==> i <= j < i + |p| { CoveredIsScannedOnce(s, p, i); }
  }

  lemma OccursOnceIsScannedOnce(s: string, p: string)
    requires p != [] && OccursOnce(s, p)
    ensures |Matches(s, p, 0)| == 1
  {
    var i: nat :| OccursAt(s, p, i) && forall j: nat :: OccursAt(s, p, j) ==> j == i;
    ScanOnceIff(s, p, i);
  }

  /** The scan sees one match in "aaa" although the pattern occurs twice. */
  lemma ScannedOnceMayOccurTwice()
    ensures Matches("aaa", "aa", 0) == [0] && !OccursOnce("aaa", "aa")
  {
    assert OccursAt("aaa", "aa", 0) && OccursAt("aaa", "aa", 1);
    assert Matches("aaa", "aa", 2) == [];
  }

  lemma OverlapMakesBorder(s: string, p: string, i: nat, j: nat)
    requires OccursAt(s, p, i) && OccursAt(s, p, j) && i < j < i + |p|
    ensures !Unbordered(p)
  {
    var k := j - i;
    assert p[k..] == s[j..i + |p|] && p[..|p| - k] == s[j..i + |p|];
  }

  lemma BorderMakesOverlap(p: string, k: nat)
    requires 0 < k < |p| && p[k..] == p[..|p| - k]
    ensures Matches(p[..k] + p, p, 0) == [0] && OccursAt(p[..k] + p, p, k)
  {
    var s := p[..k] + p;
    assert s[..|p|] == p[..k] + p[..|p| - k] == p[..k] + p[k..] == p;
    assert s[k..k + |p|] == p;
    assert OccursAt(s, p, 0);
  }

  lemma UnborderedScanCounts(s: string, p: string)
    requires p != [] && Unbordered(p)
    ensures |Matches(s, p, 0)| == 1 <==> OccursOnce(s, p)
  {
    if |Matches(s, p, 0)| == 1 {
      var i := Matches(s, p, 0)[0];
      ScanOnceIff(s, p, i);
      forall j: nat | OccursAt(s, p, j) ensures j == i {
        if j != i { OverlapMakesBorder(s, p, i, j); }
      }
    } else if OccursOnce(s, p) {
      OccursOnceIsScannedOnce(s, p);
    }
  }

  lemma BorderedScanMiscounts(p: string) returns (s: string)
    requires p != [] && !Unbordered(p)
    ensures |Matches(s, p, 0)| == 1 && !OccursOnce(s, p)
  {
    var k :| 0 < k < |p| && p[k..] == p[..|p| - k];
    BorderMakesOverlap(p, k);
    s := p[..k] + p;
    ScanOnceIff(s, p, 0);
  }

  /** One scanned match means one occurrence, in every text, exactly for patterns that cannot overlap themselves. */
  lemma ScanCountsOccurrencesIff(p: string)
    requires p != []
    ensures Unbordered(p) <==> forall s: string :: |Matches(s, p, 0)| == 1 <==> OccursOnce(s, p)
  {
    if Unbordered(p) {
      forall s: string ensures |Matches(s, p, 0)| == 1 <==> OccursOnce(s, p) {
        UnborderedScanCounts(s, p);
      }
    } else {
      var s := BorderedScanMiscounts(p);
    }
  }

  /** The scan finds the edit's text once. */
  predicate Locatable(original: string, edit: Edit) {
    edit.oldString != [] && |Matches(original, edit.oldString, 0)| == 1
  }

  function RangeOf(original: string, edit: Edit): (r: Range)
    requires Locatable(original, edit)
    ensures OccursAt(original, edit.oldString, r.start)
    ensures r.start < r.end == r.start + |edit.oldString| <= |original| && r.text == edit.newString
  {
    var start := Matches(original, edit.oldString, 0)[0];
    ScannedOnceCovers(original, edit.oldString, start);
    Range(start, start + |edit.oldString|, edit.newString)
  }

  predicate AllLocatable(original: string, edits: seq<Edit>) {
    forall i :: 0 <= i < |edits| ==> Locatable(original, edits[i])
  }

  /** The ranges of all edits, in edit order. */
  function RangesOf(original: string, edits: seq<Edit>): (ranges: seq<Range>)
    requires AllLocatable(original, edits)
    ensures |ranges| == |edits| && forall i :: 0 <= i < |edits| ==> ranges[i] == RangeOf(original, edits[i])
    ensures InText(original, ranges)
  {
    seq(|edits|, i requires 0 <= i < |edits| => RangeOf(original, edits[i]))
  }

  function Complaint(original: string, edit: Edit, index: nat): EditError
    requires !Locatable(original, edit)
  {
    if edit.oldString == [] then EmptyOldString(index)
    else if Matches(original, edit.oldString, 0) == [] then NotFound(index)
    else Ambiguous(index)
  }

  /** What is wrong with the first edit from `i` on that cannot be located. */
  function FirstComplaint(original: string, edits: seq<Edit>, i: nat): EditError
    requires exists j :: i <= j < |edits| && !Locatable(original, edits[j])
    decreases |edits| - i
  {
    if !Locatable(original, edits[i]) then Complaint(original, edits[i], i) else FirstComplaint(original, edits, i + 1)
  }

  predicate Before(a: Range, b: Range) {
    a.end <= b.start
  }

  /** No two of the ranges share a position. */
  predicate Apart(ranges: seq<Range>) {
    forall i, j :: 0 <= i < j < |ranges| ==> Before(ranges[i], ranges[j]) || Before(ranges[j], ranges[i])
  }

  predicate InText(s: string, ranges: seq<Range>) {
    forall i :: 0 <= i < |ranges| ==> ranges[i].start < ranges[i].end <= |s|
  }

  /** Ranges in the text that share no position; they may touch. */
  ghost predicate ApartSet(s: string, R: set<Range>) {
    && (forall r :: r in R ==> r.start < r.end <= |s|)
    && (forall a, b :: a in R && b in R && a != b ==> Before(a, b) || Before(b, a))
  }

  function Elements(ranges: seq<Range>): set<Range> {
    set i | 0 <= i < |ranges| :: ranges[i]
  }

  /**
   * What all replacements at once make of `s[i..j]`: at the start of a range its text is written and the range
   * is stepped over, every other character is copied. The ranges are a set, so their order plays no part.
   */
  ghost function Substituted(s: string, R: set<Range>, i: nat, j: nat): string
    requires i <= j <= |s|
    decreases j - i
  {
    if i == j then []
    else if exists r :: StartsAt(R, i, j, r) then
      var r :| StartsAt(R, i, j, r);
      r.text + Substituted(s, R, r.end, j)
    else
      [s[i]] + Substituted(s, R, i + 1, j)
  }

  ghost predicate StartsAt(R: set<Range>, i: nat, j: nat, r: Range) {
    r in R && r.start == i && i < r.end <= j
  }

  /** No range of `R` has `m` strictly inside. */
  ghost predicate Boundary(R: set<Range>, m: nat) {
    forall r :: r in R ==> m <= r.start || r.end <= m
  }

  /** One step of the replacement at the start of a range. */
  lemma SubstitutedAtRange(s: string, R: set<Range>, i: nat, j: nat, r: Range)
    requires ApartSet(s, R) && i <= j <= |s| && StartsAt(R, i, j, r)
    ensures Substituted(s, R, i, j) == r.text + Substituted(s, R, r.end, j)
  {
    forall q | StartsAt(R, i, j, q) ensures q == r { OneRangeStarts(s, R, i, j, q, r); }
  }

  lemma OneRangeStarts(s: string, R: set<Range>, i: nat, j: nat, q: Range, r: Range)
    requires ApartSet(s, R) && StartsAt(R, i, j, q) && StartsAt(R, i, j, r)
    ensures q == r
  {
  }

  /** One step of the replacement elsewhere. */
  lemma SubstitutedCopies(s: string, R: set<Range>, i: nat, j: nat)
    requires i < j <= |s| && forall r :: !StartsAt(R, i, j, r)
    ensures Substituted(s, R, i, j) == [s[i]] + Substituted(s, R, i + 1, j)
  {
  }

  /** The replacement splits at every position that is not inside a range. */
  lemma {:induction false} SubstitutedSplits(s: string, R: set<Range>, i: nat, m: nat, j: nat)
    requires ApartSet(s, R) && i <= m <= j <= |s| && Boundary(R, m)
    ensures Substituted(s, R, i, j) == Substituted(s, R, i, m) + Substituted(s, R, m, j)
    decreases m - i
  {
    if i < m {
      if r :| StartsAt(R, i, j, r) {
        SubstitutedAtRange(s, R, i, j, r);
        SubstitutedAtRange(s, R, i, m, r);
        SubstitutedSplits(s, R, r.end, m, j);
        Regroup(r.text, Substituted(s, R, r.end, m), Substituted(s, R, m, j));
      } else {
        SubstitutedCopies(s, R, i, j);
        forall r | StartsAt(R, i, m, r) ensures false { assert StartsAt(R, i, j, r); }
        SubstitutedCopies(s, R, i, m);
        SubstitutedSplits(s, R, i + 1, m, j);
        Regroup([s[i]], Substituted(s, R, i + 1, m), Substituted(s, R, m, j));
      }
    }
  }

  /** Text that no range meets is kept as it is. */
  lemma {:induction false} SubstitutedKeeps(s: string, R: set<Range>, i: nat, j: nat)
    requires i <= j <= |s| && forall r :: r in R && r.start < r.end ==> r.end <= i || j <= r.start
    ensures Substituted(s, R, i, j) == s[i..j]
    decreases j - i
  {
    if i < j {
      assert forall r :: !StartsAt(R, i, j, r);
      SubstitutedKeeps(s, R, i + 1, j);
    }
  }

  /** A range gives its replacement. */
  lemma SubstitutedReplaces(s: string, R: set<Range>, r: Range)
    requires ApartSet(s, R) && r in R
    ensures Substituted(s, R, r.start, r.end) == r.text
  {
    SubstitutedAtRange(s, R, r.start, r.end, r);
    assert Substituted(s, R, r.end, r.end) == [];
  }

  /** The whole of the operation, as one simultaneous replacement. */
  ghost function Outcome(original: string, edits: seq<Edit>): Result<string, EditError> {
    if !AllLocatable(original, edits) then Err(FirstComplaint(original, edits, 0))
    else if Apart(RangesOf(original, edits)) then
      Ok(Substituted(original, Elements(RangesOf(original, edits)), 0, |original|))
    else Err(Overlap)
  }

  predicate Sorted(ranges: seq<Range>) {
    forall i, j :: 0 <= i < j < |ranges| ==> ranges[i].start <= ranges[j].start
  }

  function Inserted(ranges: seq<Range>, r: Range): (sorted: seq<Range>)
    requires Sorted(ranges)
    ensures Sorted(sorted) && multiset(sorted) == multiset(ranges) + multiset{r}
    decreases |ranges|
  {
    if ranges == [] || ranges[|ranges| - 1].start <= r.start then ranges + [r]
    else
      var front, last := ranges[..|ranges| - 1], ranges[|ranges| - 1];
      assert ranges == front + [last];
      var sorted := Inserted(front, r);
      LastStaysLast(front, r, sorted, last);
      sorted + [last]
  }

  lemma LastStaysLast(front: seq<Range>, r: Range, sorted: seq<Range>, last: Range)
    requires Sorted(sorted) && multiset(sorted) == multiset(front) + multiset{r}
    requires r.start <= last.start && forall i :: 0 <= i < |front| ==> front[i].start <= last.start
    ensures Sorted(sorted + [last])
  {
    forall i | 0 <= i < |sorted| ensures sorted[i].start <= last.start {
      assert sorted[i] in multiset(sorted);
      assert sorted[i] == r || sorted[i] in multiset(front);
    }
  }

  /** A stable sort by start position. */
  function SortedByStart(ranges: seq<Range>): (sorted: seq<Range>)
    ensures Sorted(sorted) && multiset(sorted) == multiset(ranges)
    decreases |ranges|
  {
    if ranges == [] then []
    else
      assert ranges == ranges[..|ranges| - 1] + [ranges[|ranges| - 1]];
      Inserted(SortedByStart(ranges[..|ranges| - 1]), ranges[|ranges| - 1])
  }

  /** No range reaches past the start of the next. */
  predicate Adjacent(ranges: seq<Range>) {
    forall i :: 0 <= i < |ranges| - 1 ==> Before(ranges[i], ranges[i + 1])
  }

  predicate InOrder(ranges: seq<Range>) {
    forall i, j :: 0 <= i < j < |ranges| ==> Before(ranges[i], ranges[j])
  }

  /** For sorted ranges, comparing neighbours finds every overlap. */
  lemma {:induction false} NeighboursSuffice(s: string, ranges: seq<Range>)
    requires Sorted(ranges) && InText(s, ranges)
    ensures Adjacent(ranges) <==> InOrder(ranges)
    ensures Adjacent(ranges) <==> Apart(ranges)
    decreases |ranges|
  {
    if ranges != [] {
      var front := ranges[..|ranges| - 1];
      NeighboursSuffice(s, front);
      if Adjacent(ranges) {
        assert Adjacent(front);
        forall i, j | 0 <= i < j < |ranges| ensures Before(ranges[i], ranges[j]) {
          if j == |ranges| - 1 && i < j - 1 {
            assert Before(front[i], front[j - 1]) && Before(ranges[j - 1], ranges[j]);
          } else if j < |ranges| - 1 {
            assert Before(front[i], front[j]);
          }
        }
      }
      if Apart(ranges) {
        forall i | 0 <= i < |ranges| - 1 ensures Before(ranges[i], ranges[i + 1]) {}
      }
    }
  }

  lemma {:induction false} OccursTwice<T>(a: seq<T>, x: T) returns (i: nat, j: nat)
    requires multiset(a)[x] >= 2
    ensures i < j < |a| && a[i] == x && a[j] == x
    decreases |a|
  {
    var front := a[..|a| - 1];
    assert a == front + [a[|a| - 1]];
    if multiset(front)[x] >= 2 {
      i, j := OccursTwice(front, x);
    } else {
      assert x in multiset(front);
      i :| 0 <= i < |front| && front[i] == x;
      j := |a| - 1;
    }
  }

  lemma TwiceCounts<T>(a: seq<T>, i: nat, j: nat)
    requires i < j < |a| && a[i] == a[j]
    ensures multiset(a)[a[i]] >= 2
  {
    assert a == a[..j] + a[j..];
    assert a[..j][i] == a[i] && a[j..][0] == a[i];
    assert a[i] in multiset(a[..j]) && a[i] in multiset(a[j..]);
  }

  lemma ApartUnderPermutation(s: string, a: seq<Range>, b: seq<Range>)
    requires multiset(a) == multiset(b) && InText(s, a) && Apart(a)
    ensures Apart(b)
  {
    forall i, j | 0 <= i < j < |b| ensures Before(b[i], b[j]) || Before(b[j], b[i]) {
      assert b[i] in multiset(a) && b[j] in multiset(a);
      if b[i] == b[j] {
        TwiceCounts(b, i, j);
        var k, l := OccursTwice(a, b[i]);
      } else {
        var k :| 0 <= k < |a| && a[k] == b[i];
        var l :| 0 <= l < |a| && a[l] == b[j];
      }
    }
  }

  lemma SameElements(s: string, a: seq<Range>, b: seq<Range>)
    requires multiset(a) == multiset(b)
    ensures Elements(a) == Elements(b)
    ensures InText(s, a) ==> InText(s, b)
  {
    forall i | 0 <= i < |a| ensures a[i] in Elements(b) {
      assert a[i] in multiset(b);
    }
    forall i | 0 <= i < |b| ensures b[i] in Elements(a) {
      assert b[i] in multiset(a);
      var k :| 0 <= k < |a| && a[k] == b[i];
    }
  }

  lemma Without<T>(a: seq<T>, k: nat)
    requires k < |a|
    ensures multiset(a) == multiset(a[..k] + a[k + 1..]) + multiset{a[k]}
  {
    assert a == a[..k] + [a[k]] + a[k + 1..];
  }

  lemma SameLocatable(original: string, a: seq<Edit>, b: seq<Edit>)
    requires multiset(a) == multiset(b) && AllLocatable(original, a)
    ensures AllLocatable(original, b)
  {
    forall i | 0 <= i < |b| ensures Locatable(original, b[i]) {
      assert b[i] in multiset(a);
    }
  }

  /** The ranges of a permuted edit list are the permuted ranges. */
  lemma {:induction false} RangesPermute(original: string, a: seq<Edit>, b: seq<Edit>)
    requires multiset(a) == multiset(b) && AllLocatable(original, a) && AllLocatable(original, b)
    ensures multiset(RangesOf(original, a)) == multiset(RangesOf(original, b))
    decreases |a|
  {
    if a == [] {
      assert |multiset(b)| == 0;
    } else {
      var front, rest, k := Matched(a, b);
      RangesWithout(original, b, rest, k);
      RangesWithout(original, a, front, |a| - 1);
      RangesPermute(original, front, rest);
    }
  }

  /** Takes the last of `a` out of both lists. */
  lemma Matched<T>(a: seq<T>, b: seq<T>) returns (front: seq<T>, rest: seq<T>, k: nat)
    requires multiset(a) == multiset(b) && a != []
    ensures k < |b| && b[k] == a[|a| - 1]
    ensures front == a[..|a| - 1] + a[|a| - 1 + 1..] && |front| < |a|
    ensures rest == b[..k] + b[k + 1..] && multiset(front) == multiset(rest)
  {
    var last := |a| - 1;
    assert a[last] in multiset(b);
    k :| 0 <= k < |b| && b[k] == a[last];
    front, rest := a[..last] + a[last + 1..], b[..k] + b[k + 1..];
    Without(b, k);
    Without(a, last);
    assert multiset(front) == multiset(a) - multiset{a[last]};
  }

  lemma RangesWithout(original: string, edits: seq<Edit>, rest: seq<Edit>, k: nat)
    requires AllLocatable(original, edits) && k < |edits| && rest == edits[..k] + edits[k + 1..]
    ensures AllLocatable(original, rest)
    ensures multiset(RangesOf(original, edits)) == multiset(RangesOf(original, rest)) + multiset{RangeOf(original, edits[k])}
  {
    var rs := RangesOf(original, edits);
    assert RangesOf(original, rest) == rs[..k] + rs[k + 1..];
    Without(rs, k);
  }

  /** The order in which accepted edits are listed plays no part. */
  lemma OrderPlaysNoPart(original: string, a: seq<Edit>, b: seq<Edit>)
    requires multiset(a) == multiset(b)
    ensures Outcome(original, a).Ok? <==> Outcome(original, b).Ok?
    ensures Outcome(original, a).Ok? ==> Outcome(original, a) == Outcome(original, b)
  {
    if Outcome(original, a).Ok? { PermutedOutcome(original, a, b); }
    if Outcome(original, b).Ok? { PermutedOutcome(original, b, a); }
  }

  lemma PermutedOutcome(original: string, a: seq<Edit>, b: seq<Edit>)
    requires multiset(a) == multiset(b) && Outcome(original, a).Ok?
    ensures Outcome(original, a) == Outcome(original, b)
  {
    SameLocatable(original, a, b);
    RangesPermute(original, a, b);
    ApartUnderPermutation(original, RangesOf(original, a), RangesOf(original, b));
    SameElements(original, RangesOf(original, a), RangesOf(original, b));
  }

  lemma SelfRanges(original: string, edits: seq<Edit>, r: Range)
    requires AllLocatable(original, edits) && r in Elements(RangesOf(original, edits))
    requires forall i :: 0 <= i < |edits| ==> edits[i].newString == edits[i].oldString
    ensures r.text == original[r.start..r.end]
  {
    var rs := RangesOf(original, edits);
    var i :| 0 <= i < |rs| && rs[i] == r;
    assert RangeOf(original, edits[i]) == r;
  }

  lemma AcceptedAreApart(original: string, edits: seq<Edit>)
    requires Outcome(original, edits).Ok?
    ensures ApartSet(original, Elements(RangesOf(original, edits)))
  {
  }

  /** Replacing every text by itself changes nothing. */
  lemma SelfReplacementKeepsText(original: string, edits: seq<Edit>)
    requires Outcome(original, edits).Ok? && forall i :: 0 <= i < |edits| ==> edits[i].newString == edits[i].oldString
    ensures Outcome(original, edits) == Ok(original)
  {
    var R := Elements(RangesOf(original, edits));
    forall r | r in R ensures r.text == original[r.start..r.end] { SelfRanges(original, edits, r); }
    AcceptedAreApart(original, edits);
    SelfSubstituted(original, R, 0, |original|);
    assert original[0..|original|] == original;
  }

  lemma SliceSplits(s: string, i: nat, m: nat, j: nat)
    requires i <= m <= j <= |s|
    ensures s[i..j] == s[i..m] + s[m..j]
    ensures i < j ==> s[i..j] == [s[i]] + s[i + 1..j]
  {
  }

  lemma {:induction false} SelfSubstituted(s: string, R: set<Range>, i: nat, j: nat)
    requires i <= j <= |s| && ApartSet(s, R) && forall r :: r in R ==> r.text == s[r.start..r.end]
    ensures Substituted(s, R, i, j) == s[i..j]
    decreases j - i
  {
    if i < j {
      if r :| StartsAt(R, i, j, r) {
        SubstitutedAtRange(s, R, i, j, r);
        SelfSubstituted(s, R, r.end, j);
        SliceSplits(s, i, r.end, j);
      } else {
        SubstitutedCopies(s, R, i, j);
        SelfSubstituted(s, R, i + 1, j);
        SliceSplits(s, i, i, j);
      }
    }
  }

  /** Writing the sorted ranges with a moving cursor makes all the replacements at once. */
  lemma RangeIsApplied(s: string, R: set<Range>, r: Range)
    requires ApartSet(s, R) && r in R
    ensures Substituted(s, R, 0, |s|) == Substituted(s, R, 0, r.start) + r.text + Substituted(s, R, r.end, |s|)
  {
    BoundariesOf(s, R, r);
    SubstitutedSplits(s, R, 0, r.start, |s|);
    SubstitutedSplits(s, R, r.start, r.end, |s|);
    SubstitutedReplaces(s, R, r);
    Regroup(Substituted(s, R, 0, r.start), r.text, Substituted(s, R, r.end, |s|));
  }

  lemma BoundariesOf(s: string, R: set<Range>, r: Range)
    requires ApartSet(s, R) && r in R
    ensures Boundary(R, r.start) && Boundary(R, r.end)
  {
  }

  lemma AcceptedRanges(original: string, edits: seq<Edit>, text: string, k: nat) returns (R: set<Range>, r: Range)
    requires k < |edits| && Outcome(original, edits) == Ok(text)
    ensures R == Elements(RangesOf(original, edits)) && ApartSet(original, R) && text == Substituted(original, R, 0, |original|)
    ensures r in R && OccursAt(original, edits[k].oldString, r.start)
    ensures r.end == r.start + |edits[k].oldString| && r.text == edits[k].newString
  {
    r := RangeOf(original, edits[k]);
    R := Elements(RangesOf(original, edits));
    AcceptedAreApart(original, edits);
    assert RangesOf(original, edits)[k] == r;
  }

  /** Every accepted edit is applied: its new text stands between what all edits make of the text before and behind its match. */
  lemma EachEditIsApplied(original: string, edits: seq<Edit>, text: string, k: nat) returns (R: set<Range>, i: nat)
    requires k < |edits| && Outcome(original, edits) == Ok(text)
    ensures R == Elements(RangesOf(original, edits))
    ensures OccursAt(original, edits[k].oldString, i) && i + |edits[k].oldString| <= |original|
    ensures text == Substituted(original, R, 0, i) + edits[k].newString +
                    Substituted(original, R, i + |edits[k].oldString|, |original|)
  {
    var r;
    R, r := AcceptedRanges(original, edits, text, k);
    i := r.start;
    RangeIsApplied(original, R, r);
  }

  lemma OneRangeReplaced(original: string, edit: Edit, r: Range)
    requires Locatable(original, edit) && r == RangeOf(original, edit)
    ensures Substituted(original, {r}, 0, |original|) == original[..r.start] + edit.newString + original[r.end..]
  {
    RangeIsApplied(original, {r}, r);
    OneRangeAround(original, edit, r);
  }

  lemma OneRangeAround(original: string, edit: Edit, r: Range)
    requires Locatable(original, edit) && r == RangeOf(original, edit)
    ensures Substituted(original, {r}, 0, r.start) == original[..r.start]
    ensures Substituted(original, {r}, r.end, |original|) == original[r.end..]
  {
    SubstitutedKeeps(original, {r}, 0, r.start);
    SubstitutedKeeps(original, {r}, r.end, |original|);
  }

  lemma OneRange(original: string, edit: Edit, r: Range)
    requires Locatable(original, edit) && r == RangeOf(original, edit)
    ensures AllLocatable(original, [edit]) && Apart(RangesOf(original, [edit])) && Elements(RangesOf(original, [edit])) == {r}
  {
    var ranges := RangesOf(original, [edit]);
    assert ranges[0] == r && ranges == [r];
  }

  /** A single edit whose text the scan finds once replaces that match and nothing else. */
  lemma OneEdit(original: string, edit: Edit) returns (i: nat)
    requires Locatable(original, edit)
    ensures OccursAt(original, edit.oldString, i)
    ensures Outcome(original, [edit]) == Ok(original[..i] + edit.newString + original[i + |edit.oldString|..])
  {
    var r := RangeOf(original, edit);
    i := r.start;
    OneRangeReplaced(original, edit, r);
    OneRange(original, edit, r);
  }

  /** What the first edit without a single match is refused for: an empty text, no occurrence, or two that do not overlap. */
  predicate RefusedFor(original: string, edit: Edit, k: nat, error: EditError) {
    match error
    case EmptyOldString(n) => n == k && edit.oldString == []
    case NotFound(n) => n == k && edit.oldString != [] && forall i: nat :: i <= |original| ==> !OccursAt(original, edit.oldString, i)
    case Ambiguous(n) =>
      && n == k && edit.oldString != []
      && exists i: nat, j: nat :: i <= |original| && j <= |original| && OccursAt(original, edit.oldString, i)
                                  && OccursAt(original, edit.oldString, j) && i + |edit.oldString| <= j
    case Overlap => false
  }

  /** An edit that is not located is refused for what is wrong with it. */
  lemma ComplaintTells(original: string, edit: Edit, k: nat)
    requires !Locatable(original, edit)
    ensures RefusedFor(original, edit, k, Complaint(original, edit, k))
  {
    var p := edit.oldString;
    if p != [] {
      if Matches(original, p, 0) == [] {
        ScanFindsNone(original, p, 0);
      } else {
        var i := ScanFindsFirst(original, p, 0);
        var j := ScanFindsFirst(original, p, i + |p|);
        assert OccursAt(original, p, i) && OccursAt(original, p, j);
      }
    }
  }

  /** The first edit that cannot be located is the one that is complained about. */
  lemma {:induction false} FirstRefused(original: string, edits: seq<Edit>, from: nat) returns (k: nat)
    requires exists j :: from <= j < |edits| && !Locatable(original, edits[j])
    ensures from <= k < |edits| && !Locatable(original, edits[k]) && forall j :: from <= j < k ==> Locatable(original, edits[j])
    ensures RefusedFor(original, edits[k], k, FirstComplaint(original, edits, from))
    decreases |edits| - from
  {
    if !Locatable(original, edits[from]) {
      k := from;
      ComplaintTells(original, edits[from], from);
    } else {
      k := FirstRefused(original, edits, from + 1);
    }
  }

  /** Why a list of edits is refused: for its first edit without a single match, or because two matches overlap. */
  lemma RefusalTells(original: string, edits: seq<Edit>) returns (k: nat)
    requires Outcome(original, edits).Err?
    ensures var error := Outcome(original, edits).error;
            if error.Overlap? then AllLocatable(original, edits) && !Apart(RangesOf(original, edits))
            else k < |edits| && RefusedFor(original, edits[k], k, error) && forall j :: 0 <= j < k ==> Locatable(original, edits[j])
  {
    k := 0;
    if !AllLocatable(original, edits) { k := FirstRefused(original, edits, 0); }
  }

  method Splice(original: string, ranges: seq<Range>) returns (text: string)
    requires InText(original, ranges) && InOrder(ranges)
    ensures text == Substituted(original, Elements(ranges), 0, |original|)
  {
    ghost var R := Elements(ranges);
    text := "";
    var cursor: nat := 0;
    for k := 0 to |ranges|
      invariant cursor == if k == 0 then 0 else ranges[k - 1].end
      invariant cursor <= |original|
      invariant text == Substituted(original, R, 0, cursor)
    {
      var r := ranges[k];
      SpliceStep(original, ranges, k, cursor);
      text := text + original[cursor..r.start];
      text := text + r.text;
      cursor := r.end;
    }
    SpliceEnd(original, ranges, cursor);
    text := text + original[cursor..];
  }

  lemma InOrderIsApart(s: string, ranges: seq<Range>)
    requires InText(s, ranges) && InOrder(ranges)
    ensures ApartSet(s, Elements(ranges))
    ensures forall k :: 0 <= k < |ranges| ==>
              Boundary(Elements(ranges), ranges[k].start) && Boundary(Elements(ranges), ranges[k].end)
  {
  }

  lemma NothingBetween(s: string, ranges: seq<Range>, k: nat, cursor: nat)
    requires InText(s, ranges) && InOrder(ranges) && k < |ranges|
    requires cursor == if k == 0 then 0 else ranges[k - 1].end
    ensures forall q :: q in Elements(ranges) ==> (q.start < q.end ==> q.end <= cursor || ranges[k].start <= q.start)
  {
    forall q | q in Elements(ranges) && q.start < q.end ensures q.end <= cursor || ranges[k].start <= q.start {
      var i :| 0 <= i < |ranges| && ranges[i] == q;
      if i < k - 1 { assert Before(ranges[i], ranges[k - 1]); }
      if i > k { assert Before(ranges[k], ranges[i]); }
    }
  }

  lemma CursorIsBoundary(s: string, ranges: seq<Range>, k: nat, cursor: nat)
    requires InText(s, ranges) && InOrder(ranges) && k < |ranges|
    requires cursor == if k == 0 then 0 else ranges[k - 1].end
    ensures cursor <= ranges[k].start && Boundary(Elements(ranges), cursor)
  {
    InOrderIsApart(s, ranges);
    assert k > 0 ==> Before(ranges[k - 1], ranges[k]);
  }

  lemma SpliceStep(s: string, ranges: seq<Range>, k: nat, cursor: nat)
    requires InText(s, ranges) && InOrder(ranges) && k < |ranges|
    requires cursor == if k == 0 then 0 else ranges[k - 1].end
    ensures cursor <= ranges[k].start
    ensures Substituted(s, Elements(ranges), 0, ranges[k].end) ==
            Substituted(s, Elements(ranges), 0, cursor) + s[cursor..ranges[k].start] + ranges[k].text
  {
    var R, r := Elements(ranges), ranges[k];
    InOrderIsApart(s, ranges);
    CursorIsBoundary(s, ranges, k, cursor);
    NothingBetween(s, ranges, k, cursor);
    SubstitutedSplits(s, R, 0, r.start, r.end);
    SubstitutedReplaces(s, R, r);
    SubstitutedSplits(s, R, 0, cursor, r.start);
    SubstitutedKeeps(s, R, cursor, r.start);
  }

  lemma SpliceEnd(s: string, ranges: seq<Range>, cursor: nat)
    requires InText(s, ranges) && InOrder(ranges)
    requires cursor == (if ranges == [] then 0 else ranges[|ranges| - 1].end) && cursor <= |s|
    ensures Substituted(s, Elements(ranges), 0, |s|) == Substituted(s, Elements(ranges), 0, cursor) + s[cursor..]
  {
    var R := Elements(ranges);
    InOrderIsApart(s, ranges);
    forall q | q in R ensures q.end <= cursor {
      var i :| 0 <= i < |ranges| && ranges[i] == q;
      if i < |ranges| - 1 { assert Before(ranges[i], ranges[|ranges| - 1]); }
    }
    SubstitutedSplits(s, R, 0, cursor, |s|);
    SubstitutedKeeps(s, R, cursor, |s|);
  }

  /** Applies all edits to the original, or says what is wrong with the first bad one. */
  method ApplyEdits(original: string, edits: seq<Edit>) returns (r: Result<string, EditError>)
    ensures r == Outcome(original, edits)
  {
    var located, error := LocateAll(original, edits);
    if error.Some? {
      return Err(error.value);
    }
    var ranges := SortedByStart(located);
    SortedKeeps(original, located, ranges);
    var overlap := NeighboursOverlap(ranges);
    if overlap {
      return Err(Overlap);
    }
    var text := Splice(original, ranges);
    return Ok(text);
  }

  /** Looks at each pair of neighbours. */
  method NeighboursOverlap(ranges: seq<Range>) returns (overlap: bool)
    ensures overlap <==> !Adjacent(ranges)
  {
    var k := 0;
    while k + 1 < |ranges|
      invariant k == 0 || 0 < k < |ranges|
      invariant forall i :: 0 <= i < k ==> Before(ranges[i], ranges[i + 1])
    {
      if ranges[k].end > ranges[k + 1].start {
        assert !Before(ranges[k], ranges[k + 1]);
        return true;
      }
      k := k + 1;
    }
    return false;
  }

  /** Finds every edit's range in the original, stopping at the first edit that has none. */
  method LocateAll(original: string, edits: seq<Edit>) returns (ranges: seq<Range>, error: Option<EditError>)
    ensures error.None? <==> AllLocatable(original, edits)
    ensures error.None? ==> ranges == RangesOf(original, edits)
    ensures error.Some? ==> error == Some(FirstComplaint(original, edits, 0))
  {
    ranges := [];
    for index := 0 to |edits|
      invariant AllLocatable(original, edits[..index]) && ranges == RangesOf(original, edits[..index])
    {
      var edit := edits[index];
      if edit.oldString == [] {
        FirstErrorStops(original, edits, 0, index);
        return ranges, Some(EmptyOldString(index));
      }
      var found := Matches(original, edit.oldString, 0);
      if |found| == 0 {
        FirstErrorStops(original, edits, 0, index);
        return ranges, Some(NotFound(index));
      } else if |found| == 1 {
        RangesSnoc(original, edits, index);
        ranges := ranges + [Range(found[0], found[0] + |edit.oldString|, edit.newString)];
      } else {
        FirstErrorStops(original, edits, 0, index);
        return ranges, Some(Ambiguous(index));
      }
    }
    assert edits[..|edits|] == edits;
    error := None;
  }

  lemma RangesSnoc(original: string, edits: seq<Edit>, index: nat)
    requires index < |edits| && AllLocatable(original, edits[..index]) && Locatable(original, edits[index])
    ensures AllLocatable(original, edits[..index + 1])
    ensures RangesOf(original, edits[..index + 1]) == RangesOf(original, edits[..index]) + [RangeOf(original, edits[index])]
  {
  }

  /** Sorting changes neither the replacements nor whether they share a position. */
  lemma SortedKeeps(s: string, located: seq<Range>, sorted: seq<Range>)
    requires InText(s, located) && Sorted(sorted) && multiset(sorted) == multiset(located)
    ensures InText(s, sorted) && Elements(sorted) == Elements(located)
    ensures Adjacent(sorted) <==> Apart(located)
    ensures Adjacent(sorted) <==> InOrder(sorted)
  {
    SameElements(s, located, sorted);
    NeighboursSuffice(s, sorted);
    if Apart(located) { ApartUnderPermutation(s, located, sorted); }
    if Apart(sorted) { ApartUnderPermutation(s, sorted, located); }
  }

  lemma {:induction false} FirstErrorStops(original: string, edits: seq<Edit>, i: nat, index: nat)
    requires i <= index < |edits| && AllLocatable(original, edits[..index]) && !Locatable(original, edits[index])
    ensures FirstComplaint(original, edits, i) == Complaint(original, edits[index], index)
    decreases index - i
  {
    if i < index {
      assert edits[..index][i] == edits[i];
      FirstErrorStops(original, edits, i + 1, index);
    }
  }
}
