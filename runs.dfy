/**
 * Runs of consecutive integer labels, as computed by `ranges` in matGroups.py.
 *
 * `ranges` sorts its input and then finds the end of each run of consecutive
 * labels by a binary search.  The search is correct only because, on a
 * strictly increasing sequence, the test
 *     sortedInts[mid] - sortedInts[upper] > mid - upper
 * is monotone in `mid`: false up to the last label of the run that starts at
 * `upper`, true after it.  With repeated labels the test is no longer
 * monotone and the pairs can claim labels that are absent.
 *
 * `Ranges` follows the loops as written, for any input; `Shrink`, `Search`
 * and `RunsFrom` state what each loop computes.  The reference definition
 * `RunsOf` is the plain greedy left-to-right grouping; on distinct labels the
 * binary search is proved to compute it.  `RangesDeduplicated` is `ranges`
 * with its input deduplicated first, which is correct for every input.
 */
module Runs {

  /** An inclusive range lo..hi of labels, as yielded by `ranges`. */
  datatype Run = Run(lo: int, hi: int)

  predicate Sorted(s: seq<int>) {
    forall i, j :: 0 <= i < j < |s| ==> s[i] <= s[j]
  }

  predicate StrictlyIncreasing(s: seq<int>) {
    forall i, j :: 0 <= i < j < |s| ==> s[i] < s[j]
  }

  predicate Distinct(s: seq<int>) {
    forall i, j :: 0 <= i < j < |s| ==> s[i] != s[j]
  }

  // ---------------------------------------------------------------------
  // Sorting: Python's `sorted`, specified by its result.
  // ---------------------------------------------------------------------

  function Insert(x: int, s: seq<int>): (r: seq<int>)
    ensures multiset(r) == multiset(s) + multiset{x}
  {
    if s == [] then [x]
    else if x <= s[0] then [x] + s
    else
      assert s == [s[0]] + s[1..];
      [s[0]] + Insert(x, s[1..])
  }

  lemma {:induction false} InsertMembers(x: int, s: seq<int>)
    ensures forall y :: y in Insert(x, s) <==> y == x || y in s
  {
    if s != [] && x > s[0] {
      InsertMembers(x, s[1..]);
      assert s == [s[0]] + s[1..];
    }
  }

  lemma {:induction false} InsertSorted(x: int, s: seq<int>)
    requires Sorted(s)
    ensures Sorted(Insert(x, s))
  {
    if s != [] && x > s[0] {
      var t := Insert(x, s[1..]);
      InsertSorted(x, s[1..]);
      InsertMembers(x, s[1..]);
      forall k | 0 <= k < |t| ensures s[0] <= t[k] {
        assert t[k] in t;
      }
    }
  }

  lemma {:induction false} InsertStrictlyIncreasing(x: int, s: seq<int>)
    requires StrictlyIncreasing(s) && x !in s
    ensures StrictlyIncreasing(Insert(x, s))
  {
    if s != [] && x > s[0] {
      var t := Insert(x, s[1..]);
      assert x !in s[1..];
      InsertStrictlyIncreasing(x, s[1..]);
      InsertMembers(x, s[1..]);
      forall k | 0 <= k < |t| ensures s[0] < t[k] {
        assert t[k] in t;
      }
    }
  }

  /** Insertion sort: the sorted permutation of `xs` (SortSpec); any sort gives the same (SortedUnique). */
  function Sort(xs: seq<int>): seq<int>
  {
    if xs == [] then [] else Insert(xs[0], Sort(xs[1..]))
  }

  /** `Sort` returns its input in ascending order, as a permutation; distinct labels come out strictly increasing. */
  lemma {:induction false} SortSpec(xs: seq<int>)
    ensures Sorted(Sort(xs))
    ensures multiset(Sort(xs)) == multiset(xs)
    ensures Distinct(xs) ==> StrictlyIncreasing(Sort(xs))
  {
    if xs != [] {
      assert xs == [xs[0]] + xs[1..];
      var rest := Sort(xs[1..]);
      SortSpec(xs[1..]);
      assert xs[0] in multiset(rest) <==> xs[0] in xs[1..];
      assert Distinct(xs) ==> Distinct(xs[1..]) && xs[0] !in xs[1..];
      InsertSorted(xs[0], rest);
      if Distinct(xs) {
        InsertStrictlyIncreasing(xs[0], rest);
      }
    }
  }

  lemma SortedHead(a: seq<int>, y: int)
    requires Sorted(a) && y in a
    ensures a[0] <= y
  {
  }

  lemma MultisetTail(a: seq<int>, b: seq<int>)
    requires multiset(a) == multiset(b)
    requires a != [] && b != [] && a[0] == b[0]
    ensures multiset(a[1..]) == multiset(b[1..])
  {
    assert a == [a[0]] + a[1..];
    assert b == [b[0]] + b[1..];
    assert multiset(a) == multiset{a[0]} + multiset(a[1..]);
    assert multiset(b) == multiset{b[0]} + multiset(b[1..]);
    assert multiset(a[1..]) == multiset(a) - multiset{a[0]};
    assert multiset(b[1..]) == multiset(b) - multiset{b[0]};
  }

  /** A sorted permutation is unique, so `Sort` stands for Python's `sorted`. */
  lemma {:induction false} SortedUnique(a: seq<int>, b: seq<int>)
    requires Sorted(a) && Sorted(b)
    requires multiset(a) == multiset(b)
    ensures a == b
  {
    if a == [] {
      assert |multiset(b)| == 0;
    } else {
      assert a[0] in multiset(a);
      assert a[0] in b;
      SortedHead(b, a[0]);
      assert b[0] in multiset(b);
      SortedHead(a, b[0]);
      MultisetTail(a, b);
      SortedUnique(a[1..], b[1..]);
      assert a == [a[0]] + a[1..];
      assert b == [b[0]] + b[1..];
    }
  }

  /** Sorting labels that are already sorted changes nothing. */
  lemma SortSorted(s: seq<int>)
    requires Sorted(s)
    ensures Sort(s) == s
  {
    SortSpec(s);
    SortedUnique(Sort(s), s);
  }

  // ---------------------------------------------------------------------
  // Runs, their expansion and the reference grouping.
  // ---------------------------------------------------------------------

  /** The labels lo, lo+1, ..., hi (empty when lo > hi). */
  function Interval(lo: int, hi: int): (r: seq<int>)
    decreases hi - lo
    ensures |r| == if lo <= hi then hi - lo + 1 else 0
    ensures forall k :: 0 <= k < |r| ==> r[k] == lo + k
  {
    if lo > hi then [] else Interval(lo, hi - 1) + [hi]
  }

  /** All labels covered by `runs`, in order. */
  function Expand(runs: seq<Run>): seq<int>
  {
    if runs == [] then []
    else Expand(runs[..|runs| - 1]) + Interval(runs[|runs| - 1].lo, runs[|runs| - 1].hi)
  }

  /** Label x lies in one of the inclusive ranges. */
  predicate Covers(runs: seq<Run>, x: int) {
    exists i :: 0 <= i < |runs| && runs[i].lo <= x <= runs[i].hi
  }

  predicate NonEmptyRuns(runs: seq<Run>) {
    forall i :: 0 <= i < |runs| ==> runs[i].lo <= runs[i].hi
  }

  /**
   * Each range is non-empty, and each range ends at least two below the
   * start of the next: ascending, disjoint and not mergeable.
   */
  predicate WellFormed(runs: seq<Run>) {
    && NonEmptyRuns(runs)
    && forall i :: 0 <= i < |runs| - 1 ==> runs[i].hi + 1 < runs[i + 1].lo
  }

  /** Greedy step: x continues the last run or starts a new one. */
  function Extend(runs: seq<Run>, x: int): (r: seq<Run>)
  {
    if runs != [] && runs[|runs| - 1].hi + 1 == x then
      runs[..|runs| - 1] + [Run(runs[|runs| - 1].lo, x)]
    else
      runs + [Run(x, x)]
  }

  /** The reference grouping of a label sequence into runs of consecutive labels. */
  function RunsOf(s: seq<int>): (r: seq<Run>)
    ensures |r| <= |s|
    ensures (r == []) == (s == [])
    ensures s != [] ==> r[0].lo == s[0] && r[|r| - 1].hi == s[|s| - 1]
    ensures NonEmptyRuns(r)
  {
    if s == [] then [] else Extend(RunsOf(s[..|s| - 1]), s[|s| - 1])
  }

  // ---------------------------------------------------------------------
  // Properties of the reference grouping.
  // ---------------------------------------------------------------------

  lemma {:induction false} ExpandCovers(runs: seq<Run>, x: int)
    ensures x in Expand(runs) <==> Covers(runs, x)
  {
    if runs != [] {
      var n := |runs| - 1;
      var last := runs[n];
      ExpandCovers(runs[..n], x);
      var iv := Interval(last.lo, last.hi);
      assert x in iv <==> last.lo <= x <= last.hi by {
        if last.lo <= x <= last.hi { assert iv[x - last.lo] == x; }
      }
      if Covers(runs[..n], x) {
        var i :| 0 <= i < n && runs[..n][i].lo <= x <= runs[..n][i].hi;
        assert runs[i] == runs[..n][i];
      }
      if Covers(runs, x) {
        var i :| 0 <= i < |runs| && runs[i].lo <= x <= runs[i].hi;
        if i < n { assert runs[..n][i] == runs[i]; }
      }
    }
  }

  lemma ExpandExtend(runs: seq<Run>, x: int)
    requires NonEmptyRuns(runs)
    ensures Expand(Extend(runs, x)) == Expand(runs) + [x]
  {
    if runs != [] && runs[|runs| - 1].hi + 1 == x {
      var n := |runs| - 1;
      var r := Extend(runs, x);
      assert r[..n] == runs[..n];
      assert Interval(runs[n].lo, x) == Interval(runs[n].lo, runs[n].hi) + [x];
    } else {
      var r := Extend(runs, x);
      assert r[..|runs|] == runs;
    }
  }

  /** Expanding the runs gives back the labels: no label lost, none invented. */
  lemma {:induction false} ExpandRunsOf(s: seq<int>)
    ensures Expand(RunsOf(s)) == s
  {
    if s != [] {
      var n := |s| - 1;
      ExpandRunsOf(s[..n]);
      ExpandExtend(RunsOf(s[..n]), s[n]);
      assert s[..n] + [s[n]] == s;
    }
  }

  /** The union of the runs is exactly the set of labels. */
  lemma RunsOfCoverage(s: seq<int>)
    ensures forall x :: x in s <==> Covers(RunsOf(s), x)
  {
    ExpandRunsOf(s);
    forall x ensures x in s <==> Covers(RunsOf(s), x) {
      ExpandCovers(RunsOf(s), x);
    }
  }

  lemma ExtendWellFormed(runs: seq<Run>, x: int)
    requires WellFormed(runs)
    requires runs != [] ==> runs[|runs| - 1].hi < x
    ensures WellFormed(Extend(runs, x))
  {
    var r := Extend(runs, x);
    if runs != [] && runs[|runs| - 1].hi + 1 == x {
      var n := |runs| - 1;
      assert forall i :: 0 <= i < n ==> r[i] == runs[i];
    } else {
      assert forall i :: 0 <= i < |runs| ==> r[i] == runs[i];
    }
  }

  /** On distinct sorted labels the runs are ascending, disjoint and maximal. */
  lemma {:induction false} RunsOfWellFormed(s: seq<int>)
    requires StrictlyIncreasing(s)
    ensures WellFormed(RunsOf(s))
  {
    if s != [] {
      var n := |s| - 1;
      assert StrictlyIncreasing(s[..n]);
      RunsOfWellFormed(s[..n]);
      ExtendWellFormed(RunsOf(s[..n]), s[n]);
    }
  }

  /** Consecutive runs of a well-formed list are separated by a gap, pairwise. */
  lemma {:induction false} WellFormedAscending(runs: seq<Run>, i: int, j: int)
    requires WellFormed(runs)
    requires 0 <= i < j < |runs|
    ensures runs[i].hi + 1 < runs[j].lo
  {
    if j > i + 1 {
      WellFormedAscending(runs, i, j - 1);
    }
  }

  /** A strictly increasing sequence takes steps of at least one per index. */
  lemma {:induction false} StrictGap(s: seq<int>, i: int, j: int)
    requires StrictlyIncreasing(s)
    requires 0 <= i <= j < |s|
    ensures s[j] - s[i] >= j - i
  {
    if i < j {
      StrictGap(s, i, j - 1);
    }
  }

  /** The labels at indices `lower..upper` go up by one at each index. */
  predicate Consecutive(s: seq<int>, lower: int, upper: int)
    requires 0 <= lower <= upper < |s|
  {
    forall i, j :: lower <= i <= j <= upper ==> s[j] - s[i] == j - i
  }

  /** Labels `lower..upper` of a strictly increasing sequence spanning `upper - lower` are consecutive. */
  lemma ConsecutiveRun(s: seq<int>, lower: int, upper: int)
    requires StrictlyIncreasing(s)
    requires 0 <= lower <= upper < |s|
    requires s[upper] - s[lower] == upper - lower
    ensures Consecutive(s, lower, upper)
  {
    forall i, j | lower <= i <= j <= upper ensures s[j] - s[i] == j - i {
      StrictGap(s, lower, i);
      StrictGap(s, i, j);
      StrictGap(s, j, upper);
    }
  }

  /** The consecutive labels at `lower..upper` are the interval between their ends. */
  lemma ConsecutiveSlice(s: seq<int>, lower: int, upper: int)
    requires 0 <= lower <= upper < |s|
    requires Consecutive(s, lower, upper)
    ensures s[..upper + 1] == s[..lower] + Interval(s[lower], s[upper])
  {
    var iv := Interval(s[lower], s[upper]);
    assert s[upper] - s[lower] == upper - lower;
    forall k | lower <= k <= upper ensures s[k] == iv[k - lower] {
      assert s[k] - s[lower] == k - lower;
    }
  }

  /**
   * Appending one complete run of consecutive labels, preceded by a gap,
   * appends exactly that run to the grouping.
   */
  lemma RunsOfAppendRun(s: seq<int>, lower: int, upper: int)
    requires 0 <= lower <= upper < |s|
    requires Consecutive(s, lower, upper)
    requires lower > 0 ==> s[lower] - s[lower - 1] > 1
    ensures RunsOf(s[..upper + 1]) == RunsOf(s[..lower]) + [Run(s[lower], s[upper])]
  {
    ConsecutiveSlice(s, lower, upper);
    assert lower > 0 ==> s[..lower][lower - 1] + 1 < s[lower];
    RunsOfAppendInterval(s[..lower], s[lower], s[upper]);
  }

  /** Grouping one more label is one greedy step. */
  lemma RunsOfSnoc(p: seq<int>, x: int)
    ensures RunsOf(p + [x]) == Extend(RunsOf(p), x)
  {
    assert (p + [x])[..|p|] == p;
  }

  lemma ExtendContinues(runs: seq<Run>, lo: int, hi: int, x: int)
    requires hi + 1 == x
    ensures Extend(runs + [Run(lo, hi)], x) == runs + [Run(lo, x)]
  {
    assert (runs + [Run(lo, hi)])[..|runs|] == runs;
  }

  lemma ExtendStarts(runs: seq<Run>, x: int)
    requires runs != [] ==> runs[|runs| - 1].hi + 1 != x
    ensures Extend(runs, x) == runs + [Run(x, x)]
  {
  }

  /** A label that does not follow on from the last one starts a run of its own. */
  lemma RunsOfSnocGap(p: seq<int>, x: int)
    requires p != [] ==> p[|p| - 1] + 1 < x
    ensures RunsOf(p + [x]) == RunsOf(p) + [Run(x, x)]
  {
    RunsOfSnoc(p, x);
    ExtendStarts(RunsOf(p), x);
  }

  /** Appending a block that starts after a gap appends exactly its run. */
  lemma {:induction false} RunsOfAppendInterval(a: seq<int>, lo: int, hi: int)
    requires lo <= hi
    decreases hi - lo
    requires a != [] ==> a[|a| - 1] + 1 < lo
    ensures RunsOf(a + Interval(lo, hi)) == RunsOf(a) + [Run(lo, hi)]
  {
    if lo < hi {
      var iv := Interval(lo, hi - 1);
      RunsOfAppendInterval(a, lo, hi - 1);
      Assoc(a, iv, [hi]);
      RunsOfSnoc(a + iv, hi);
      ExtendContinues(RunsOf(a), lo, hi - 1, hi);
    } else {
      assert Interval(lo, hi) == [lo];
      RunsOfSnocGap(a, lo);
    }
  }

  lemma {:induction false} ExpandLast(runs: seq<Run>)
    requires runs != [] && NonEmptyRuns(runs)
    ensures Expand(runs) != [] && Expand(runs)[|Expand(runs)| - 1] == runs[|runs| - 1].hi
  {
  }

  /** Regrouping the labels covered by well-formed runs gives those runs back. */
  lemma {:induction false} RunsOfExpand(runs: seq<Run>)
    requires WellFormed(runs)
    ensures RunsOf(Expand(runs)) == runs
  {
    if runs != [] {
      var init, last := WellFormedLast(runs);
      RunsOfExpand(init);
      if init != [] {
        ExpandLast(init);
      }
      RunsOfAppendInterval(Expand(init), last.lo, last.hi);
      ExpandSnoc(init, last);
    }
  }

  /** The last run of well-formed runs, and the well-formed runs before it. */
  lemma WellFormedLast(runs: seq<Run>) returns (init: seq<Run>, last: Run)
    requires WellFormed(runs) && runs != []
    ensures init == runs[..|runs| - 1] && last == runs[|runs| - 1] && runs == init + [last]
    ensures WellFormed(init) && last.lo <= last.hi
    ensures init != [] ==> init[|init| - 1].hi + 1 < last.lo
  {
    init, last := runs[..|runs| - 1], runs[|runs| - 1];
    assert WellFormed(init);
  }

  /** The labels covered by well-formed runs come out strictly increasing. */
  lemma {:induction false} ExpandStrictlyIncreasing(runs: seq<Run>)
    requires WellFormed(runs)
    ensures StrictlyIncreasing(Expand(runs))
  {
    if runs != [] {
      var n := |runs| - 1;
      var init := runs[..n];
      assert WellFormed(init);
      ExpandStrictlyIncreasing(init);
      var a := Expand(init);
      var iv := Interval(runs[n].lo, runs[n].hi);
      if init != [] {
        ExpandLast(init);
        forall i | 0 <= i < |a| ensures a[i] <= a[|a| - 1] { }
      }
      var e := a + iv;
      forall i, j | 0 <= i < j < |e| ensures e[i] < e[j] {
        if j >= |a| && i < |a| {
          assert a[i] <= a[|a| - 1];
        }
      }
    }
  }

  /**
   * Compression is canonical: two well-formed run lists covering the same
   * labels are equal.  So compressing the labels covered by a compressed
   * output returns that output.
   */
  lemma RunsCanonical(r1: seq<Run>, r2: seq<Run>)
    requires WellFormed(r1) && WellFormed(r2)
    requires forall x :: Covers(r1, x) <==> Covers(r2, x)
    ensures r1 == r2
  {
    var e1, e2 := Expand(r1), Expand(r2);
    ExpandStrictlyIncreasing(r1);
    ExpandStrictlyIncreasing(r2);
    forall x ensures x in e1 <==> x in e2 {
      ExpandCovers(r1, x);
      ExpandCovers(r2, x);
    }
    StrictSameElements(e1, e2);
    RunsOfExpand(r1);
    RunsOfExpand(r2);
  }

  lemma HeadIn(s: seq<int>)
    requires s != []
    ensures s[0] in s
  {
  }

  lemma {:induction false} StrictSameElements(a: seq<int>, b: seq<int>)
    requires StrictlyIncreasing(a) && StrictlyIncreasing(b)
    requires forall x :: x in a <==> x in b
    ensures a == b
  {
    if a != [] {
      assert a[0] in a;
      assert a[0] in b;
      assert b[0] in b;
      assert b[0] in a;
      assert a[0] == b[0];
      forall x ensures x in a[1..] <==> x in b[1..] {
        if x in a[1..] {
          assert x in b && x != b[0];
          var j :| 0 <= j < |b| && b[j] == x;
          assert b[1..][j - 1] == x;
        }
        if x in b[1..] {
          assert x in a && x != a[0];
          var i :| 0 <= i < |a| && a[i] == x;
          assert a[1..][i - 1] == x;
        }
      }
      StrictSameElements(a[1..], b[1..]);
      assert a == [a[0]] + a[1..];
      assert b == [b[0]] + b[1..];
    } else if b != [] {
      HeadIn(b);
      assert false;
    }
  }

  // ---------------------------------------------------------------------
  // The binary search of `ranges`.
  // ---------------------------------------------------------------------

  /** The runs of the sorted labels are well formed and cover exactly the labels. */
  lemma SortedRuns(intList: seq<int>)
    requires Distinct(intList)
    ensures WellFormed(RunsOf(Sort(intList)))
    ensures forall x :: x in intList <==> Covers(RunsOf(Sort(intList)), x)
  {
    var sortedInts := Sort(intList);
    SortSpec(intList);
    RunsOfWellFormed(sortedInts);
    RunsOfCoverage(sortedInts);
    forall x ensures x in intList <==> x in sortedInts {
      assert x in multiset(intList) <==> x in multiset(sortedInts);
    }
  }

  /**
   * The innermost loop of `ranges`: while the labels from `upper` to `mid`
   * cannot all be consecutive, move `boundary` down to `mid` and halve again.
   * The result is the final `(boundary, mid)`.
   */
  function Shrink(s: seq<int>, upper: nat, boundary: nat): (bm: (nat, nat))
    requires upper < boundary <= |s|
    ensures upper <= bm.1 < bm.0 <= boundary
    ensures bm.1 == (upper + bm.0) / 2
    ensures s[bm.1] - s[upper] <= bm.1 - upper
    ensures bm.0 == boundary || s[bm.0] - s[upper] > bm.0 - upper
    decreases boundary
  {
    var mid := (upper + boundary) / 2;
    if s[mid] - s[upper] > mid - upper then Shrink(s, upper, mid) else (boundary, mid)
  }

  /**
   * The middle loop of `ranges`: the binary search for the index of the last
   * label of the run that starts at `upper`, below the index `boundary`.
   */
  function Search(s: seq<int>, upper: nat, boundary: nat): (r: nat)
    requires upper < boundary <= |s|
    ensures upper <= r < boundary
    decreases boundary - upper
  {
    if boundary > upper + 1 then
      var bm := Shrink(s, upper, boundary);
      Search(s, bm.1, bm.0)
    else upper
  }

  /** The outer loop of `ranges`: the pairs yielded from index `lower` on. */
  function RunsFrom(s: seq<int>, lower: nat): seq<Run>
    requires lower <= |s|
    decreases |s| - lower
  {
    if lower < |s| then
      var upper := Search(s, lower, |s|);
      [Run(s[lower], s[upper])] + RunsFrom(s, upper + 1)
    else []
  }

  lemma Assoc<T>(a: seq<T>, b: seq<T>, c: seq<T>)
    ensures (a + b) + c == a + (b + c)
  {
  }

  /** `done + [run]` followed by `rest` is `done` followed by `[run] + rest`. */
  lemma AppendThrough(done: seq<Run>, run: Run, through: seq<Run>,
                      rest: seq<Run>, from: seq<Run>, all: seq<Run>)
    requires through == done + [run] && from == [run] + rest
    requires through + rest == all
    ensures done + from == all
  {
    Assoc(done, [run], rest);
  }

  /** One pass of the innermost loop. */
  lemma ShrinkStep(s: seq<int>, upper: nat, boundary: nat, mid: nat)
    requires upper < boundary <= |s| && mid == (upper + boundary) / 2
    ensures s[mid] - s[upper] > mid - upper ==> upper < mid && Shrink(s, upper, boundary) == Shrink(s, upper, mid)
    ensures s[mid] - s[upper] <= mid - upper ==> Shrink(s, upper, boundary) == (boundary, mid)
  {
  }

  /** One pass of the middle loop. */
  lemma SearchStep(s: seq<int>, upper: nat, boundary: nat)
    requires upper < boundary <= |s|
    ensures boundary > upper + 1 ==>
      Search(s, upper, boundary) == Search(s, Shrink(s, upper, boundary).1, Shrink(s, upper, boundary).0)
    ensures boundary <= upper + 1 ==> Search(s, upper, boundary) == upper
  {
  }

  /** One pass of the outer loop: the pair for the run found at `lower`. */
  lemma RunsFromStep(s: seq<int>, lower: nat, upper: nat)
    requires lower < |s| && upper == Search(s, lower, |s|)
    ensures RunsFrom(s, lower) == [Run(s[lower], s[upper])] + RunsFrom(s, upper + 1)
  {
  }

  /**
   * On strictly increasing labels the search stops at the end of the run
   * that starts at `lower`: the labels up to it are consecutive and the
   * next label, if any, is not.
   */
  lemma {:induction false} SearchEndsRun(s: seq<int>, lower: nat, upper: nat, boundary: nat) returns (r: nat)
    requires StrictlyIncreasing(s)
    requires lower <= upper < boundary <= |s|
    requires s[upper] - s[lower] == upper - lower
    requires boundary == |s| || s[boundary] - s[upper] > boundary - upper
    ensures r == Search(s, upper, boundary) && r < |s|
    ensures s[r] - s[lower] == r - lower
    ensures r + 1 == |s| || s[r + 1] - s[r] > 1
    decreases boundary - upper
  {
    if boundary > upper + 1 {
      SearchStep(s, upper, boundary);
      var bm := ShrinkKeepsRun(s, lower, upper, boundary);
      r := SearchEndsRun(s, lower, bm.1, bm.0);
    } else {
      r := SearchLast(s, lower, upper, boundary);
    }
  }

  /** With one candidate left the search ends at `upper`. */
  lemma SearchLast(s: seq<int>, lower: nat, upper: nat, boundary: nat) returns (r: nat)
    requires lower <= upper < boundary <= |s| && boundary == upper + 1
    requires s[upper] - s[lower] == upper - lower
    requires boundary == |s| || s[boundary] - s[upper] > boundary - upper
    ensures r == Search(s, upper, boundary) && r < |s|
    ensures s[r] - s[lower] == r - lower
    ensures r + 1 == |s| || s[r + 1] - s[r] > 1
  {
    r := upper;
  }

  /**
   * One pass of the middle loop keeps its invariant: the labels from
   * `lower` to the new `upper` are consecutive, and the label at the new
   * `boundary`, if any, is beyond the run.
   */
  lemma ShrinkKeepsRun(s: seq<int>, lower: nat, upper: nat, boundary: nat) returns (bm: (nat, nat))
    requires StrictlyIncreasing(s)
    requires lower <= upper < boundary <= |s|
    requires s[upper] - s[lower] == upper - lower
    requires boundary == |s| || s[boundary] - s[upper] > boundary - upper
    ensures bm == Shrink(s, upper, boundary)
    ensures upper <= bm.1 < bm.0 <= boundary
    ensures s[bm.1] - s[lower] == bm.1 - lower
    ensures bm.0 == |s| || s[bm.0] - s[bm.1] > bm.0 - bm.1
  {
    bm := Shrink(s, upper, boundary);
    StrictGap(s, upper, bm.1);
  }

  /**
   * The search from `lower` ends a maximal run at `upper`: the outer loop
   * yields that run next, grouping the labels up to it appends exactly that
   * run, and the next label starts a new one.
   */
  lemma SearchRun(s: seq<int>, lower: nat) returns (upper: nat)
    requires StrictlyIncreasing(s)
    requires lower < |s|
    requires 0 < lower ==> s[lower] - s[lower - 1] > 1
    ensures upper == Search(s, lower, |s|)
    ensures RunsFrom(s, lower) == [Run(s[lower], s[upper])] + RunsFrom(s, upper + 1)
    ensures RunsOf(s[..upper + 1]) == RunsOf(s[..lower]) + [Run(s[lower], s[upper])]
    ensures upper + 1 < |s| ==> s[upper + 1] - s[upper] > 1
  {
    upper := SearchEnd(s, lower);
    ConsecutiveRun(s, lower, upper);
    RunsOfAppendRun(s, lower, upper);
    RunsFromStep(s, lower, upper);
  }

  /** The search from `lower` stops at `upper`, the end of the run starting at `lower`. */
  lemma SearchEnd(s: seq<int>, lower: nat) returns (upper: nat)
    requires StrictlyIncreasing(s)
    requires lower < |s|
    ensures upper == Search(s, lower, |s|)
    ensures s[upper] - s[lower] == upper - lower
    ensures upper + 1 < |s| ==> s[upper + 1] - s[upper] > 1
  {
    upper := SearchEndsRun(s, lower, lower, |s|);
  }

  /** On strictly increasing labels the binary search finds the greedy runs. */
  lemma {:induction false} RunsFromGreedy(s: seq<int>, lower: nat)
    requires StrictlyIncreasing(s)
    requires lower <= |s|
    requires 0 < lower < |s| ==> s[lower] - s[lower - 1] > 1
    ensures RunsOf(s[..lower]) + RunsFrom(s, lower) == RunsOf(s)
    decreases |s| - lower
  {
    if lower < |s| {
      var upper := SearchRun(s, lower);
      RunsFromGreedy(s, upper + 1);
      AppendThrough(RunsOf(s[..lower]), Run(s[lower], s[upper]), RunsOf(s[..upper + 1]),
                    RunsFrom(s, upper + 1), RunsFrom(s, lower), RunsOf(s));
    } else {
      assert s[..lower] == s;
    }
  }

  /** For distinct labels the pairs of `ranges` are the greedy runs. */
  lemma RangesGreedy(intList: seq<int>)
    ensures Distinct(intList) ==> RunsFrom(Sort(intList), 0) == RunsOf(Sort(intList))
    ensures Distinct(intList) ==> WellFormed(RunsFrom(Sort(intList), 0))
    ensures Distinct(intList) ==> forall x :: x in intList <==> Covers(RunsFrom(Sort(intList), 0), x)
  {
    if Distinct(intList) {
      var s := Sort(intList);
      SortSpec(intList);
      RunsFromGreedy(s, 0);
      assert s[..0] == [];
      assert RunsOf([]) + RunsFrom(s, 0) == RunsFrom(s, 0);
      SortedRuns(intList);
    }
  }

  /**
   * `ranges(intList)`, as written: the pairs of the nested binary search over
   * the sorted labels.  For pairwise distinct labels these are the maximal
   * runs of consecutive labels, ascending, covering exactly the labels.
   */
  method Ranges(intList: seq<int>) returns (runs: seq<Run>)
    ensures runs == RunsFrom(Sort(intList), 0)
    ensures Distinct(intList) ==> runs == RunsOf(Sort(intList))
    ensures Distinct(intList) ==> WellFormed(runs)
    ensures Distinct(intList) ==> forall x :: x in intList <==> Covers(runs, x)
  {
    var sortedInts := Sort(intList);
    var n := |sortedInts|;
    runs := [];
    var lower := 0;
    assert runs + RunsFrom(sortedInts, 0) == RunsFrom(sortedInts, 0);
    while lower < n
      invariant 0 <= lower <= n
      invariant runs + RunsFrom(sortedInts, lower) == RunsFrom(sortedInts, 0)
    {
      var upper := lower;
      var boundary := n;
      while boundary > upper + 1
        invariant lower <= upper < boundary <= n
        invariant Search(sortedInts, upper, boundary) == Search(sortedInts, lower, n)
        decreases boundary - upper
      {
        ghost var start := boundary;
        var mid := (upper + boundary) / 2;
        while sortedInts[mid] - sortedInts[upper] > mid - upper
          invariant upper < boundary <= start
          invariant mid == (upper + boundary) / 2
          invariant Shrink(sortedInts, upper, boundary) == Shrink(sortedInts, upper, start)
          decreases boundary
        {
          ShrinkStep(sortedInts, upper, boundary, mid);
          boundary := mid;
          mid := (upper + boundary) / 2;
        }
        ShrinkStep(sortedInts, upper, boundary, mid);
        SearchStep(sortedInts, upper, start);
        upper := mid;
      }
      SearchStep(sortedInts, upper, boundary);
      RunsFromStep(sortedInts, lower, upper);
      Assoc(runs, [Run(sortedInts[lower], sortedInts[upper])], RunsFrom(sortedInts, upper + 1));
      runs := runs + [Run(sortedInts[lower], sortedInts[upper])];
      lower := upper + 1;
    }
    RangesGreedy(intList);
  }

  /**
   * With repeated labels the test of the innermost loop is not monotone:
   * `ranges([1, 3, 3, 3, 4])` yields the single pair `(1, 4)`, which claims
   * the absent label 2.
   */
  lemma RangesRepeatedLabels(intList: seq<int>)
    requires intList == [1, 3, 3, 3, 4]
    ensures RunsFrom(Sort(intList), 0) == [Run(1, 4)]
    ensures Covers([Run(1, 4)], 2) && 2 !in intList
  {
    SortRepeated(intList);
    RunsFromRepeated(intList);
    assert Covers([Run(1, 4)], 2) by {
      assert [Run(1, 4)][0].lo <= 2 <= [Run(1, 4)][0].hi;
    }
  }

  lemma SortRepeated(intList: seq<int>)
    requires intList == [1, 3, 3, 3, 4]
    ensures Sort(intList) == intList
  {
    StepsNonDecreasing(intList);
    SortSorted(intList);
  }

  lemma RunsFromRepeated(s: seq<int>)
    requires s == [1, 3, 3, 3, 4]
    ensures RunsFrom(s, 0) == [Run(1, 4)]
  {
    SearchRepeated(s);
    RunsFromStep(s, 0, 4);
    assert RunsFrom(s, 5) == [];
  }

  /** A sequence each of whose labels is at most the next is sorted. */
  lemma {:induction false} StepsNonDecreasing(s: seq<int>)
    requires forall i :: 0 <= i < |s| - 1 ==> s[i] <= s[i + 1]
    ensures Sorted(s)
  {
    if |s| > 1 {
      StepsNonDecreasing(s[1..]);
      forall i, j | 0 <= i < j < |s| ensures s[i] <= s[j] {
        if i > 0 {
          assert s[i] == s[1..][i - 1] && s[j] == s[1..][j - 1];
        } else if j > 1 {
          assert s[1] == s[1..][0] && s[j] == s[1..][j - 1];
        }
      }
    }
  }

  lemma SearchRepeated(s: seq<int>)
    requires s == [1, 3, 3, 3, 4]
    ensures Search(s, 0, 5) == 4
  {
    ShrinkStep(s, 0, 5, 2);
    SearchStep(s, 0, 5);
    ShrinkStep(s, 2, 5, 3);
    SearchStep(s, 2, 5);
    ShrinkStep(s, 3, 5, 4);
    SearchStep(s, 3, 5);
    SearchStep(s, 4, 5);
  }

  /** The labels with repeats dropped, first occurrences kept in order. */
  function Dedup(s: seq<int>): (r: seq<int>)
    ensures Distinct(r)
    ensures forall x :: x in r <==> x in s
  {
    if s == [] then []
    else
      var d := Dedup(s[..|s| - 1]);
      var x := s[|s| - 1];
      assert forall y :: y in s <==> y in s[..|s| - 1] || y == x by {
        assert s == s[..|s| - 1] + [x];
      }
      if x in d then d else d + [x]
  }

  /** Deduplicating labels that have no repeats does not change their sorted order. */
  lemma DedupNoRepeats(s: seq<int>)
    requires StrictlyIncreasing(Sort(s))
    ensures Sort(Dedup(s)) == Sort(s)
  {
    var d := Dedup(s);
    var sd, ss := Sort(d), Sort(s);
    SortSpec(d);
    SortSpec(s);
    assert multiset(sd) == multiset(d) && multiset(ss) == multiset(s);
    forall x ensures x in sd <==> x in ss {
      assert x in sd <==> x in multiset(sd);
      assert x in d <==> x in multiset(d);
      assert x in ss <==> x in multiset(ss);
      assert x in s <==> x in multiset(s);
      assert x in d <==> x in s;
    }
    StrictSameElements(sd, ss);
  }

  /**
   * `ranges` with its input deduplicated first: the maximal runs of the
   * distinct labels, for any list of labels.
   */
  method RangesDeduplicated(intList: seq<int>) returns (runs: seq<Run>)
    ensures runs == RunsOf(Sort(Dedup(intList)))
    ensures WellFormed(runs)
    ensures forall x :: x in intList <==> Covers(runs, x)
  {
    runs := Ranges(Dedup(intList));
  }

  /** A sequence each of whose labels is below the next is strictly increasing. */
  lemma {:induction false} StepsIncreasing(s: seq<int>)
    requires forall i :: 0 <= i < |s| - 1 ==> s[i] < s[i + 1]
    ensures StrictlyIncreasing(s)
  {
    if |s| > 1 {
      StepsIncreasing(s[1..]);
      forall i, j | 0 <= i < j < |s| ensures s[i] < s[j] {
        if i > 0 {
          assert s[i] == s[1..][i - 1] && s[j] == s[1..][j - 1];
        } else if j > 1 {
          assert s[1] == s[1..][0] && s[j] == s[1..][j - 1];
        }
      }
    }
  }

  /** The sorted labels of the `ranges` documentation example, as blocks. */
  lemma ExampleBlocks(s: seq<int>)
    requires s == [1, 2, 3, 4, 10, 11, 12, 17, 18, 20]
    ensures s == Interval(1, 4) + Interval(10, 12) + Interval(17, 18) + Interval(20, 20)
  {
  }

  /** The runs of the `ranges` documentation example cover these blocks. */
  lemma ExpandExample(runs: seq<Run>)
    requires runs == [Run(1, 4), Run(10, 12), Run(17, 18), Run(20, 20)]
    ensures Expand(runs) == Interval(1, 4) + Interval(10, 12) + Interval(17, 18) + Interval(20, 20)
  {
    var r1, r2, r3, r4 := Run(1, 4), Run(10, 12), Run(17, 18), Run(20, 20);
    ExpandSnoc([], r1);
    assert [] + [r1] == [r1];
    assert [] + Interval(1, 4) == Interval(1, 4);
    ExpandSnoc([r1], r2);
    assert [r1] + [r2] == [r1, r2];
    ExpandSnoc([r1, r2], r3);
    assert [r1, r2] + [r3] == [r1, r2, r3];
    ExpandSnoc([r1, r2, r3], r4);
    assert [r1, r2, r3] + [r4] == runs;
  }

  /** Expanding one more run appends its labels. */
  lemma ExpandSnoc(runs: seq<Run>, r: Run)
    ensures Expand(runs + [r]) == Expand(runs) + Interval(r.lo, r.hi)
  {
    assert (runs + [r])[..|runs|] == runs;
  }

  /** The example of the `ranges` documentation, on the sorted labels. */
  lemma RunsOfExample(s: seq<int>)
    requires s == [1, 2, 3, 4, 10, 11, 12, 17, 18, 20]
    ensures RunsOf(s) == [Run(1, 4), Run(10, 12), Run(17, 18), Run(20, 20)]
  {
    var runs := [Run(1, 4), Run(10, 12), Run(17, 18), Run(20, 20)];
    assert WellFormed(runs);
    ExampleBlocks(s);
    ExpandExample(runs);
    RunsOfExpand(runs);
  }

  /** The sorted labels of the `ranges` documentation example are strictly increasing. */
  lemma ExampleIncreasing(sorted: seq<int>)
    requires sorted == [1, 2, 3, 4, 10, 11, 12, 17, 18, 20]
    ensures StrictlyIncreasing(sorted) && Sorted(sorted)
  {
    StepsIncreasing(sorted);
  }

  /** The labels of the `ranges` documentation example are a permutation of the sorted ones. */
  lemma ExamplePermutation(intList: seq<int>, sorted: seq<int>)
    requires intList == [10, 11, 12, 1, 2, 3, 4, 17, 18, 20]
    requires sorted == [1, 2, 3, 4, 10, 11, 12, 17, 18, 20]
    ensures multiset(intList) == multiset(sorted)
  {
    var a, b, c := [10, 11, 12], [1, 2, 3, 4], [17, 18, 20];
    assert intList == a + b + c;
    assert sorted == b + a + c;
    MultisetSwap(a, b, c);
  }

  lemma MultisetSwap(a: seq<int>, b: seq<int>, c: seq<int>)
    ensures multiset(a + b + c) == multiset(b + a + c)
  {
  }

  /** Sorting the labels of the `ranges` documentation example. */
  lemma SortExample(intList: seq<int>)
    requires intList == [10, 11, 12, 1, 2, 3, 4, 17, 18, 20]
    ensures Sort(intList) == [1, 2, 3, 4, 10, 11, 12, 17, 18, 20]
    ensures StrictlyIncreasing(Sort(intList))
  {
    var sorted :| sorted == [1, 2, 3, 4, 10, 11, 12, 17, 18, 20];
    ExampleIncreasing(sorted);
    ExamplePermutation(intList, sorted);
    SortSpec(intList);
    SortedUnique(Sort(intList), sorted);
  }

  /** The example of the `ranges` documentation: `[10,11,12,1,2,3,4,17,18,20]`. */
  lemma RangesExample(intList: seq<int>)
    requires intList == [10, 11, 12, 1, 2, 3, 4, 17, 18, 20]
    ensures RunsFrom(Sort(intList), 0) == [Run(1, 4), Run(10, 12), Run(17, 18), Run(20, 20)]
  {
    SortExample(intList);
    SearchExample(Sort(intList));
  }

  lemma SearchExample(sorted: seq<int>)
    requires sorted == [1, 2, 3, 4, 10, 11, 12, 17, 18, 20]
    ensures RunsFrom(sorted, 0) == [Run(1, 4), Run(10, 12), Run(17, 18), Run(20, 20)]
  {
    StepsIncreasing(sorted);
    RunsFromGreedy(sorted, 0);
    assert sorted[..0] == [];
    RunsOfExample(sorted);
  }
}
