/**
 * The `.bdf` set entries of `hmRanges` in matGroups.py: a run of one label
 * is written as that number, a run of two as the two numbers, and a longer
 * run as a single "lo THRU hi" entry.
 */
module Tokens {
  import opened Runs

  /** One entry of a SET card: a label, or an inclusive range of labels. */
  datatype Token = Num(n: int) | Thru(lo: int, hi: int)

  /** A THRU entry always spans at least three labels. */
  predicate ProperToken(t: Token) {
    t.Thru? ==> t.hi - t.lo >= 2
  }

  /** The labels an entry stands for. */
  function TokenLabels(t: Token): seq<int> {
    match t
    case Num(n) => [n]
    case Thru(lo, hi) => Interval(lo, hi)
  }

  /** All labels a list of entries stands for, in order. */
  function ExpandTokens(ts: seq<Token>): seq<int>
  {
    if ts == [] then [] else ExpandTokens(ts[..|ts| - 1]) + TokenLabels(ts[|ts| - 1])
  }

  /** The entries for one run (the body of the loop in `hmRanges`). */
  function RunTokens(r: Run): (ts: seq<Token>)
    ensures r.lo <= r.hi ==> ExpandTokens(ts) == Interval(r.lo, r.hi)
    ensures r.lo <= r.hi ==> forall k :: 0 <= k < |ts| ==> ProperToken(ts[k])
    ensures |ts| == 2 <==> r.lo + 1 == r.hi
    ensures r.lo <= r.hi ==> (ts == [Num(r.lo)] <==> r.lo == r.hi)
    ensures r.hi - r.lo >= 2 ==> |ts| == 1 && ts[0].Thru?
  {
    if r.lo == r.hi then
      assert ExpandTokens([Num(r.lo)]) == ExpandTokens([]) + [r.lo];
      [Num(r.lo)]
    else if r.lo + 1 == r.hi then
      var ts := [Num(r.lo), Num(r.hi)];
      assert ts[..1] == [Num(r.lo)];
      assert ExpandTokens(ts[..1]) == ExpandTokens([]) + [r.lo];
      assert Interval(r.lo, r.hi) == Interval(r.lo, r.lo) + [r.hi];
      ts
    else
      assert [Thru(r.lo, r.hi)][..0] == [];
      [Thru(r.lo, r.hi)]
  }

  /** `hmRanges` over the runs yielded by `ranges`, in order. */
  function HmTokens(runs: seq<Run>): (ts: seq<Token>)
    ensures NonEmptyRuns(runs) ==> forall k :: 0 <= k < |ts| ==> ProperToken(ts[k])
  {
    if runs == [] then [] else HmTokens(runs[..|runs| - 1]) + RunTokens(runs[|runs| - 1])
  }

  lemma {:induction false} ExpandTokensAppend(a: seq<Token>, b: seq<Token>)
    ensures ExpandTokens(a + b) == ExpandTokens(a) + ExpandTokens(b)
  {
    if b != [] {
      var n := |b| - 1;
      ExpandTokensAppend(a, b[..n]);
      assert (a + b)[..|a + b| - 1] == a + b[..n];
    } else {
      assert a + b == a;
    }
  }

  /** Expanding the entries of the runs gives back the labels of the runs. */
  lemma {:induction false} ExpandHmTokens(runs: seq<Run>)
    requires NonEmptyRuns(runs)
    ensures ExpandTokens(HmTokens(runs)) == Expand(runs)
  {
    if runs != [] {
      var n := |runs| - 1;
      assert NonEmptyRuns(runs[..n]);
      ExpandHmTokens(runs[..n]);
      ExpandTokensAppend(HmTokens(runs[..n]), RunTokens(runs[n]));
    }
  }

  /**
   * Round trip: the entries written for distinct labels expand to exactly
   * those labels, sorted.
   */
  lemma HmTokensRoundTrip(intList: seq<int>)
    requires Distinct(intList)
    ensures ExpandTokens(HmTokens(RunsOf(Sort(intList)))) == Sort(intList)
    ensures forall x :: x in ExpandTokens(HmTokens(RunsOf(Sort(intList)))) <==> x in intList
  {
    var s := Sort(intList);
    SortSpec(intList);
    ExpandHmTokens(RunsOf(s));
    ExpandRunsOf(s);
    forall x ensures x in s <==> x in intList {
      assert x in multiset(s) <==> x in multiset(intList);
    }
  }

  /** The entries determine the runs: regrouping their labels recovers the runs. */
  lemma HmTokensDetermineRuns(runs: seq<Run>)
    requires WellFormed(runs)
    ensures RunsOf(ExpandTokens(HmTokens(runs))) == runs
  {
    ExpandHmTokens(runs);
    RunsOfExpand(runs);
  }

  /**
   * `hmRanges(intList)`: the `.bdf` entries for the labels, built from the
   * runs of `ranges` with its input deduplicated: they stand for the
   * distinct labels, ascending.
   */
  method HmRanges(intList: seq<int>) returns (tokens: seq<Token>)
    ensures tokens == HmTokens(RunsOf(Sort(Dedup(intList))))
    ensures ExpandTokens(tokens) == Sort(Dedup(intList))
    ensures forall x :: x in ExpandTokens(tokens) <==> x in intList
    ensures forall k :: 0 <= k < |tokens| ==> ProperToken(tokens[k])
  {
    var runs := RangesDeduplicated(intList);
    tokens := HmTokens(runs);
    HmTokensRoundTrip(Dedup(intList));
  }

  /** One entry per label. */
  function Nums(s: seq<int>): (ts: seq<Token>)
    ensures |ts| == |s| && forall k :: 0 <= k < |s| ==> ts[k] == Num(s[k])
  {
    seq(|s|, k requires 0 <= k < |s| => Num(s[k]))
  }

  /** Ascending labels no two of which are adjacent. */
  predicate Isolated(s: seq<int>) {
    forall i, j :: 0 <= i < j < |s| ==> s[i] + 1 < s[j]
  }

  /** Ascending labels no two of which are adjacent are written one entry per label. */
  lemma {:induction false} IsolatedTokens(s: seq<int>)
    requires Isolated(s)
    ensures HmTokens(RunsOf(s)) == Nums(s)
  {
    if s != [] {
      var n := |s| - 1;
      var init := s[..n];
      assert Isolated(init);
      IsolatedTokens(init);
      RunsOfSnocGap(init, s[n]);
      assert init + [s[n]] == s;
      HmTokensSnoc(RunsOf(init), Run(s[n], s[n]));
      NumsSnoc(s);
    }
  }

  /** `hmRanges` handles one run after another. */
  lemma HmTokensSnoc(runs: seq<Run>, r: Run)
    ensures HmTokens(runs + [r]) == HmTokens(runs) + RunTokens(r)
  {
    assert (runs + [r])[..|runs|] == runs;
  }

  lemma NumsSnoc(s: seq<int>)
    requires s != []
    ensures Nums(s) == Nums(s[..|s| - 1]) + [Num(s[|s| - 1])]
  {
  }

  /** The runs of the `hmRanges` documentation example become these entries. */
  lemma HmTokensExample(s: seq<int>)
    requires s == [1, 2, 3, 4, 10, 11, 12, 17, 18, 20]
    ensures HmTokens(RunsOf(s)) == [Thru(1, 4), Thru(10, 12), Num(17), Num(18), Num(20)]
  {
    RunsOfExample(s);
    var r1, r2, r3, r4 := Run(1, 4), Run(10, 12), Run(17, 18), Run(20, 20);
    HmTokensExampleThree([r1, r2, r3]);
    HmTokensSnoc([r1, r2, r3], r4);
    assert [r1, r2, r3] + [r4] == [r1, r2, r3, r4];
  }

  lemma HmTokensExampleThree(runs: seq<Run>)
    requires runs == [Run(1, 4), Run(10, 12), Run(17, 18)]
    ensures HmTokens(runs) == [Thru(1, 4), Thru(10, 12), Num(17), Num(18)]
  {
    HmTokensExampleTwo(runs[..2]);
    HmTokensSnoc(runs[..2], runs[2]);
    assert runs[..2] + [runs[2]] == runs;
  }

  lemma HmTokensExampleTwo(runs: seq<Run>)
    requires runs == [Run(1, 4), Run(10, 12)]
    ensures HmTokens(runs) == [Thru(1, 4), Thru(10, 12)]
  {
    HmTokensTwoLong(runs[0], runs[1]);
    assert [runs[0], runs[1]] == runs;
  }

  /** Two runs of three or more labels each become two `THRU` entries. */
  lemma HmTokensTwoLong(a: Run, b: Run)
    requires a.hi - a.lo >= 2 && b.hi - b.lo >= 2
    ensures HmTokens([a, b]) == [Thru(a.lo, a.hi), Thru(b.lo, b.hi)]
  {
    HmTokensSnoc([], a);
    assert [] + [a] == [a];
    HmTokensSnoc([a], b);
    assert [a] + [b] == [a, b];
  }

  /** The example of the `hmRanges` documentation: `[10,11,12,1,2,3,4,17,18,20]`. */
  lemma HmRangesExample(intList: seq<int>)
    requires intList == [10, 11, 12, 1, 2, 3, 4, 17, 18, 20]
    ensures HmTokens(RunsOf(Sort(Dedup(intList)))) == [Thru(1, 4), Thru(10, 12), Num(17), Num(18), Num(20)]
  {
    SortExample(intList);
    DedupNoRepeats(intList);
    HmTokensExample(Sort(Dedup(intList)));
  }
}
