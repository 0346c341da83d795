/**
 * Outlier trimming of the quadrant chart: each axis's threshold is the
 * value at rank `floor(n * p)` of its ascending sort, the plotted points are
 * those under both thresholds, and the chart reports how many it trimmed.
 * The percentile `p` is modelled as an exact rational.
 */
module Quadrant {
  import opened Wrappers
  import opened Strings
  import opened Sorting
  import opened Fetch
  import opened Bubbles
  import opened Filtering

  // ---------------------------------------------------------------- percentile choice

  /** The selectable percentiles, in menu order: 95% down to 50%. */
  const PercentileOptions: seq<real> := [0.95, 0.9, 0.85, 0.8, 0.75, 0.7, 0.6, 0.5]

  /** The percentile the chart starts with. */
  const DefaultPercentile: real := 0.9

  /** The default is on the menu, and every option is a fraction in [0.5, 0.95], listed in decreasing order. */
  lemma PercentileMenu()
    ensures DefaultPercentile in PercentileOptions
    ensures forall i :: 0 <= i < |PercentileOptions| ==> 0.5 <= PercentileOptions[i] <= 0.95
    ensures forall i, j :: 0 <= i < j < |PercentileOptions| ==> PercentileOptions[i] > PercentileOptions[j]
  {
  }

  // ---------------------------------------------------------------- thresholds

  /** `(a, b) => a - b` as "may come first": ascending numeric order. */
  predicate Ascending(a: real, b: real) {
    a <= b
  }

  lemma AscendingIsTotalPreorder()
    ensures IsTotalPreorder(Ascending)
  {
  }

  /** `values.sort((a, b) => a - b)`. */
  function SortAscending(values: seq<real>): (s: seq<real>)
    ensures SortedBy(s, Ascending)
    ensures multiset(s) == multiset(values)
    ensures |s| == |values|
  {
    AscendingIsTotalPreorder();
    SortBy(values, Ascending)
  }

  /** `Math.floor(values.length * percentile)`. */
  function RankIndex(n: nat, p: real): (i: int)
    ensures i as real <= n as real * p < i as real + 1.0
  {
    (n as real * p).Floor
  }

  /** For a fraction `0 <= p < 1` and some values, the rank index is a valid position. */
  lemma RankIndexInRange(n: nat, p: real)
    requires n > 0 && 0.0 <= p < 1.0
    ensures 0 <= RankIndex(n, p) < n
  {
    var x := n as real * p;
    assert 0.0 <= x;
    assert n as real - x == n as real * (1.0 - p);
    assert n as real * (1.0 - p) > 0.0;
  }

  /** `sorted[index] || 0`: the value at the rank index, 0 when it is out of range. */
  function Threshold(values: seq<real>, p: real): (t: real)
    ensures var k := RankIndex(|values|, p);
      0 <= k < |values| ==> t == SortAscending(values)[k]
    ensures var k := RankIndex(|values|, p);
      !(0 <= k < |values|) ==> t == 0.0
  {
    var sorted := SortAscending(values);
    var k := RankIndex(|sorted|, p);
    if 0 <= k < |sorted| then sorted[k] else 0.0
  }

  /** With no values the threshold is 0. */
  lemma ThresholdOfNone(p: real)
    ensures Threshold([], p) == 0.0
  {
  }

  /** `calculatePercentile`: one threshold per axis. */
  datatype Percentiles = Percentiles(pRoi: real, pInvestment: real)

  function CalculatePercentile(data: seq<Bubble>, p: real): (r: Percentiles)
    ensures r.pRoi == Threshold(Rois(data), p) && r.pInvestment == Threshold(Investments(data), p)
  {
    Percentiles(Threshold(Rois(data), p), Threshold(Investments(data), p))
  }

  // ---------------------------------------------------------------- counting

  /** `x <= t` or, when `strict`, `x < t`. */
  predicate Below(x: real, t: real, strict: bool) {
    if strict then x < t else x <= t
  }

  /** How many of `xs` are below `t`. */
  function CountBelow(xs: seq<real>, t: real, strict: bool): (c: nat)
    ensures c <= |xs|
  {
    if xs == [] then 0
    else CountBelow(xs[..|xs| - 1], t, strict) + (if Below(xs[|xs| - 1], t, strict) then 1 else 0)
  }

  lemma {:induction false} CountBelowAppend(a: seq<real>, b: seq<real>, t: real, strict: bool)
    ensures CountBelow(a + b, t, strict) == CountBelow(a, t, strict) + CountBelow(b, t, strict)
  {
    if b != [] {
      var b' := b[..|b| - 1];
      assert (a + b)[..|a + b| - 1] == a + b';
      assert (a + b)[|a + b| - 1] == b[|b| - 1];
      CountBelowAppend(a, b', t, strict);
    } else {
      assert a + b == a;
    }
  }

  /** The count does not depend on the order of the values. */
  lemma {:induction false} CountBelowPermutation(a: seq<real>, b: seq<real>, t: real, strict: bool)
    requires multiset(a) == multiset(b)
    ensures CountBelow(a, t, strict) == CountBelow(b, t, strict)
    decreases |a|
  {
    if a == [] {
      assert |b| == |multiset(b)| == 0;
    } else {
      var x := a[|a| - 1];
      assert x in multiset(b);
      var j :| 0 <= j < |b| && b[j] == x;
      MultisetRemoveLast(a, b, j);
      CountBelowPermutation(a[..|a| - 1], b[..j] + b[j + 1..], t, strict);
      CountBelowRemove(b, j, t, strict);
    }
  }

  /** Taking the last element off `a` and an equal one off `b` keeps the two multisets equal. */
  lemma MultisetRemoveLast(a: seq<real>, b: seq<real>, j: nat)
    requires |a| > 0 && multiset(a) == multiset(b) && j < |b| && b[j] == a[|a| - 1]
    ensures multiset(a[..|a| - 1]) == multiset(b[..j] + b[j + 1..])
  {
    var x := a[|a| - 1];
    assert a == a[..|a| - 1] + [x];
    assert b == b[..j] + [x] + b[j + 1..];
    assert multiset(a[..|a| - 1]) == multiset(a) - multiset{x};
    assert multiset(b[..j] + b[j + 1..]) == multiset(b) - multiset{x};
  }

  /** Removing position `j` lowers the count by one exactly when that value is below. */
  lemma CountBelowRemove(b: seq<real>, j: nat, t: real, strict: bool)
    requires j < |b|
    ensures CountBelow(b, t, strict) == CountBelow(b[..j] + b[j + 1..], t, strict) + (if Below(b[j], t, strict) then 1 else 0)
  {
    assert b == b[..j] + [b[j]] + b[j + 1..];
    CountBelowAppend(b[..j], [b[j]], t, strict);
    CountBelowAppend(b[..j] + [b[j]], b[j + 1..], t, strict);
    CountBelowAppend(b[..j], b[j + 1..], t, strict);
    assert CountBelow([b[j]], t, strict) == if Below(b[j], t, strict) then 1 else 0 by {
      assert [b[j]][..0] == [];
    }
  }


  lemma {:induction false} CountBelowAll(xs: seq<real>, t: real, strict: bool)
    requires forall i :: 0 <= i < |xs| ==> Below(xs[i], t, strict)
    ensures CountBelow(xs, t, strict) == |xs|
  {
    if xs != [] {
      CountBelowAll(xs[..|xs| - 1], t, strict);
    }
  }

  lemma {:induction false} CountBelowNone(xs: seq<real>, t: real, strict: bool)
    requires forall i :: 0 <= i < |xs| ==> !Below(xs[i], t, strict)
    ensures CountBelow(xs, t, strict) == 0
  {
    if xs != [] {
      CountBelowNone(xs[..|xs| - 1], t, strict);
    }
  }

  /**
   * The threshold is a percentile of the values: when the rank index `k` is
   * in range, at least `k + 1` values are at or under it and at most `k`
   * are strictly under it.
   */
  lemma ThresholdRank(values: seq<real>, p: real)
    requires 0 <= RankIndex(|values|, p) < |values|
    ensures CountBelow(values, Threshold(values, p), false) >= RankIndex(|values|, p) + 1
    ensures CountBelow(values, Threshold(values, p), true) <= RankIndex(|values|, p)
  {
    var s := SortAscending(values);
    var k := RankIndex(|values|, p);
    SortedRank(s, k);
    CountBelowPermutation(values, s, s[k], false);
    CountBelowPermutation(values, s, s[k], true);
  }

  /** In an ascending list, the first `k + 1` values are at or under position `k`, and only the first `k` can be strictly under it. */
  lemma SortedRank(s: seq<real>, k: nat)
    requires SortedBy(s, Ascending) && k < |s|
    ensures CountBelow(s, s[k], false) >= k + 1
    ensures CountBelow(s, s[k], true) <= k
  {
    AtMostRank(s, k);
    BelowRank(s, k);
  }

  lemma AtMostRank(s: seq<real>, k: nat)
    requires SortedBy(s, Ascending) && k < |s|
    ensures CountBelow(s, s[k], false) >= k + 1
  {
    var t := s[k];
    var front, back := s[..k + 1], s[k + 1..];
    assert s == front + back;
    forall i | 0 <= i < |front| ensures Below(front[i], t, false) {
      if i < k {
        assert Ascending(s[i], s[k]);
      }
    }
    CountBelowAll(front, t, false);
    CountBelowAppend(front, back, t, false);
  }

  lemma BelowRank(s: seq<real>, k: nat)
    requires SortedBy(s, Ascending) && k < |s|
    ensures CountBelow(s, s[k], true) <= k
  {
    var t := s[k];
    var front, back := s[..k], s[k..];
    assert s == front + back;
    forall i | 0 <= i < |back| ensures !Below(back[i], t, true) {
      assert back[i] == s[k + i];
      if i > 0 {
        assert Ascending(s[k], s[k + i]);
      }
    }
    CountBelowNone(back, t, true);
    CountBelowAppend(front, back, t, true);
  }

  // ---------------------------------------------------------------- trimming

  /** A point is kept when it is under both thresholds. */
  predicate Kept(b: Bubble, pc: Percentiles)
    ensures b.roi == pc.pRoi && b.investment == pc.pInvestment ==> Kept(b, pc)
    ensures b.roi > pc.pRoi || b.investment > pc.pInvestment ==> !Kept(b, pc)
  {
    b.roi <= pc.pRoi && b.investment <= pc.pInvestment
  }

  /**
   * `data.filter(d => d.roi <= pRoi && d.investment <= pInvestment)`: the
   * points under both thresholds, in their original order.
   */
  function DisplayData(data: seq<Bubble>, pc: Percentiles): (r: seq<Bubble>)
    ensures |r| <= |data|
    ensures forall b :: b in r <==> b in data && Kept(b, pc)
  {
    Filter(data, b => Kept(b, pc))
  }

  /** Displaying a concatenation displays each part in turn: the filter keeps the points' order. */
  lemma DisplayDataAppend(a: seq<Bubble>, b: seq<Bubble>, pc: Percentiles)
    ensures DisplayData(a + b, pc) == DisplayData(a, pc) + DisplayData(b, pc)
  {
    FilterAppend(a, b, b => Kept(b, pc));
  }

  /** `trimmedCount`: how many points the filter dropped; none exactly when every point is under both thresholds. */
  function TrimmedCount(data: seq<Bubble>, pc: Percentiles): (c: nat)
    ensures c == |data| - |DisplayData(data, pc)|
    ensures c == 0 <==> forall i :: 0 <= i < |data| ==> Kept(data[i], pc)
  {
    FilterKeepsAll(data, b => Kept(b, pc));
    |data| - |DisplayData(data, pc)|
  }

  // ---------------------------------------------------------------- what is shown

  /** What follows the count in the trimming notice. */
  function NoticeRest(trimmedCount: nat): string {
    if trimmedCount > 1 then " outliers trimmed" else " outlier trimmed"
  }

  /** The warning sign (U+26A0 with emoji presentation U+FE0F) and a space that open the notice. */
  const WarningPrefix: string := "\U{26A0}\U{FE0F} "

  /** The trimming notice: the warning sign, the count, then "outlier" or "outliers". */
  function TrimNotice(trimmedCount: nat): (notice: Option<string>)
    ensures notice.None? <==> trimmedCount == 0
    ensures notice.Some? ==> |WarningPrefix| < |notice.value| && notice.value[..|WarningPrefix|] == WarningPrefix
    ensures notice.Some? ==> ParseInt(notice.value[|WarningPrefix|..]) == Some(trimmedCount)
  {
    if trimmedCount == 0 then None
    else
      var count := IntToString(trimmedCount) + NoticeRest(trimmedCount);
      ParseIntToString(trimmedCount, NoticeRest(trimmedCount));
      assert (WarningPrefix + count)[..|WarningPrefix|] == WarningPrefix;
      assert (WarningPrefix + count)[|WarningPrefix|..] == count;
      Some(WarningPrefix + count)
  }

  /** The notice is plural exactly when more than one point was trimmed. */
  lemma TrimNoticePlural(trimmedCount: nat)
    requires trimmedCount > 0
    ensures var notice := TrimNotice(trimmedCount).value;
      var start := |WarningPrefix| + |IntToString(trimmedCount)|;
      start <= |notice| && notice[start..] == (if trimmedCount > 1 then " outliers trimmed" else " outlier trimmed")
  {
    var digits := IntToString(trimmedCount);
    var rest := NoticeRest(trimmedCount);
    assert TrimNotice(trimmedCount) == Some(WarningPrefix + (digits + rest));
    SuffixAfter(WarningPrefix, digits, rest);
  }

  /** What follows two leading pieces is the third piece. */
  lemma SuffixAfter(a: string, b: string, c: string)
    ensures (a + (b + c))[|a| + |b|..] == c
  {
  }

  /** What the quadrant chart renders. */
  datatype View = ErrorPanel(message: string) | NoDataPanel | ChartPanel(spinning: bool)

  /** An error overrides everything; with no error, empty data shows the no-data panel unless loading. */
  function QuadrantView(isLoading: bool, error: Option<string>, data: seq<Bubble>): (v: View)
    ensures v.ErrorPanel? <==> Truthy(error)
    ensures v.NoDataPanel? <==> !Truthy(error) && !isLoading && data == []
    ensures v.ChartPanel? ==> v.spinning == isLoading
  {
    if Truthy(error) then ErrorPanel(error.value)
    else if !isLoading && |data| == 0 then NoDataPanel
    else ChartPanel(isLoading)
  }
}
