/**
 * The channel and geo bubble charts: each API item becomes a bubble whose
 * y value is its D7 LTV capped at 10000, keyed by its index and coloured by
 * name through `generateColors`; the quadrant averages summarise the
 * bubbles; and a failed load empties only the panel it was for.
 */
module Bubbles {
  import opened Wrappers
  import opened JsCollections
  import opened Strings
  import opened Palette
  import opened Fetch

  /** One API item: `name`, `roas_d7`, `ltv_d7` and `cost`. */
  datatype ApiBubble = ApiBubble(name: string, roasD7: real, ltvD7: real, cost: real)

  /** One bubble: x is `roi`, y is `investment`, size is `contribution`. */
  datatype Bubble = Bubble(name: string, roi: real, investment: real, contribution: real, color: string, key: string)

  /** The y-axis cap on D7 LTV. */
  const LtvCap: real := 10000.0

  /** `Math.min(ltv, 10000)`. */
  function Capped(ltv: real): (y: real)
    ensures y <= LtvCap && y <= ltv
    ensures y == ltv || y == LtvCap
  {
    if ltv < LtvCap then ltv else LtvCap
  }

  /** A value already under the cap is kept as it is. */
  lemma CappedBelow(ltv: real)
    requires ltv <= LtvCap
    ensures Capped(ltv) == ltv
  {
  }

  /** The bubble names, in item order. */
  function Names(items: seq<ApiBubble>): (r: seq<string>)
    ensures |r| == |items| && forall i :: 0 <= i < |r| ==> r[i] == items[i].name
  {
    seq(|items|, i requires 0 <= i < |items| => items[i].name)
  }

  /** `colors[item.name]`, the empty string standing for `undefined`. */
  function ColorOf(colors: Obj<string>, name: string): string {
    colors.Get(name).GetOr("")
  }

  /** `finalData`: item `i` as a bubble keyed `String(i)` and coloured by name. */
  function BubbleData(items: seq<ApiBubble>): (r: seq<Bubble>)
    ensures |r| == |items|
    ensures forall i :: 0 <= i < |r| ==>
      && r[i].name == items[i].name
      && r[i].roi == items[i].roasD7
      && r[i].contribution == items[i].cost
      && r[i].investment <= LtvCap
      && (items[i].ltvD7 <= LtvCap ==> r[i].investment == items[i].ltvD7)
      && r[i].key == NatToString(i)
  {
    Coloured(items, Colors(Names(items), BaseColors))
  }

  /** Every item as a bubble under one colour map. */
  function Coloured(items: seq<ApiBubble>, colors: Obj<string>): (r: seq<Bubble>)
    ensures |r| == |items| && forall i :: 0 <= i < |r| ==> r[i] == ToBubble(items[i], colors, i)
  {
    seq(|items|, i requires 0 <= i < |items| => ToBubble(items[i], colors, i))
  }

  /** `{ name, roi: roas_d7, investment: Math.min(ltv_d7, 10000), contribution: cost, color, key: String(index) }`. */
  function ToBubble(item: ApiBubble, colors: Obj<string>, index: nat): Bubble {
    Bubble(item.name, item.roasD7, Capped(item.ltvD7), item.cost, ColorOf(colors, item.name), NatToString(index))
  }

  /** The mapping and colouring of a loaded payload: `generateColors` over the names, then one bubble per item. */
  method ProcessBubbles(items: seq<ApiBubble>) returns (finalData: seq<Bubble>)
    ensures finalData == BubbleData(items)
  {
    var colors := GenerateColors(Names(items));
    finalData := MapBubbles(items, colors);
  }

  /** `items.map((item, index) => ...)` under a fixed colour map. */
  method MapBubbles(items: seq<ApiBubble>, colors: Obj<string>) returns (finalData: seq<Bubble>)
    ensures finalData == Coloured(items, colors)
  {
    finalData := [];
    var index := 0;
    while index < |items|
      invariant 0 <= index <= |items|
      invariant |finalData| == index
      invariant forall k :: 0 <= k < index ==> finalData[k] == ToBubble(items[k], colors, k)
    {
      var before := finalData;
      finalData := before + [ToBubble(items[index], colors, index)];
      forall k | 0 <= k < index + 1 ensures finalData[k] == ToBubble(items[k], colors, k) {
        if k < index {
          assert finalData[k] == before[k];
        }
      }
      index := index + 1;
    }
  }

  /** A bubble's colour is the base colour of the last index carrying its name, so equal names share one colour. */
  lemma BubbleColor(items: seq<ApiBubble>, i: nat)
    requires i < |items|
    ensures BubbleData(items)[i].color == BaseColors[LastIndex(Names(items), items[i].name) % 27]
  {
    assert Names(items)[i] == items[i].name;
    ColorsLookup(Names(items), BaseColors, items[i].name);
  }

  /** Bubble keys are distinct: `String(i)` differs for different indices. */
  lemma BubbleKeysDistinct(items: seq<ApiBubble>, i: nat, j: nat)
    requires i < j < |items|
    ensures BubbleData(items)[i].key != BubbleData(items)[j].key
  {
    DigitsValueOfNat(i);
    DigitsValueOfNat(j);
  }

  // ---------------------------------------------------------------- averages

  /** `values.reduce((sum, val) => sum + val, 0)`. */
  function Sum(xs: seq<real>): real {
    if xs == [] then 0.0 else Sum(xs[..|xs| - 1]) + xs[|xs| - 1]
  }

  /** `Math.min(...xs)` of a non-empty list. */
  function Min(xs: seq<real>): (m: real)
    requires |xs| > 0
    ensures m in xs
    ensures forall i :: 0 <= i < |xs| ==> m <= xs[i]
  {
    if |xs| == 1 then xs[0]
    else
      var m := Min(xs[..|xs| - 1]);
      assert forall i :: 0 <= i < |xs| - 1 ==> xs[..|xs| - 1][i] == xs[i];
      if xs[|xs| - 1] < m then xs[|xs| - 1] else m
  }

  /** `Math.max(...xs)` of a non-empty list. */
  function Max(xs: seq<real>): (m: real)
    requires |xs| > 0
    ensures m in xs
    ensures forall i :: 0 <= i < |xs| ==> xs[i] <= m
  {
    if |xs| == 1 then xs[0]
    else
      var m := Max(xs[..|xs| - 1]);
      assert forall i :: 0 <= i < |xs| - 1 ==> xs[..|xs| - 1][i] == xs[i];
      if xs[|xs| - 1] > m then xs[|xs| - 1] else m
  }

  /** A sum lies between the count times the least and the count times the greatest element. */
  lemma {:induction false} SumBounds(xs: seq<real>, lo: real, hi: real)
    requires forall i :: 0 <= i < |xs| ==> lo <= xs[i] <= hi
    ensures |xs| as real * lo <= Sum(xs) <= |xs| as real * hi
  {
    if xs != [] {
      var p := xs[..|xs| - 1];
      assert forall i :: 0 <= i < |p| ==> p[i] == xs[i];
      SumBounds(p, lo, hi);
      assert Sum(xs) == Sum(p) + xs[|xs| - 1];
      assert |xs| as real == |p| as real + 1.0;
      AddWithinBounds(|p| as real, Sum(p), xs[|xs| - 1], lo, hi);
    }
  }

  /** One more element within `[lo, hi]` keeps a sum of `n` such elements within bounds. */
  lemma AddWithinBounds(n: real, total: real, x: real, lo: real, hi: real)
    requires n * lo <= total <= n * hi && lo <= x <= hi
    ensures (n + 1.0) * lo <= total + x <= (n + 1.0) * hi
  {
  }

  function Rois(data: seq<Bubble>): (r: seq<real>)
    ensures |r| == |data| && forall i :: 0 <= i < |r| ==> r[i] == data[i].roi
  {
    seq(|data|, i requires 0 <= i < |data| => data[i].roi)
  }

  function Investments(data: seq<Bubble>): (r: seq<real>)
    ensures |r| == |data| && forall i :: 0 <= i < |r| ==> r[i] == data[i].investment
  {
    seq(|data|, i requires 0 <= i < |data| => data[i].investment)
  }

  /** `values.reduce((sum, val) => sum + val, 0) / values.length` of a non-empty list. */
  function Mean(xs: seq<real>): (m: real)
    requires |xs| > 0
    ensures m * |xs| as real == Sum(xs)
  {
    Sum(xs) / |xs| as real
  }

  /** The mean of a non-empty list lies between its least and its greatest element. */
  lemma MeanBetween(xs: seq<real>)
    requires |xs| > 0
    ensures Min(xs) <= Mean(xs) <= Max(xs)
  {
    MeanBounds(xs, Min(xs), Max(xs));
  }

  /** A mean of values that all lie in `[lo, hi]` lies there too. */
  lemma MeanBounds(xs: seq<real>, lo: real, hi: real)
    requires |xs| > 0
    requires forall i :: 0 <= i < |xs| ==> lo <= xs[i] <= hi
    ensures lo <= Mean(xs) <= hi
  {
    SumBounds(xs, lo, hi);
    QuotientBounds(lo, Sum(xs), hi, |xs| as real);
  }

  lemma QuotientBounds(lo: real, total: real, hi: real, n: real)
    requires n > 0.0 && n * lo <= total <= n * hi
    ensures lo <= total / n <= hi
  {
    assert total / n * n == total;
    assert lo * n <= total / n * n;
  }

  datatype Averages = Averages(avgRoi: real, avgInvestment: real, minRoi: real, maxRoi: real,
                               minInvestment: real, maxInvestment: real)

  /** `calculateAverages`: fixed defaults when empty; otherwise the means and the ranges of both axes. */
  function CalculateAverages(data: seq<Bubble>): (a: Averages)
    ensures data == [] ==> a == Averages(0.0, 0.0, 0.0, 0.0, 0.0, 1.0)
    ensures data != [] ==>
      && a.avgRoi == Mean(Rois(data)) && a.avgInvestment == Mean(Investments(data))
      && (forall i :: 0 <= i < |data| ==> a.minRoi <= data[i].roi <= a.maxRoi)
      && (forall i :: 0 <= i < |data| ==> a.minInvestment <= data[i].investment <= a.maxInvestment)
      && a.minRoi in Rois(data) && a.maxRoi in Rois(data)
      && a.minInvestment in Investments(data) && a.maxInvestment in Investments(data)
  {
    if |data| == 0 then Averages(0.0, 0.0, 0.0, 0.0, 0.0, 1.0)
    else
      var rois, investments := Rois(data), Investments(data);
      Averages(Mean(rois), Mean(investments), Min(rois), Max(rois), Min(investments), Max(investments))
  }

  /** The averages lie within the ranges, so the quadrant lines cross inside the plotted points. */
  lemma AveragesWithinRanges(data: seq<Bubble>)
    requires data != []
    ensures var a := CalculateAverages(data);
      a.minRoi <= a.avgRoi <= a.maxRoi && a.minInvestment <= a.avgInvestment <= a.maxInvestment
  {
    MeanBetween(Rois(data));
    MeanBetween(Investments(data));
  }

  // ---------------------------------------------------------------- loading

  /** One bubble panel's state: its bubbles and error. */
  datatype Panel = Panel(data: seq<Bubble>, error: Option<string>)

  /**
   * `fetchBubbleData` of the channel or geo panel: nothing happens unless the
   * filters are ready; a status-200 array payload becomes the bubbles; any
   * other answer empties the data and sets the panel's failure message.
   */
  function LoadPanel(panel: Panel, ready: bool, response: Response<seq<ApiBubble>>, failure: string): (p: Panel)
    ensures !ready ==> p == panel
    ensures ready && Usable(response) ==> p == Panel(BubbleData(response.data.value), None)
    ensures ready && !Usable(response) ==> p == Panel([], Some(failure))
  {
    if !ready then panel
    else if Usable(response) then Panel(BubbleData(response.data.value), None)
    else Panel([], Some(failure))
  }

  const ChannelFailure: string := "Failed to load channel bubble data."
  const GeoFailure: string := "Failed to load geo bubble data."

  /** Which bubble chart a request is for. */
  datatype Kind = ChannelKind | GeoKind

  /** The overview's two bubble panels. */
  datatype QuadrantPanels = QuadrantPanels(channel: Panel, geo: Panel)

  /**
   * `fetchBubbleData(type)` of the overview's gradient chart: a 2xx status
   * is accepted, and a load of one kind leaves the other kind's panel as it was.
   */
  function FetchBubbleData(s: QuadrantPanels, kind: Kind, ready: bool, response: Response<seq<ApiBubble>>): (t: QuadrantPanels)
    ensures !ready ==> t == s
    ensures kind == ChannelKind ==> t.geo == s.geo
    ensures kind == GeoKind ==> t.channel == s.channel
    ensures ready && Ok(response) ==>
      (if kind == ChannelKind then t.channel else t.geo) == Panel(BubbleData(response.data.value), None)
    ensures ready && !Ok(response) ==>
      (if kind == ChannelKind then t.channel else t.geo) == Panel([], Some(if kind == ChannelKind then ChannelFailure else GeoFailure))
  {
    if !ready then s
    else
      var p := if Ok(response) then Panel(BubbleData(response.data.value), None)
               else Panel([], Some(if kind == ChannelKind then ChannelFailure else GeoFailure));
      if kind == ChannelKind then s.(channel := p) else s.(geo := p)
  }
}
