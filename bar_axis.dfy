/**
 * The stacked bar chart: the y-axis it computes from the tallest stack,
 * which x-axis labels it draws, and the legend entries and bars it renders
 * per bar key. What it shows in place of the chart is `Panels.LoadingErrorEmpty`.
 */
module BarAxis {
  import opened Wrappers
  import opened JsCollections
  import opened Palette

  // ---------------------------------------------------------------- the y-axis

  /** `item[key] || 0`: a missing or undefined cell counts as 0. */
  function CellOr0(cells: Obj<Option<int>>, key: string): (v: int)
    ensures v != 0 ==> cells.Get(key) == Some(Some(v))
    ensures cells.Get(key).None? || cells.Get(key) == Some(None) ==> v == 0
  {
    match cells.Get(key)
    case Some(Some(v)) => v
    case _ => 0
  }

  /** `barKeys.reduce((sum, { key }) => sum + (item[key] || 0), 0)`: the height of one stack. */
  function StackHeight(cells: Obj<Option<int>>, barKeys: seq<SeriesKey>): (h: int)
    ensures (forall k :: 0 <= k < |barKeys| ==> cells.Get(barKeys[k].key).None?) ==> h == 0
  {
    if barKeys == [] then 0
    else
      assert forall k :: 0 <= k < |barKeys| - 1 ==> barKeys[..|barKeys| - 1][k] == barKeys[k];
      StackHeight(cells, barKeys[..|barKeys| - 1]) + CellOr0(cells, barKeys[|barKeys| - 1].key)
  }

  /** With no negative cell, a stack is at least as tall as any of its segments. */
  lemma {:induction false} StackCoversSegments(cells: Obj<Option<int>>, barKeys: seq<SeriesKey>, i: nat)
    requires forall k :: 0 <= k < |barKeys| ==> CellOr0(cells, barKeys[k].key) >= 0
    requires i < |barKeys|
    ensures 0 <= CellOr0(cells, barKeys[i].key) <= StackHeight(cells, barKeys)
  {
    var n := |barKeys| - 1;
    StackNonNegative(cells, barKeys[..n]);
    if i < n {
      StackCoversSegments(cells, barKeys[..n], i);
    }
  }

  lemma {:induction false} StackNonNegative(cells: Obj<Option<int>>, barKeys: seq<SeriesKey>)
    requires forall k :: 0 <= k < |barKeys| ==> CellOr0(cells, barKeys[k].key) >= 0
    ensures StackHeight(cells, barKeys) >= 0
  {
    if barKeys != [] {
      StackNonNegative(cells, barKeys[..|barKeys| - 1]);
    }
  }

  /** `Math.max(...stacks)`: the tallest stack of a non-empty chart. */
  function MaxValue(rows: seq<Obj<Option<int>>>, barKeys: seq<SeriesKey>): (m: int)
    requires |rows| > 0
    ensures forall i :: 0 <= i < |rows| ==> StackHeight(rows[i], barKeys) <= m
    ensures exists i :: 0 <= i < |rows| && StackHeight(rows[i], barKeys) == m
  {
    var h := StackHeight(rows[|rows| - 1], barKeys);
    if |rows| == 1 then h
    else
      var m := MaxValue(rows[..|rows| - 1], barKeys);
      assert forall i :: 0 <= i < |rows| - 1 ==> rows[..|rows| - 1][i] == rows[i];
      if h > m then h else m
  }

  /** `autoStep`: 5000 above 10000, 1000 above 1000, 100 above 100, else 10. */
  function AutoStep(maxValue: int): (step: int)
    ensures step in {10, 100, 1000, 5000}
    ensures step == 5000 <==> maxValue > 10000
    ensures step == 1000 <==> 1000 < maxValue <= 10000
    ensures step == 100 <==> 100 < maxValue <= 1000
    ensures step == 10 <==> maxValue <= 100
  {
    if maxValue > 10000 then 5000
    else if maxValue > 1000 then 1000
    else if maxValue > 100 then 100
    else 10
  }

  /** A taller chart never gets a finer step. */
  lemma AutoStepMonotone(a: int, b: int)
    requires a <= b
    ensures AutoStep(a) <= AutoStep(b)
  {
  }

  /** `Math.ceil(a / b)` for a positive divisor. */
  function CeilDiv(a: int, b: int): (q: int)
    requires b > 0
    ensures (q - 1) * b < a <= q * b
  {
    -((-a) / b)
  }

  /** `maxTick`: the least multiple of the step that is at least `maxValue`. */
  function MaxTick(maxValue: int, step: int): (t: int)
    requires step > 0
    ensures t % step == 0
    ensures maxValue <= t < maxValue + step
  {
    var q := CeilDiv(maxValue, step);
    assert q * step - step == (q - 1) * step;
    DivModUnique(q * step, step, q, 0);
    q * step
  }

  /** `Array.from({ length: maxTick / step + 1 }, (_, i) => i * step)`; a negative length gives none. */
  function Ticks(maxTick: int, step: int): (ticks: seq<int>)
    requires step > 0
    ensures |ticks| == if maxTick / step + 1 > 0 then maxTick / step + 1 else 0
    ensures forall i :: 0 <= i < |ticks| ==> ticks[i] == i * step
  {
    var n := maxTick / step + 1;
    seq(if n > 0 then n else 0, i => i * step)
  }

  /** The ticks start at 0, rise by one step at a time and end at `maxTick`. */
  lemma TicksShape(maxTick: int, step: int, i: nat)
    requires step > 0 && maxTick >= 0 && maxTick % step == 0
    ensures |Ticks(maxTick, step)| == maxTick / step + 1
    ensures Ticks(maxTick, step)[0] == 0
    ensures Ticks(maxTick, step)[|Ticks(maxTick, step)| - 1] == maxTick
    ensures i + 1 < |Ticks(maxTick, step)| ==> Ticks(maxTick, step)[i + 1] - Ticks(maxTick, step)[i] == step
  {
    var ticks := Ticks(maxTick, step);
    assert ticks[|ticks| - 1] == (maxTick / step) * step;
    if i + 1 < |ticks| {
      assert (i + 1) * step == i * step + step;
    }
  }

  /** The y-axis of a non-empty chart: its step, top and ticks. */
  datatype Axis = Axis(step: int, maxTick: int, ticks: seq<int>)

  function YAxis(rows: seq<Obj<Option<int>>>, barKeys: seq<SeriesKey>): (a: Axis)
    requires |rows| > 0
    ensures a.step > 0 && a.maxTick % a.step == 0
    ensures forall i :: 0 <= i < |rows| ==> StackHeight(rows[i], barKeys) <= a.maxTick
    ensures a.maxTick < MaxValue(rows, barKeys) + a.step
    ensures a.ticks == Ticks(a.maxTick, a.step)
  {
    var maxValue := MaxValue(rows, barKeys);
    var step := AutoStep(maxValue);
    var maxTick := MaxTick(maxValue, step);
    Axis(step, maxTick, Ticks(maxTick, step))
  }

  // ---------------------------------------------------------------- the x-axis labels

  /** Whether the x-axis label at `index` is drawn: every other one once there are more than 20. */
  function ShowLabel(payloadLength: nat, chartLength: nat, index: nat): (show: bool)
    ensures var total := if payloadLength > 0 then payloadLength else chartLength;
      show <==> total <= 20 || index % 2 == 0
  {
    var total := if payloadLength > 0 then payloadLength else chartLength;
    if total > 20 then index % 2 == 0 else true
  }

  /** How many of the first `n` labels are drawn. */
  function ShownCount(payloadLength: nat, chartLength: nat, n: nat): nat {
    if n == 0 then 0
    else ShownCount(payloadLength, chartLength, n - 1) + (if ShowLabel(payloadLength, chartLength, n - 1) then 1 else 0)
  }

  /** More than 20 labels are thinned to the even positions, about half of them; up to 20 are all drawn. */
  lemma {:induction false} ShownLabels(payloadLength: nat, chartLength: nat, n: nat)
    ensures var total := if payloadLength > 0 then payloadLength else chartLength;
      ShownCount(payloadLength, chartLength, n) == if total > 20 then (n + 1) / 2 else n
  {
    if n > 0 {
      ShownLabels(payloadLength, chartLength, n - 1);
    }
  }

  // ---------------------------------------------------------------- legend and bars

  /** One legend entry: `{ value: name, type: "rect", id: key, color }`. */
  datatype LegendEntry = LegendEntry(value: string, id: string, color: string)

  /** One stacked `<Bar dataKey={key} fill={color} name={name} stackId={1} />`. */
  datatype Bar = Bar(dataKey: string, fill: string, name: string)

  function Legend(barKeys: seq<SeriesKey>): (r: seq<LegendEntry>)
    ensures |r| == |barKeys|
  {
    seq(|barKeys|, i requires 0 <= i < |barKeys| => LegendEntry(barKeys[i].name, barKeys[i].key, barKeys[i].color))
  }

  function Bars(barKeys: seq<SeriesKey>): (r: seq<Bar>)
    ensures |r| == |barKeys|
  {
    seq(|barKeys|, i requires 0 <= i < |barKeys| => Bar(barKeys[i].key, barKeys[i].color, barKeys[i].name))
  }

  /** One legend entry and one bar per bar key, in bar-key order, agreeing on key, colour and name. */
  lemma LegendMatchesBars(barKeys: seq<SeriesKey>, i: nat)
    requires i < |barKeys|
    ensures Legend(barKeys)[i].id == Bars(barKeys)[i].dataKey == barKeys[i].key
    ensures Legend(barKeys)[i].color == Bars(barKeys)[i].fill == barKeys[i].color
    ensures Legend(barKeys)[i].value == Bars(barKeys)[i].name == barKeys[i].name
  {
  }
}
