/**
 * The weekly channel charts: the API weeks are mapped to chart rows (a
 * `年W` week label, the per-channel revenue, the two ROAS values and an
 * index key), sorted by year and week, and the channels met across the rows
 * are collected in first-seen order, coloured from the 18-colour channel
 * palette and all made active. Each row then gains its total revenue, the
 * tooltip lists the entries that name a coloured channel, and one stacked
 * bar is drawn per coloured channel that is active.
 */
module Weekly {
  import opened Wrappers
  import opened JsCollections
  import opened Strings
  import opened Sorting
  import opened Palette
  import opened Fetch
  import opened Filtering

  // ---------------------------------------------------------------- rows

  /** One API item of the overview chart: `year`, `week`, `channels`, `roas_d0`, `roas_d7`. */
  datatype ApiWeek = ApiWeek(year: int, week: int, channels: Obj<int>, roasD0: real, roasD7: real)

  /** One API item of the weekly revenue panel: `week_to_date_range`, `channels`, `roas_d0`, `roas_d7`. */
  datatype ApiRangeWeek = ApiRangeWeek(weekToDateRange: string, channels: Obj<int>, roasD0: real, roasD7: real)

  /** A chart row: its x label, revenue per channel, `ROAS_D0`, `ROAS_D7` and `key`. */
  datatype ChartWeek = ChartWeek(week: string, channels: Obj<int>, roasD0: real, roasD7: real, key: string)

  /** What splits a week label into its year and week. */
  const WeekSep: string := "年W"

  /** `${year}年W${week}`: a label the sort comparator reads back as its year and week. */
  function WeekLabel(year: int, week: int): (text: string)
    ensures WeekNumbers(text) == WeekNo(year, week)
  {
    WeekNumbersOfLabel(year, week);
    IntToString(year) + WeekSep + IntToString(week)
  }

  /** `parseInt` of a label piece; a piece without digits (NaN) is read as 0. */
  function PieceNumber(piece: string): int {
    ParseInt(piece).GetOr(0)
  }

  /** A year and a week number. */
  datatype WeekNo = WeekNo(year: int, week: int)

  /**
   * `[parseInt(label.split("年W")[0]), parseInt(label.split("年W")[1])]`: a
   * piece without digits, and a missing week piece, read as 0.
   */
  function WeekNumbers(weekLabel: string): (r: WeekNo)
    ensures ParseInt(Split(weekLabel, WeekSep)[0]).None? ==> r.year == 0
    ensures |Split(weekLabel, WeekSep)| == 1 ==> r.week == 0
  {
    var pieces := Split(weekLabel, WeekSep);
    WeekNo(PieceNumber(pieces[0]), if |pieces| > 1 then PieceNumber(pieces[1]) else 0)
  }

  /** Splitting a label at `年W` and parsing the pieces gives back its year and week. */
  lemma WeekNumbersOfLabel(year: int, week: int)
    ensures WeekNumbers(IntToString(year) + WeekSep + IntToString(week)) == WeekNo(year, week)
  {
    var y, w := IntToString(year), IntToString(week);
    assert forall i :: 0 <= i < |y| ==> y[i] != WeekSep[0];
    assert forall i :: 0 <= i < |w| ==> w[i] != WeekSep[0];
    SplitAfterPiece(y, WeekSep, w);
    SplitWithoutSep(w, WeekSep);
    var pieces := Split(y + WeekSep + w, WeekSep);
    assert pieces == [y, w];
    ParseIntToString(year, []);
    ParseIntToString(week, []);
    assert y + [] == y && w + [] == w;
    assert PieceNumber(pieces[0]) == year;
    assert PieceNumber(pieces[1]) == week;
  }

  /** Item `index` of the overview payload as a row. */
  function LabelledWeek(item: ApiWeek, index: nat): ChartWeek {
    ChartWeek(WeekLabel(item.year, item.week), item.channels, item.roasD0, item.roasD7, NatToString(index))
  }

  /** `data.map((item, index) => ({ week: `${item.year}年W${item.week}`, ..., key: index.toString() }))`. */
  function LabelledWeeks(items: seq<ApiWeek>): (r: seq<ChartWeek>)
    ensures |r| == |items|
    ensures forall i :: 0 <= i < |r| ==> r[i] == LabelledWeek(items[i], i)
  {
    seq(|items|, i requires 0 <= i < |items| => LabelledWeek(items[i], i))
  }

  /** `yearA !== yearB ? yearA - yearB : weekA - weekB` is not positive. */
  predicate YearWeekLe(a: WeekNo, b: WeekNo) {
    a.year < b.year || (a.year == b.year && a.week <= b.week)
  }

  /** The sort comparator as "may come first", on the parsed labels. */
  predicate WeekLe(a: ChartWeek, b: ChartWeek) {
    YearWeekLe(WeekNumbers(a.week), WeekNumbers(b.week))
  }

  lemma WeekLeIsTotalPreorder()
    ensures IsTotalPreorder(WeekLe)
  {
  }

  /** `processedData`: the labelled rows, sorted by the parsed year and week. */
  function ProcessWeeks(items: seq<ApiWeek>): (r: seq<ChartWeek>)
    ensures multiset(r) == multiset(LabelledWeeks(items))
    ensures SortedBy(r, WeekLe)
    ensures forall e :: Ties(r, e, WeekLe) == Ties(LabelledWeeks(items), e, WeekLe)
  {
    WeekLeIsTotalPreorder();
    forall e ensures Ties(SortBy(LabelledWeeks(items), WeekLe), e, WeekLe) == Ties(LabelledWeeks(items), e, WeekLe) {
      SortByStable(LabelledWeeks(items), e, WeekLe);
    }
    SortBy(LabelledWeeks(items), WeekLe)
  }

  /** The year and week an API item is dated by. */
  function YearWeek(item: ApiWeek): WeekNo {
    WeekNo(item.year, item.week)
  }

  /** Every processed row is the labelled row of one of the items. */
  lemma ProcessedRowOrigin(items: seq<ApiWeek>, i: nat)
    requires i < |ProcessWeeks(items)|
    ensures exists k :: 0 <= k < |items| && ProcessWeeks(items)[i] == LabelledWeek(items[k], k)
  {
    var r := ProcessWeeks(items);
    assert r[i] in multiset(LabelledWeeks(items));
    var k :| 0 <= k < |LabelledWeeks(items)| && LabelledWeeks(items)[k] == r[i];
  }

  /** Rows come out in ascending numeric (year, week) order of the items they come from. */
  lemma ProcessedRowsByYearWeek(items: seq<ApiWeek>, i: nat, j: nat, a: nat, b: nat)
    requires i < j < |ProcessWeeks(items)| && a < |items| && b < |items|
    requires ProcessWeeks(items)[i] == LabelledWeek(items[a], a)
    requires ProcessWeeks(items)[j] == LabelledWeek(items[b], b)
    ensures YearWeekLe(YearWeek(items[a]), YearWeek(items[b]))
  {
    WeekNumbersOfLabel(items[a].year, items[a].week);
    WeekNumbersOfLabel(items[b].year, items[b].week);
    assert WeekLe(ProcessWeeks(items)[i], ProcessWeeks(items)[j]);
  }

  /** Item `index` of the weekly revenue payload as a row, in payload order. */
  function RangeWeek(item: ApiRangeWeek, index: nat): ChartWeek {
    ChartWeek(item.weekToDateRange, item.channels, item.roasD0, item.roasD7, NatToString(index))
  }

  /** The weekly revenue panel's mapping: no sort, the range string is the label. */
  function RangeWeeks(items: seq<ApiRangeWeek>): (r: seq<ChartWeek>)
    ensures |r| == |items|
    ensures forall i :: 0 <= i < |r| ==>
      && r[i].week == items[i].weekToDateRange && r[i].channels == items[i].channels
      && r[i].roasD0 == items[i].roasD0 && r[i].roasD7 == items[i].roasD7
      && r[i].key == NatToString(i)
  {
    seq(|items|, i requires 0 <= i < |items| => RangeWeek(items[i], i))
  }

  // ---------------------------------------------------------------- channels

  /** `rows.flatMap(item => Object.keys(item.channels))`. */
  function ChannelNames(rows: seq<ChartWeek>): seq<string> {
    if rows == [] then [] else ChannelNames(rows[..|rows| - 1]) + rows[|rows| - 1].channels.keys
  }

  /** A name is listed exactly when some row has a revenue entry for it. */
  lemma {:induction false} ChannelNamesMembers(rows: seq<ChartWeek>, c: string)
    ensures c in ChannelNames(rows) <==> exists i :: 0 <= i < |rows| && c in rows[i].channels.keys
  {
    if rows != [] {
      var p := rows[..|rows| - 1];
      ChannelNamesMembers(p, c);
      assert forall i :: 0 <= i < |p| ==> p[i] == rows[i];
      if c in rows[|rows| - 1].channels.keys {
        assert c in ChannelNames(rows);
      }
    }
  }

  /** `Array.from(new Set(...))`: the distinct channel names in first-seen order. */
  function AllChannels(rows: seq<ChartWeek>): (r: seq<string>)
    ensures Distinct(r)
    ensures forall c :: c in r <==> exists i :: 0 <= i < |rows| && c in rows[i].channels.keys
  {
    forall c ensures c in ChannelNames(rows) <==> exists i :: 0 <= i < |rows| && c in rows[i].channels.keys {
      ChannelNamesMembers(rows, c);
    }
    Dedup(ChannelNames(rows))
  }

  /** Channel `i` of the union gets the `i mod 18`-th channel colour. */
  lemma ChannelColor(rows: seq<ChartWeek>, i: nat)
    requires i < |AllChannels(rows)|
    ensures Colors(AllChannels(rows), ChannelBaseColors).Get(AllChannels(rows)[i]) == Some(ChannelBaseColors[i % 18])
  {
    ColorsOfDistinct(AllChannels(rows), ChannelBaseColors, i);
  }

  // ---------------------------------------------------------------- loading

  /** `new Set(channels)`. */
  function NewSet(channels: seq<string>): (r: set<string>)
    ensures forall c :: c in r <==> c in channels
  {
    set c | c in channels
  }

  /** A weekly chart's state: its rows, channel colours, active channels and error. */
  datatype WeeklyState = WeeklyState(chartData: seq<ChartWeek>, channelColors: Obj<string>,
                                     active: set<string>, error: Option<string>)

  const LoadFailure: string := "Failed to load chart data."

  /** The state after a successful load of `rows`: every channel coloured and active. */
  function Loaded(rows: seq<ChartWeek>): (s: WeeklyState)
    ensures s.chartData == rows && s.error == None
    ensures s.channelColors.Valid() && s.channelColors.keys == AllChannels(rows)
    ensures forall c :: c in s.active <==> c in s.channelColors.keys
  {
    var channels := AllChannels(rows);
    DedupOfDistinct(channels);
    WeeklyState(rows, Colors(channels, ChannelBaseColors), NewSet(channels), None)
  }

  /** The state after a failed load: empty rows, colours and active set, and the failure message. */
  function Failed(): WeeklyState {
    WeeklyState([], EmptyObj(), {}, Some(LoadFailure))
  }

  /** The channels, colours and active set of a loaded `rows`. */
  method Publish(rows: seq<ChartWeek>) returns (s: WeeklyState)
    ensures s == Loaded(rows)
  {
    var allChannels := AllChannels(rows);
    var newChannelColors := GenerateChannelColors(allChannels);
    s := WeeklyState(rows, newChannelColors, NewSet(allChannels), None);
  }

  /**
   * `fetchChartData` of the overview chart: nothing without the three
   * filters; a 2xx array payload is processed and sorted; any other answer
   * resets the state and reports the failure.
   */
  method FetchWeeklyRoas(s: WeeklyState, appToken: Option<string>, startDate: Option<string>, endDate: Option<string>,
                         response: Response<seq<ApiWeek>>) returns (t: WeeklyState)
    ensures !FiltersReady(appToken, startDate, endDate) ==> t == s
    ensures FiltersReady(appToken, startDate, endDate) && Ok(response) ==> t == Loaded(ProcessWeeks(response.data.value))
    ensures FiltersReady(appToken, startDate, endDate) && !Ok(response) ==> t == Failed()
  {
    if !FiltersReady(appToken, startDate, endDate) {
      return s;
    }
    if !Ok(response) {
      return Failed();
    }
    t := Publish(ProcessWeeks(response.data.value));
  }

  /** `fetchChartData` of the weekly revenue panel: status 200 only, rows in payload order. */
  method FetchWeeklyRevenue(s: WeeklyState, appToken: Option<string>, startDate: Option<string>, endDate: Option<string>,
                            response: Response<seq<ApiRangeWeek>>) returns (t: WeeklyState)
    ensures !FiltersReady(appToken, startDate, endDate) ==> t == s
    ensures FiltersReady(appToken, startDate, endDate) && Usable(response) ==> t == Loaded(RangeWeeks(response.data.value))
    ensures FiltersReady(appToken, startDate, endDate) && !Usable(response) ==> t == Failed()
  {
    if !FiltersReady(appToken, startDate, endDate) {
      return s;
    }
    if !Usable(response) {
      return Failed();
    }
    t := Publish(RangeWeeks(response.data.value));
  }

  // ---------------------------------------------------------------- totals

  /** The revenue of the channels `ks` of `o`, a missing entry counting 0. */
  function SumOver(o: Obj<int>, ks: seq<string>): int {
    if ks == [] then 0 else SumOver(o, ks[..|ks| - 1]) + o.Get(ks[|ks| - 1]).GetOr(0)
  }

  /** `Object.values(channels).reduce((sum, val) => sum + val, 0)`. */
  function ChannelTotal(o: Obj<int>): (total: int)
    ensures (forall i :: 0 <= i < |o.keys| ==> o.Get(o.keys[i]).GetOr(0) >= 0) ==> total >= 0
  {
    assert (forall i :: 0 <= i < |o.keys| ==> o.Get(o.keys[i]).GetOr(0) >= 0) ==> SumOver(o, o.keys) >= 0 by {
      if forall i :: 0 <= i < |o.keys| ==> o.Get(o.keys[i]).GetOr(0) >= 0 {
        SumOverNonNegative(o, o.keys);
      }
    }
    SumOver(o, o.keys)
  }

  /** Revenues that are all at least 0 sum to at least 0. */
  lemma {:induction false} SumOverNonNegative(o: Obj<int>, ks: seq<string>)
    requires forall i :: 0 <= i < |ks| ==> o.Get(ks[i]).GetOr(0) >= 0
    ensures SumOver(o, ks) >= 0
  {
    if ks != [] {
      SumOverNonNegative(o, ks[..|ks| - 1]);
    }
  }

  /** Storing `v` under one of `ks` shifts their sum by the change of that entry. */
  lemma {:induction false} SumOverPut(o: Obj<int>, k: string, v: int, ks: seq<string>)
    requires Distinct(ks)
    ensures SumOver(Put(o, k, v), ks) == SumOver(o, ks) + (if k in ks then v - o.Get(k).GetOr(0) else 0)
  {
    if ks != [] {
      var p := ks[..|ks| - 1];
      assert forall i, j :: 0 <= i < j < |p| ==> p[i] == ks[i] && p[j] == ks[j];
      SumOverPut(o, k, v, p);
      assert k in ks <==> k in p || k == ks[|ks| - 1];
    }
  }

  /** An empty record totals 0, and setting a channel's revenue changes the total by exactly the change. */
  lemma ChannelTotalPut(o: Obj<int>, k: string, v: int)
    requires o.Valid()
    ensures ChannelTotal(EmptyObj()) == 0
    ensures ChannelTotal(Put(o, k, v)) == ChannelTotal(o) - o.Get(k).GetOr(0) + v
  {
    var r := Put(o, k, v);
    assert r.Valid();
    SumOverPut(o, k, v, r.keys);
    if k !in o.vals {
      assert r.keys == o.keys + [k];
      assert r.keys[..|r.keys| - 1] == o.keys;
      SumOverPut(o, k, v, o.keys);
    }
  }

  /** A row with its `totalRevenue`. */
  datatype TotalledWeek = TotalledWeek(row: ChartWeek, totalRevenue: int)

  /** `chartData.map(weekData => ({ ...weekData, totalRevenue }))`: rows kept in number and order. */
  function WithTotals(rows: seq<ChartWeek>): (r: seq<TotalledWeek>)
    ensures |r| == |rows|
    ensures forall i :: 0 <= i < |r| ==> r[i].row == rows[i] && r[i].totalRevenue == ChannelTotal(rows[i].channels)
  {
    seq(|rows|, i requires 0 <= i < |rows| => TotalledWeek(rows[i], ChannelTotal(rows[i].channels)))
  }

  // ---------------------------------------------------------------- tooltip

  /** A tooltip payload entry: the series' `dataKey`, `name` and `value`. */
  datatype PayloadItem = PayloadItem(dataKey: string, name: string, value: Option<int>)

  /** `payload.filter(p => p.name in channelColors)`. */
  function TooltipChannels(payload: seq<PayloadItem>, colors: Obj<string>): (r: seq<PayloadItem>)
    ensures forall p :: p in r <==> p in payload && p.name in colors.vals
  {
    Filter(payload, (p: PayloadItem) => p.name in colors.vals)
  }

  /** `p.value || 0`. */
  function ValueOr0(p: PayloadItem): int {
    p.value.GetOr(0)
  }

  /** `(b.value || 0) - (a.value || 0)` is not positive: larger values first. */
  predicate ByValueDesc(a: PayloadItem, b: PayloadItem) {
    ValueOr0(a) >= ValueOr0(b)
  }

  lemma ByValueDescIsTotalPreorder()
    ensures IsTotalPreorder(ByValueDesc)
  {
  }

  /** The channels chart's tooltip rows: the channel entries by decreasing value. */
  function SortedTooltipChannels(payload: seq<PayloadItem>, colors: Obj<string>): (r: seq<PayloadItem>)
    ensures multiset(r) == multiset(TooltipChannels(payload, colors))
    ensures forall i, j :: 0 <= i < j < |r| ==> ValueOr0(r[i]) >= ValueOr0(r[j])
    ensures forall e :: Ties(r, e, ByValueDesc) == Ties(TooltipChannels(payload, colors), e, ByValueDesc)
  {
    ByValueDescIsTotalPreorder();
    var r := SortBy(TooltipChannels(payload, colors), ByValueDesc);
    assert forall i, j :: 0 <= i < j < |r| ==> ByValueDesc(r[i], r[j]);
    forall e ensures Ties(r, e, ByValueDesc) == Ties(TooltipChannels(payload, colors), e, ByValueDesc) {
      SortByStable(TooltipChannels(payload, colors), e, ByValueDesc);
    }
    r
  }

  /** The sorted tooltip shows exactly the payload entries that name a coloured channel. */
  lemma SortedTooltipMembers(payload: seq<PayloadItem>, colors: Obj<string>, p: PayloadItem)
    ensures p in SortedTooltipChannels(payload, colors) <==> p in payload && p.name in colors.vals
  {
    var r := SortedTooltipChannels(payload, colors);
    assert p in r <==> p in multiset(r);
    assert p in TooltipChannels(payload, colors) <==> p in multiset(TooltipChannels(payload, colors));
  }

  // ---------------------------------------------------------------- bars

  /** A stacked revenue bar: `dataKey`, `name` and `fill`. */
  datatype ChannelBar = ChannelBar(dataKey: string, name: string, fill: string)

  /** `channels.${channel}`. */
  function BarKey(channel: string): string {
    "channels." + channel
  }

  /** The colour-map channels that are active, in colour-map key order. */
  function ActiveChannels(colors: Obj<string>, active: set<string>): (r: seq<string>)
    ensures forall c :: c in r <==> c in colors.keys && c in active
  {
    Filter(colors.keys, c => c in active)
  }

  /** `Object.keys(channelColors).map(channel => activeChannels.has(channel) && <Bar .../>)`. */
  function Bars(colors: Obj<string>, active: set<string>): (r: seq<ChannelBar>)
    ensures |r| == |ActiveChannels(colors, active)|
    ensures forall i :: 0 <= i < |r| ==>
      var c := ActiveChannels(colors, active)[i];
      r[i] == ChannelBar(BarKey(c), c, colors.Get(c).GetOr(""))
  {
    var cs := ActiveChannels(colors, active);
    seq(|cs|, i requires 0 <= i < |cs| => ChannelBar(BarKey(cs[i]), cs[i], colors.Get(cs[i]).GetOr("")))
  }

  /** A bar is drawn for a channel exactly when it is a colour-map key and active. */
  lemma BarDrawn(colors: Obj<string>, active: set<string>, c: string)
    ensures (exists i :: 0 <= i < |Bars(colors, active)| && Bars(colors, active)[i].name == c) <==> c in colors.keys && c in active
  {
    var cs := ActiveChannels(colors, active);
    if c in cs {
      var i :| 0 <= i < |cs| && cs[i] == c;
      assert Bars(colors, active)[i].name == c;
    }
  }

  /** Bars follow colour-map key order: two bars come from two keys in the same order. */
  lemma BarsInKeyOrder(colors: Obj<string>, active: set<string>, i: nat, j: nat)
    requires i < j < |Bars(colors, active)|
    ensures exists a, b ::
      && 0 <= a < b < |colors.keys|
      && colors.keys[a] == Bars(colors, active)[i].name
      && colors.keys[b] == Bars(colors, active)[j].name
  {
    FilterOrder(colors.keys, c => c in active, i, j);
  }

  /** With every channel active, one bar per colour-map key, in key order. */
  lemma AllActiveBars(colors: Obj<string>, active: set<string>)
    requires forall c :: c in colors.keys ==> c in active
    ensures |Bars(colors, active)| == |colors.keys|
    ensures forall i :: 0 <= i < |colors.keys| ==> Bars(colors, active)[i].name == colors.keys[i]
  {
    FilterKeepsAll(colors.keys, c => c in active);
  }

  // ---------------------------------------------------------------- display

  /** The channels chart's body under its error line. */
  datatype Body = ChartBody | NoDataBody | Blank

  /** The channels chart: an error line when there is an error, then the chart, the no-data message or nothing. */
  datatype ChannelsView = ChannelsView(errorLine: Option<string>, body: Body)

  function ChannelsChartView(isLoading: bool, error: Option<string>, rows: seq<TotalledWeek>): (v: ChannelsView)
    ensures v.errorLine.Some? <==> Truthy(error)
    ensures v.errorLine.Some? ==> v.errorLine == error
    ensures v.body == ChartBody <==> |rows| > 0
    ensures v.body == NoDataBody <==> |rows| == 0 && !isLoading
  {
    ChannelsView(if Truthy(error) then error else None,
                 if |rows| > 0 then ChartBody else if !isLoading then NoDataBody else Blank)
  }
}
