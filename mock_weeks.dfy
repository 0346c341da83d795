/**
 * The two static weekly ROAS pages: a fixed colour map of eleven channels,
 * all of them active at first, weekly mock revenue totalled per week, and
 * (on the dashboard page) a scrollable legend built from the chart's
 * payload, whose entries toggle the channel they name.
 */
module MockWeeks {
  import opened Wrappers
  import opened JsCollections
  import opened Strings
  import opened Filtering
  import opened ChannelToggle
  import opened Weekly

  /** The eleven channels of the static pages, in declaration order. */
  const MockChannels: seq<string> :=
    ["Appier", "Apple", "Applovin", "Bilibili (呼噜哔哩)", "Facebook", "Google Ads",
     "IronSource", "MOLOCO", "Mintegral", "Ocean Engine", "Persona.ly"]

  lemma MockChannelsDistinct()
    ensures Distinct(MockChannels)
  {
  }

  /** `channelColors` of the static pages. */
  function MockChannelColors(): (o: Obj<string>)
    ensures o.Valid() && o.keys == MockChannels
  {
    MockChannelsDistinct();
    Record(MockChannels, ["#8884d8", "#f08080", "#82ca9d", "#87ceeb", "#4682b4", "#f4a460",
                          "#dda0dd", "#6495ed", "#ffb6c1", "#ffa07a", "#cd5c5c"])
  }

  /** `new Set(Object.keys(channelColors))`: the active set a static page starts with. */
  function InitialActive(): (r: set<string>)
    ensures forall c :: c in r <==> c in MockChannelColors().keys
  {
    NewSet(MockChannelColors().keys)
  }

  /** All eleven channels of the colour map start active. */
  lemma InitialActiveIsAllChannels()
    ensures |InitialActive()| == 11
  {
    MockChannelsDistinct();
    DistinctCardinality(MockChannels);
  }

  /** A duplicate-free list has as many elements as the set of them. */
  lemma {:induction false} DistinctCardinality(s: seq<string>)
    requires Distinct(s)
    ensures |NewSet(s)| == |s|
  {
    if s != [] {
      var p := s[..|s| - 1];
      assert forall i, j :: 0 <= i < j < |p| ==> p[i] == s[i] && p[j] == s[j];
      DistinctCardinality(p);
      assert NewSet(s) == NewSet(p) + {s[|s| - 1]};
      assert s[|s| - 1] !in NewSet(p);
    }
  }

  /** The channel revenue of the first week of the 7-week page, "2024年11月". */
  const November2024Revenue: seq<int> := [1200, 800, 900, 600, 1000, 1100, 800, 900, 700, 600, 500]

  /** The channel revenue of the first week of the dashboard page, "2025年2月". */
  const February2025Revenue: seq<int> := [2000, 1500, 1800, 1200, 1700, 1900, 1100, 1400, 1300, 1000, 900]

  /** A week's `channels` record: the eleven channels with the given revenue. */
  function MockWeekChannels(revenue: seq<int>): (o: Obj<int>)
    requires |revenue| == 11
    ensures o.Valid() && o.keys == MockChannels
    ensures forall i :: 0 <= i < 11 ==> o.Get(MockChannels[i]) == Some(revenue[i])
  {
    MockChannelsDistinct();
    Record(MockChannels, revenue)
  }

  /** `values.reduce((sum, val) => sum + val, 0)` over a list of numbers. */
  function SumInts(xs: seq<int>): int {
    if xs == [] then 0 else SumInts(xs[..|xs| - 1]) + xs[|xs| - 1]
  }

  /** Adding the next element to a prefix adds it to the sum. */
  lemma SumIntsSnoc(xs: seq<int>, k: nat)
    requires k < |xs|
    ensures SumInts(xs[..k + 1]) == SumInts(xs[..k]) + xs[k]
  {
    assert xs[..k + 1][..k] == xs[..k];
  }

  /** The sum of eleven numbers, one prefix at a time. */
  lemma SumOfEleven(xs: seq<int>)
    requires |xs| == 11
    ensures SumInts(xs) == xs[0] + xs[1] + xs[2] + xs[3] + xs[4] + xs[5] + xs[6] + xs[7] + xs[8] + xs[9] + xs[10]
  {
    assert xs[..0] == [];
    SumIntsSnoc(xs, 0); SumIntsSnoc(xs, 1); SumIntsSnoc(xs, 2); SumIntsSnoc(xs, 3);
    SumIntsSnoc(xs, 4); SumIntsSnoc(xs, 5); SumIntsSnoc(xs, 6); SumIntsSnoc(xs, 7);
    SumIntsSnoc(xs, 8); SumIntsSnoc(xs, 9); SumIntsSnoc(xs, 10);
    assert xs[..11] == xs;
  }

  /** A record listing `values` under distinct keys totals their sum. */
  lemma {:induction false} RecordTotal(keys: seq<string>, values: seq<int>, n: nat)
    requires |keys| == |values| && Distinct(keys) && n <= |keys|
    ensures SumOver(Record(keys, values), keys[..n]) == SumInts(values[..n])
  {
    if n > 0 {
      assert keys[..n][..n - 1] == keys[..n - 1];
      assert values[..n][..n - 1] == values[..n - 1];
      RecordTotal(keys, values, n - 1);
    }
  }

  /** A static week's total is the sum of its eleven channel revenues. */
  lemma MockWeekTotal(revenue: seq<int>)
    requires |revenue| == 11
    ensures ChannelTotal(MockWeekChannels(revenue)) == SumInts(revenue)
  {
    MockChannelsDistinct();
    RecordTotalAll(MockChannels, revenue);
  }

  /** A record listing `values` under distinct keys totals their sum. */
  lemma RecordTotalAll(keys: seq<string>, values: seq<int>)
    requires |keys| == |values| && Distinct(keys)
    ensures ChannelTotal(Record(keys, values)) == SumInts(values)
  {
    RecordTotal(keys, values, |keys|);
    assert keys[..|keys|] == keys;
    assert values[..|values|] == values;
  }

  /** Week "2024年11月" has a total revenue of 9100. */
  lemma November2024Total()
    ensures ChannelTotal(MockWeekChannels(November2024Revenue)) == 9100
  {
    MockWeekTotal(November2024Revenue);
    SumOfEleven(November2024Revenue);
  }


  /** Week "2025年2月" has a total revenue of 15800. */
  lemma February2025Total()
    ensures ChannelTotal(MockWeekChannels(February2025Revenue)) == 15800
  {
    MockWeekTotal(February2025Revenue);
    SumOfEleven(February2025Revenue);
  }


  // ---------------------------------------------------------------- scrollable legend

  /** A legend payload entry: the series' `dataKey` and `color`. */
  datatype LegendPayload = LegendPayload(dataKey: string, color: string)

  /** A rendered legend entry: the channel it toggles, its colour, and whether it is shown as active. */
  datatype LegendEntry = LegendEntry(channelName: string, color: string, active: bool)

  const ChannelPrefix: string := "channels."

  /** `s.startsWith(prefix)`. */
  predicate StartsWith(s: string, prefix: string) {
    |prefix| <= |s| && s[..|prefix|] == prefix
  }

  /** `payload.filter(entry => entry.dataKey.startsWith("channels."))`. */
  function ChannelPayload(payload: seq<LegendPayload>): (r: seq<LegendPayload>)
    ensures forall e :: e in r <==> e in payload && StartsWith(e.dataKey, ChannelPrefix)
  {
    Filter(payload, (e: LegendPayload) => StartsWith(e.dataKey, ChannelPrefix))
  }

  /** `entry.dataKey.split(".")[1]` of a channel key: the text up to the next "." after the prefix. */
  function LegendNameAsWritten(dataKey: string): (name: string)
    requires StartsWith(dataKey, ChannelPrefix)
    ensures name == Split(dataKey[|ChannelPrefix|..], ".")[0]
  {
    var rest := dataKey[|ChannelPrefix|..];
    assert dataKey == "channels" + "." + rest;
    SplitAfterPiece("channels", ".", rest);
    Split(dataKey, ".")[1]
  }

  /** The channel named by a channel key: everything after the "channels." prefix. */
  function LegendName(dataKey: string): (name: string)
    requires StartsWith(dataKey, ChannelPrefix)
    ensures ChannelPrefix + name == dataKey
  {
    dataKey[|ChannelPrefix|..]
  }

  /** The legend reads back the channel of every bar key. */
  lemma LegendNameOfBarKey(channel: string)
    ensures StartsWith(BarKey(channel), ChannelPrefix)
    ensures LegendName(BarKey(channel)) == channel
  {
    assert BarKey(channel) == ChannelPrefix + channel;
    assert (ChannelPrefix + channel)[..|ChannelPrefix|] == ChannelPrefix;
  }

  /** As written, the legend reads back the channel of a bar key only when the channel has no ".". */
  lemma LegendNameAsWrittenWithoutDot(channel: string)
    requires Lacks(channel, '.')
    ensures StartsWith(BarKey(channel), ChannelPrefix)
    ensures LegendNameAsWritten(BarKey(channel)) == channel
  {
    LegendNameOfBarKey(channel);
    assert BarKey(channel)[|ChannelPrefix|..] == channel;
    SplitWithoutSep(channel, ".");
  }

  /** "Persona.ly"'s legend entry, as written, is named "Persona", which is not a channel of the colour map. */
  lemma PersonaLyLegendName()
    ensures StartsWith(BarKey("Persona.ly"), ChannelPrefix)
    ensures LegendNameAsWritten(BarKey("Persona.ly")) == "Persona"
    ensures "Persona" !in MockChannelColors().keys
  {
    LegendNameOfBarKey("Persona.ly");
    assert BarKey("Persona.ly")[|ChannelPrefix|..] == "Persona.ly";
    assert "Persona.ly" == "Persona" + "." + "ly";
    SplitAfterPiece("Persona", ".", "ly");
    PersonaIsNotAChannel();
  }

  /** No channel of the colour map is called "Persona". */
  lemma PersonaIsNotAChannel()
    ensures "Persona" !in MockChannelColors().keys
  {
    assert MockChannelColors().keys == MockChannels;
    forall i | 0 <= i < |MockChannels|
      ensures MockChannels[i] != "Persona"
    {
      assert |MockChannels[i]| != |"Persona"|;
    }
  }

  /**
   * As written, clicking "Persona.ly"'s legend entry never changes whether
   * "Persona.ly" is active. The page mounts its legend outside the chart, where
   * it gets no payload and shows no entries, so this shows only once it does.
   */
  lemma PersonaLyNeverToggles(active: set<string>)
    ensures StartsWith(BarKey("Persona.ly"), ChannelPrefix)
    ensures "Persona.ly" in Toggled(active, LegendNameAsWritten(BarKey("Persona.ly"))) <==> "Persona.ly" in active
  {
    PersonaLyLegendName();
  }

  /** One legend entry per channel series, as written. */
  function LegendAsWritten(payload: Option<seq<LegendPayload>>, active: set<string>): (r: Option<seq<LegendEntry>>)
    ensures payload.None? <==> r.None?
    ensures payload.Some? ==> |r.value| == |ChannelPayload(payload.value)|
  {
    match payload
    case None => None
    case Some(entries) =>
      var cs := ChannelPayload(entries);
      Some(seq(|cs|, i requires 0 <= i < |cs| =>
        LegendEntry(LegendNameAsWritten(cs[i].dataKey), cs[i].color, LegendNameAsWritten(cs[i].dataKey) in active)))
  }

  /**
   * `renderScrollableLegend`: nothing for an undefined payload; otherwise one
   * entry per channel series, named by the channel after the prefix.
   */
  function Legend(payload: Option<seq<LegendPayload>>, active: set<string>): (r: Option<seq<LegendEntry>>)
    ensures payload.None? <==> r.None?
    ensures payload.Some? ==> |r.value| == |ChannelPayload(payload.value)|
    ensures payload.Some? ==> forall i :: 0 <= i < |r.value| ==>
      var e := ChannelPayload(payload.value)[i];
      && ChannelPrefix + r.value[i].channelName == e.dataKey
      && r.value[i].color == e.color
      && (r.value[i].active <==> r.value[i].channelName in active)
  {
    match payload
    case None => None
    case Some(entries) =>
      var cs := ChannelPayload(entries);
      assert forall i :: 0 <= i < |cs| ==> StartsWith(cs[i].dataKey, ChannelPrefix) by {
        forall i | 0 <= i < |cs| ensures StartsWith(cs[i].dataKey, ChannelPrefix) {
          assert cs[i] in cs;
        }
      }
      Some(seq(|cs|, i requires 0 <= i < |cs| =>
        LegendEntry(LegendName(cs[i].dataKey), cs[i].color, LegendName(cs[i].dataKey) in active)))
  }

  /** Clicking the legend entry of a channel's bar toggles exactly that channel, whatever its name. */
  lemma LegendClickTogglesBarChannel(active: set<string>, channel: string)
    ensures StartsWith(BarKey(channel), ChannelPrefix)
    ensures channel in Toggled(active, LegendName(BarKey(channel))) <==> channel !in active
  {
    LegendNameOfBarKey(channel);
  }
}
