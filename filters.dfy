/**
 * The filter bars' selection rules. A multi-select holds a list of option
 * values; choosing the "all" sentinel replaces the selection by every option
 * value, or clears it when the selection already has as many entries as there
 * are options (a count, not a set, comparison). Any other change replaces the
 * selection verbatim, and every updater leaves the other filter fields as
 * they were.
 */
module Filters {
  import opened Wrappers
  import opened Strings
  import opened Fetch

  /** The value of the select-all option. */
  const AllSentinel: string := "all"

  /** A selectable option: its display text (`name` or `label`) and its value. */
  datatype Choice = Choice(text: string, value: string)

  /** `options.map(opt => opt.value)`. */
  function Values(options: seq<Choice>): (r: seq<string>)
    ensures |r| == |options| && forall i :: 0 <= i < |r| ==> r[i] == options[i].value
  {
    seq(|options|, i requires 0 <= i < |options| => options[i].value)
  }

  // ---------------------------------------------------------------- the "all" toggle

  /** `isAllSelected`: the selection has as many entries as there are options. */
  predicate AllSelected(selection: seq<string>, optionCount: nat) {
    |selection| == optionCount
  }

  /** The selection after picking "all": cleared when all are selected, otherwise every option value. */
  function ToggleAll(selection: seq<string>, values: seq<string>): (r: seq<string>)
    ensures AllSelected(selection, |values|) ==> r == []
    ensures !AllSelected(selection, |values|) ==> r == values && AllSelected(r, |values|)
  {
    if AllSelected(selection, |values|) then [] else values
  }

  /** With some options, "all" alternates between every option and none. */
  lemma ToggleAllAlternates(values: seq<string>)
    requires |values| > 0
    ensures ToggleAll([], values) == values
    ensures ToggleAll(values, values) == []
    ensures ToggleAll(ToggleAll([], values), values) == []
  {
  }

  /** "All selected" counts entries: one stray value counts as the whole of a one-option list. */
  lemma AllSelectedIsACount()
    ensures AllSelected(["stray"], |["only"]|) && "stray" !in ["only"]
    ensures ToggleAll(["stray"], ["only"]) == []
  {
  }

  /** `onChange(value)` of a multi-select with the sentinel: "all" toggles, anything else is taken verbatim. */
  function Selection(current: seq<string>, picked: seq<string>, values: seq<string>): (r: seq<string>)
    ensures AllSentinel !in picked ==> r == picked
    ensures AllSentinel in picked && AllSelected(current, |values|) ==> r == []
    ensures AllSentinel in picked && !AllSelected(current, |values|) ==> r == values
  {
    if AllSentinel in picked then ToggleAll(current, values) else picked
  }

  // ---------------------------------------------------------------- option lists and placeholders

  /** A dropdown entry: its label and value. */
  datatype SelectOption = SelectOption(text: string, value: string)

  /** The sentinel's label: "Unselect All" when all are selected, else "Select All". */
  function SentinelLabel(selection: seq<string>, optionCount: nat): (l: string)
    ensures l == "Unselect All" <==> AllSelected(selection, optionCount)
  {
    if AllSelected(selection, optionCount) then "Unselect All" else "Select All"
  }

  /** No options when there are none; otherwise the sentinel first, then one entry per option. */
  function DropdownOptions(selection: seq<string>, options: seq<Choice>): (r: seq<SelectOption>)
    ensures options == [] <==> r == []
    ensures options != [] ==>
      && |r| == |options| + 1
      && r[0] == SelectOption(SentinelLabel(selection, |options|), AllSentinel)
      && forall i :: 0 <= i < |options| ==> r[i + 1] == SelectOption(options[i].text, options[i].value)
  {
    if options == [] then []
    else
      [SelectOption(SentinelLabel(selection, |options|), AllSentinel)]
      + seq(|options|, i requires 0 <= i < |options| => SelectOption(options[i].text, options[i].value))
  }

  /** `maxTagCount`: one tag when exactly one entry is selected, none otherwise. */
  function MaxTagCount(selection: seq<string>): (n: nat)
    ensures n == 1 <==> |selection| == 1
    ensures n <= 1
  {
    if |selection| == 1 then 1 else 0
  }

  /** `${n} <noun> selected`. */
  function CountText(n: nat, noun: string): (t: string)
    ensures ParseInt(t) == Some(n)
  {
    var rest := " " + noun + " selected";
    assert rest[0] == ' ';
    ParseIntToString(n, rest);
    IntToString(n) + rest
  }

  /** The placeholder of the UA channel and country selects: "All Selected <kind>" or the count. */
  function UaPlaceholder(selection: seq<string>, optionCount: nat, kind: string, noun: string): (t: string)
    ensures AllSelected(selection, optionCount) ==> t == "All Selected " + kind
    ensures !AllSelected(selection, optionCount) ==> ParseInt(t) == Some(|selection|)
  {
    if AllSelected(selection, optionCount) then "All Selected " + kind else CountText(|selection|, noun)
  }

  /** `options.find(opt => opt.value === v)?.label`: the first matching option's label. */
  function FindLabel(options: seq<Choice>, v: string): (l: Option<string>)
    ensures l.None? <==> forall i :: 0 <= i < |options| ==> options[i].value != v
    ensures l.Some? ==> exists i :: 0 <= i < |options| && options[i].value == v && options[i].text == l.value
  {
    if options == [] then None
    else if options[0].value == v then Some(options[0].text)
    else
      var rest := FindLabel(options[1..], v);
      assert forall i :: 1 <= i < |options| ==> options[1..][i - 1] == options[i];
      rest
  }

  /**
   * The placeholder of the product country and platform selects: "All
   * Selected" first, then the single option's label (`None` for
   * `undefined` when no option matches), then the count.
   */
  function ProductPlaceholder(selection: seq<string>, options: seq<Choice>, noun: string): (t: Option<string>)
    ensures AllSelected(selection, |options|) ==> t == Some("All Selected")
    ensures !AllSelected(selection, |options|) && |selection| == 1 ==> t == FindLabel(options, selection[0])
    ensures !AllSelected(selection, |options|) && |selection| != 1 ==> t.Some? && ParseInt(t.value) == Some(|selection|)
  {
    if AllSelected(selection, |options|) then Some("All Selected")
    else if |selection| == 1 then FindLabel(options, selection[0])
    else Some(CountText(|selection|, noun))
  }

  /** One option and one selected entry reads "All Selected", even when the entry is not that option. */
  lemma SingleOptionReadsAllSelected(option: Choice, entry: string)
    ensures ProductPlaceholder([entry], [option], "countries") == Some("All Selected")
  {
  }

  // ---------------------------------------------------------------- UA filter state

  /** The UA pages' filters. */
  datatype FilterState = FilterState(appToken: Option<string>, channels: seq<string>, countries: seq<string>,
                                     startDate: Option<string>, endDate: Option<string>)

  /** `handleChannelChange`: only `channels` changes. */
  function ChannelChange(prev: FilterState, picked: seq<string>, allChannels: seq<Choice>): (next: FilterState)
    ensures next == prev.(channels := next.channels)
    ensures next.channels == Selection(prev.channels, picked, Values(allChannels))
  {
    prev.(channels := Selection(prev.channels, picked, Values(allChannels)))
  }

  /** `handleCountryChange` of the UA country select: only `countries` changes. */
  function CountryChange(prev: FilterState, picked: seq<string>, allCountries: seq<Choice>): (next: FilterState)
    ensures next == prev.(countries := next.countries)
    ensures next.countries == Selection(prev.countries, picked, Values(allCountries))
  {
    prev.(countries := Selection(prev.countries, picked, Values(allCountries)))
  }

  /** Changing the app sets only `appToken`. */
  function AppChange(prev: FilterState, app: string): (next: FilterState)
    ensures next == prev.(appToken := Some(app))
    ensures next.channels == prev.channels && next.countries == prev.countries
    ensures next.startDate == prev.startDate && next.endDate == prev.endDate
  {
    prev.(appToken := Some(app))
  }

  /** The overview's country select has no sentinel: the selection is taken verbatim, "all" included. */
  function PlainCountryChange(prev: FilterState, picked: seq<string>): (next: FilterState)
    ensures next == prev.(countries := picked)
    ensures next.appToken == prev.appToken && next.channels == prev.channels
  {
    prev.(countries := picked)
  }

  /** The overview's country options: one per country, no sentinel. */
  function PlainOptions(options: seq<Choice>): (r: seq<SelectOption>)
    ensures |r| == |options|
    ensures forall i :: 0 <= i < |r| ==> r[i] == SelectOption(options[i].text, options[i].value)
  {
    seq(|options|, i requires 0 <= i < |options| => SelectOption(options[i].text, options[i].value))
  }

  /** The overview's `maxTagPlaceholder`: the count when something is selected, `undefined` otherwise. */
  function SelectedCountText(selected: seq<string>, noun: string): (t: Option<string>)
    ensures t.None? <==> selected == []
    ensures t.Some? ==> ParseInt(t.value) == Some(|selected|)
  {
    if |selected| > 0 then Some(CountText(|selected|, noun)) else None
  }

  /**
   * The default-app-token effect: with no app chosen, some app options and
   * nothing loading, the first option's value becomes the app; otherwise
   * nothing changes.
   */
  function DefaultAppToken(filters: FilterState, allAppTokens: seq<Choice>, isLoading: bool): (next: FilterState)
    ensures !Truthy(filters.appToken) && |allAppTokens| > 0 && !isLoading ==>
      next == filters.(appToken := Some(allAppTokens[0].value))
    ensures Truthy(filters.appToken) || |allAppTokens| == 0 || isLoading ==> next == filters
  {
    if !Truthy(filters.appToken) && |allAppTokens| > 0 && !isLoading then
      filters.(appToken := Some(allAppTokens[0].value))
    else filters
  }

  /** Running the effect again changes nothing. */
  lemma DefaultAppTokenIdempotent(filters: FilterState, allAppTokens: seq<Choice>, isLoading: bool)
    ensures DefaultAppToken(DefaultAppToken(filters, allAppTokens, isLoading), allAppTokens, isLoading)
         == DefaultAppToken(filters, allAppTokens, isLoading)
  {
  }

  /** Once a non-empty first option has been applied, the effect's guard is false. */
  lemma DefaultAppTokenSettles(filters: FilterState, allAppTokens: seq<Choice>, isLoading: bool)
    requires |allAppTokens| > 0 && allAppTokens[0].value != "" && !isLoading
    ensures Truthy(DefaultAppToken(filters, allAppTokens, isLoading).appToken)
  {
  }

  // ---------------------------------------------------------------- the static UA filter bar

  /** The fifteen channels of the static UA filter bar. */
  const StaticChannels: seq<string> :=
    ["Appier", "Apple", "Applovin", "Bilibili (呼噜哔哩)", "Facebook", "Google Ads", "IronSource",
     "MOLOCO", "Mintegral", "Ocean Engine", "Persona.ly", "TikTok", "Snapchat", "Twitter", "Unity"]

  /** The static bar's selection step: "all" toggles between the fifteen channels and none. */
  function StaticChannelChange(selected: seq<string>, picked: seq<string>): (next: seq<string>)
    ensures AllSentinel !in picked ==> next == picked
    ensures AllSentinel in picked && |selected| == 15 ==> next == []
    ensures AllSentinel in picked && |selected| != 15 ==> next == StaticChannels
  {
    Selection(selected, picked, StaticChannels)
  }

  /** The static bar's options: the sentinel, then the fifteen channels labelled by themselves. */
  function StaticOptions(selected: seq<string>): (r: seq<SelectOption>)
    ensures |r| == 16
    ensures r[0].value == AllSentinel && (r[0].text == "Unselect All" <==> |selected| == 15)
    ensures forall i :: 0 <= i < 15 ==> r[i + 1] == SelectOption(StaticChannels[i], StaticChannels[i])
  {
    [SelectOption(SentinelLabel(selected, 15), AllSentinel)]
    + seq(15, i requires 0 <= i < 15 => SelectOption(StaticChannels[i], StaticChannels[i]))
  }

  // ---------------------------------------------------------------- product filter state

  /** A start and an end date, either of which may be unset. */
  datatype DateRange = DateRange(start: Option<string>, end: Option<string>)

  /** The product pages' filters. */
  datatype ProductFilterState = ProductFilterState(game: Option<string>, countries: seq<string>, dateRange: DateRange)

  /** `filters.game ? [filters.game] : []`: the game select's value. */
  function GameSelection(filters: ProductFilterState): (r: seq<string>)
    ensures Truthy(filters.game) ==> r == [filters.game.value]
    ensures !Truthy(filters.game) <==> r == []
  {
    if Truthy(filters.game) then [filters.game.value] else []
  }

  /** As written: `game: val[0] || null` applied to the single value the select emits keeps its first character. */
  function GameChangeAsWritten(prev: ProductFilterState, val: string): (next: ProductFilterState)
    ensures next == prev.(game := next.game)
    ensures val == "" ==> next.game == None
    ensures val != "" ==> next.game == Some([val[0]])
  {
    prev.(game := if |val| > 0 then Some([val[0]]) else None)
  }

  /** Picking a game named with more than one character does not select that game. */
  lemma GameChangeAsWrittenLosesName(prev: ProductFilterState)
    ensures GameChangeAsWritten(prev, "rodeo").game == Some("r")
    ensures GameSelection(GameChangeAsWritten(prev, "rodeo")) != ["rodeo"]
  {
  }

  /** The game update: the picked value, or `null` when the select is cleared or the value is empty. */
  function GameChange(prev: ProductFilterState, val: Option<string>): (next: ProductFilterState)
    ensures next == prev.(game := next.game)
    ensures Truthy(val) ==> next.game == val
    ensures !Truthy(val) ==> next.game == None
  {
    prev.(game := if Truthy(val) then val else None)
  }

  /** The game select shows back exactly what was picked, and shows nothing after a clear. */
  lemma GameChangeRoundTrip(prev: ProductFilterState, val: Option<string>)
    ensures Truthy(val) ==> GameSelection(GameChange(prev, val)) == [val.value]
    ensures !Truthy(val) ==> GameSelection(GameChange(prev, val)) == []
  {
  }

  /** The country update: the emitted list, verbatim. */
  function ProductCountryChange(prev: ProductFilterState, val: seq<string>): (next: ProductFilterState)
    ensures next.countries == val && next.game == prev.game && next.dateRange == prev.dateRange
  {
    prev.(countries := val)
  }

  /** The date update: the emitted pair, verbatim. */
  function DateRangeChange(prev: ProductFilterState, val: DateRange): (next: ProductFilterState)
    ensures next.dateRange == val && next.game == prev.game && next.countries == prev.countries
  {
    prev.(dateRange := val)
  }

  /** The product country and platform selects: `handleChange` emits the next selection. */
  function ProductSelectChange(value: seq<string>, val: seq<string>, options: seq<Choice>): (emitted: seq<string>)
    ensures AllSentinel !in val ==> emitted == val
    ensures AllSentinel in val && |value| == |options| ==> emitted == []
    ensures AllSentinel in val && |value| != |options| ==> emitted == Values(options)
  {
    Selection(value, val, Values(options))
  }
}
