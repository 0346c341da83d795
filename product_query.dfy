/**
 * The product page's filter state and its mirror in the URL: the initial
 * filters are read from the query string, the option lists from the
 * filters endpoint (values normalised to lower case), a `platforms=all` or
 * `countries=all` parameter expands to every option once the options are
 * known, and every change of the filters writes the query string back.
 */
module ProductQuery {
  import opened Wrappers
  import opened Strings
  import opened Fetch
  import opened Filters

  // ---------------------------------------------------------------- the query string

  /** One `name=value` pair of a query string. */
  datatype Param = Param(name: string, value: string)

  /** `searchParams.get(name)`: the value of the first pair with that name, `None` for `null`. */
  function Get(q: seq<Param>, name: string): (r: Option<string>)
    ensures r.None? <==> forall i :: 0 <= i < |q| ==> q[i].name != name
  {
    if q == [] then None
    else if q[0].name == name then Some(q[0].value)
    else
      assert forall i :: 1 <= i < |q| ==> q[1..][i - 1] == q[i];
      Get(q[1..], name)
  }

  /** Looking a name up in two lists one after the other: the first list wins. */
  lemma {:induction false} GetAppend(a: seq<Param>, b: seq<Param>, name: string)
    ensures Get(a + b, name) == if Get(a, name).Some? then Get(a, name) else Get(b, name)
  {
    if a == [] {
      assert a + b == b;
    } else {
      assert (a + b)[0] == a[0];
      assert (a + b)[1..] == a[1..] + b;
      GetAppend(a[1..], b, name);
    }
  }

  /** The pairs of `q` without those named `name`. */
  function RemoveAll(q: seq<Param>, name: string): (r: seq<Param>)
    ensures forall i :: 0 <= i < |r| ==> r[i].name != name
  {
    if q == [] then []
    else if q[0].name == name then RemoveAll(q[1..], name)
    else [q[0]] + RemoveAll(q[1..], name)
  }

  /**
   * `searchParams.set(name, value)`: the first pair with that name takes
   * the value and the later ones are removed; without one, the pair is
   * appended.
   */
  function SetParam(q: seq<Param>, name: string, value: string): (r: seq<Param>)
    ensures Get(r, name) == Some(value)
    ensures Get(q, name).None? ==> r == q + [Param(name, value)]
  {
    if q == [] then [Param(name, value)]
    else if q[0].name == name then [Param(name, value)] + RemoveAll(q[1..], name)
    else [q[0]] + SetParam(q[1..], name, value)
  }

  /** Removing the pairs of one name leaves the other names' values alone. */
  lemma {:induction false} RemoveAllOthers(q: seq<Param>, name: string, n: string)
    requires n != name
    ensures Get(RemoveAll(q, name), n) == Get(q, n)
  {
    if q != [] {
      RemoveAllOthers(q[1..], name, n);
    }
  }

  /** Setting one name leaves the other names' values alone. */
  lemma {:induction false} SetParamOthers(q: seq<Param>, name: string, value: string, n: string)
    requires n != name
    ensures Get(SetParam(q, name, value), n) == Get(q, n)
  {
    if q != [] {
      if q[0].name == name {
        RemoveAllOthers(q[1..], name, n);
      } else {
        SetParamOthers(q[1..], name, value, n);
      }
    }
  }

  // ---------------------------------------------------------------- the page's filters

  /** The product page's filters; `start` and `end` are the two ends of `dateRange`. */
  datatype PageFilters = PageFilters(game: Option<string>, platforms: seq<string>, countries: seq<string>,
                                     start: Option<string>, end: Option<string>)

  /** `x || null` on a query parameter: an absent or empty value is `null`. */
  function OrNull(param: Option<string>): (r: Option<string>)
    ensures Truthy(param) ==> r == param
    ensures !Truthy(param) ==> r == None
  {
    if Truthy(param) then param else None
  }

  /** `param?.split(",").filter(Boolean) || []`: the non-empty comma-separated pieces. */
  function ParseList(param: Option<string>): (r: seq<string>)
    ensures param.None? ==> r == []
    ensures forall i :: 0 <= i < |r| ==> r[i] != ""
    ensures param.Some? ==> forall x :: x in r <==> x in Split(param.value, ",") && x != ""
  {
    if param.None? then [] else NonEmpty(Split(param.value, ","))
  }

  /**
   * The initial filters read from the query string. The default dates (30
   * days ago and today, formatted by the date library) are parameters.
   */
  function InitialFilters(q: seq<Param>, defaultStart: string, defaultEnd: string): (f: PageFilters)
    ensures f.game == OrNull(Get(q, "game"))
    ensures f.platforms == ParseList(Get(q, "platforms")) && f.countries == ParseList(Get(q, "countries"))
    ensures f.start == if Truthy(Get(q, "start_date")) then Get(q, "start_date") else Some(defaultStart)
    ensures f.end == if Truthy(Get(q, "end_date")) then Get(q, "end_date") else Some(defaultEnd)
  {
    PageFilters(OrNull(Get(q, "game")), ParseList(Get(q, "platforms")), ParseList(Get(q, "countries")),
                if Truthy(Get(q, "start_date")) then Get(q, "start_date") else Some(defaultStart),
                if Truthy(Get(q, "end_date")) then Get(q, "end_date") else Some(defaultEnd))
  }

  // ---------------------------------------------------------------- writing the query string back

  /**
   * The value written for a list: "all" when it has as many entries as
   * there are options and there are some, the comma-joined list when it is
   * not empty, nothing otherwise.
   */
  function ListValue(selected: seq<string>, optionCount: nat): (v: Option<string>)
    ensures |selected| == optionCount > 0 ==> v == Some("all")
    ensures !(|selected| == optionCount > 0) && selected != [] ==> v == Some(Join(selected, ","))
    ensures selected == [] ==> v == None
  {
    if |selected| == optionCount && optionCount > 0 then Some("all")
    else if |selected| > 0 then Some(Join(selected, ","))
    else None
  }

  /** The pair written for a name: one when there is a value, none otherwise. */
  function Pair(name: string, value: Option<string>): (r: seq<Param>)
    ensures value.Some? ==> r == [Param(name, value.value)]
    ensures value.None? <==> r == []
  {
    if value.Some? then [Param(name, value.value)] else []
  }

  /** A parameter that is written only when its value is truthy. */
  function Entry(name: string, value: Option<string>): seq<Param>
  {
    Pair(name, OrNull(value))
  }

  /** A list parameter, written only when the list has a value to write. */
  function ListEntry(name: string, selected: seq<string>, optionCount: nat): seq<Param>
  {
    Pair(name, ListValue(selected, optionCount))
  }

  /** The names of the parameters the page writes to its query string. */
  const QueryNames: set<string> := {"game", "platforms", "countries", "start_date", "end_date"}

  /** The query string the page navigates to: game, platforms, countries, start and end date, each when set. */
  function QueryOf(f: PageFilters, platformCount: nat, countryCount: nat): (r: seq<Param>)
    ensures |r| <= 5
    ensures forall i :: 0 <= i < |r| ==> r[i].name in QueryNames
  {
    Entry("game", f.game) + ListEntry("platforms", f.platforms, platformCount)
    + ListEntry("countries", f.countries, countryCount) + Entry("start_date", f.start) + Entry("end_date", f.end)
  }

  /** `if (value) queryParams.set(name, value)` on a query string that does not hold the name yet. */
  method SetWhen(q: seq<Param>, name: string, value: Option<string>) returns (r: seq<Param>)
    requires Get(q, name).None?
    ensures r == q + Pair(name, value)
  {
    r := q;
    if value.Some? {
      r := SetParam(r, name, value.value);
    }
  }

  /** The query-string effect: successive `set` calls on a fresh `URLSearchParams`. */
  method SerializeFilters(f: PageFilters, platformCount: nat, countryCount: nat) returns (q: seq<Param>)
    ensures q == QueryOf(f, platformCount, countryCount)
  {
    ghost var g, p, c := Entry("game", f.game), ListEntry("platforms", f.platforms, platformCount),
                         ListEntry("countries", f.countries, countryCount);
    ghost var s := Entry("start_date", f.start);
    q := SetWhen([], "game", OrNull(f.game));
    assert [] + g == g;
    q := SetWhen(q, "platforms", ListValue(f.platforms, platformCount));
    assert Get(q, "countries").None? by { GetAppend(g, p, "countries"); }
    q := SetWhen(q, "countries", ListValue(f.countries, countryCount));
    assert Get(q, "start_date").None? by { GetFive(g, p, c, [], [], "start_date"); assert g + p + c + [] + [] == q; }
    q := SetWhen(q, "start_date", OrNull(f.start));
    assert Get(q, "end_date").None? by { GetFive(g, p, c, s, [], "end_date"); assert g + p + c + s + [] == q; }
    q := SetWhen(q, "end_date", OrNull(f.end));
  }

  /** A lookup in five lists one after the other finds the first that has the name. */
  lemma GetFive(a: seq<Param>, b: seq<Param>, c: seq<Param>, d: seq<Param>, e: seq<Param>, n: string)
    ensures Get(a + b + c + d + e, n)
         == if Get(a, n).Some? then Get(a, n) else if Get(b, n).Some? then Get(b, n)
            else if Get(c, n).Some? then Get(c, n) else if Get(d, n).Some? then Get(d, n) else Get(e, n)
  {
    GetAppend(a + b + c + d, e, n);
    GetAppend(a + b + c, d, n);
    GetAppend(a + b, c, n);
    GetAppend(a, b, n);
  }

  /** What each name reads back from the written query string. */
  lemma QueryOfGet(f: PageFilters, platformCount: nat, countryCount: nat)
    ensures Get(QueryOf(f, platformCount, countryCount), "game") == OrNull(f.game)
    ensures Get(QueryOf(f, platformCount, countryCount), "platforms") == ListValue(f.platforms, platformCount)
    ensures Get(QueryOf(f, platformCount, countryCount), "countries") == ListValue(f.countries, countryCount)
    ensures Get(QueryOf(f, platformCount, countryCount), "start_date") == OrNull(f.start)
    ensures Get(QueryOf(f, platformCount, countryCount), "end_date") == OrNull(f.end)
  {
    var g, p, c := Entry("game", f.game), ListEntry("platforms", f.platforms, platformCount), ListEntry("countries", f.countries, countryCount);
    var s, e := Entry("start_date", f.start), Entry("end_date", f.end);
    assert QueryOf(f, platformCount, countryCount) == g + p + c + s + e;
    assert Get(g + p + c + s + e, "game") == OrNull(f.game) by {
      GetFive(g, p, c, s, e, "game");
      GetPair("game", OrNull(f.game), "game");
    }
    assert Get(g + p + c + s + e, "platforms") == ListValue(f.platforms, platformCount) by {
      GetFive(g, p, c, s, e, "platforms");
      GetPair("game", OrNull(f.game), "platforms");
      GetPair("platforms", ListValue(f.platforms, platformCount), "platforms");
    }
    assert Get(g + p + c + s + e, "countries") == ListValue(f.countries, countryCount) by {
      GetFive(g, p, c, s, e, "countries");
      GetPair("game", OrNull(f.game), "countries");
      GetPair("platforms", ListValue(f.platforms, platformCount), "countries");
      GetPair("countries", ListValue(f.countries, countryCount), "countries");
    }
    assert Get(g + p + c + s + e, "start_date") == OrNull(f.start) by {
      GetFive(g, p, c, s, e, "start_date");
      GetPair("game", OrNull(f.game), "start_date");
      GetPair("platforms", ListValue(f.platforms, platformCount), "start_date");
      GetPair("countries", ListValue(f.countries, countryCount), "start_date");
      GetPair("start_date", OrNull(f.start), "start_date");
    }
    assert Get(g + p + c + s + e, "end_date") == OrNull(f.end) by {
      GetFive(g, p, c, s, e, "end_date");
      GetPair("game", OrNull(f.game), "end_date");
      GetPair("platforms", ListValue(f.platforms, platformCount), "end_date");
      GetPair("countries", ListValue(f.countries, countryCount), "end_date");
      GetPair("start_date", OrNull(f.start), "end_date");
      GetPair("end_date", OrNull(f.end), "end_date");
    }
  }

  /** Looking a name up in the pair written for one name. */
  lemma GetPair(name: string, value: Option<string>, n: string)
    ensures Get(Pair(name, value), n) == if name == n then value else None
  {
    if value.Some? {
      assert Pair(name, value)[1..] == [];
    }
  }

  /** A list written as "all" says only that the counts agree, whatever the entries are. */
  lemma AllIsWrittenByCount(f: PageFilters, platformCount: nat, countryCount: nat)
    requires |f.platforms| == platformCount > 0
    ensures Get(QueryOf(f, platformCount, countryCount), "platforms") == Some("all")
  {
    QueryOfGet(f, platformCount, countryCount);
  }

  /** A written list parameter reads back as the same list, when no entry is empty or holds a comma. */
  lemma ListRoundTrip(selected: seq<string>, optionCount: nat)
    requires !(|selected| == optionCount > 0)
    requires forall i :: 0 <= i < |selected| ==> selected[i] != "" && Lacks(selected[i], ',')
    ensures ParseList(ListValue(selected, optionCount)) == selected
  {
    if selected != [] {
      SplitJoin(selected, ',');
      NonEmptyIdentity(selected);
    }
  }

  /**
   * The query string written from the filters reads back as the same
   * filters, when the game and both dates are set, no list is written as
   * "all", and no list entry is empty or holds a comma.
   */
  lemma QueryRoundTrip(f: PageFilters, platformCount: nat, countryCount: nat, defaultStart: string, defaultEnd: string)
    requires f.game != Some("") && Truthy(f.start) && Truthy(f.end)
    requires !(|f.platforms| == platformCount > 0) && !(|f.countries| == countryCount > 0)
    requires forall i :: 0 <= i < |f.platforms| ==> f.platforms[i] != "" && Lacks(f.platforms[i], ',')
    requires forall i :: 0 <= i < |f.countries| ==> f.countries[i] != "" && Lacks(f.countries[i], ',')
    ensures InitialFilters(QueryOf(f, platformCount, countryCount), defaultStart, defaultEnd) == f
  {
    QueryOfGet(f, platformCount, countryCount);
    ListRoundTrip(f.platforms, platformCount);
    ListRoundTrip(f.countries, countryCount);
  }

  // ---------------------------------------------------------------- the filter options

  /** A game's option value: lower case, each run of white space replaced by one `_`. */
  function GameValue(g: string): (v: string)
    ensures forall i :: 0 <= i < |v| ==> !IsJsSpace(v[i]) && !('A' <= v[i] <= 'Z')
  {
    LowerKeepsNoSpaces(g);
    CollapseSpacesKeepsLower(Lower(g));
    CollapseSpaces(Lower(g))
  }

  /** Lower-casing keeps white space where it was. */
  lemma LowerKeepsNoSpaces(s: string)
    ensures forall i :: 0 <= i < |s| ==> (IsJsSpace(Lower(s)[i]) <==> IsJsSpace(s[i]))
    ensures forall i :: 0 <= i < |s| ==> !('A' <= Lower(s)[i] <= 'Z')
  {
  }

  /** Collapsing white space introduces no upper-case letter. */
  lemma {:induction false} CollapseSpacesKeepsLower(s: string)
    requires forall i :: 0 <= i < |s| ==> !('A' <= s[i] <= 'Z')
    ensures forall i :: 0 <= i < |CollapseSpaces(s)| ==> !('A' <= CollapseSpaces(s)[i] <= 'Z')
    decreases |s|
  {
    if s != [] {
      if IsJsSpace(s[0]) {
        var t := TrimStart(s[1..]);
        assert forall i :: 0 <= i < |t| ==> t[i] == s[1..][|s[1..]| - |t| + i];
        CollapseSpacesKeepsLower(t);
      } else {
        CollapseSpacesKeepsLower(s[1..]);
      }
    }
  }

  /**
   * What the game value is: the lower-cased game with every maximal run of
   * `\s` replaced by a single `_`, shown on a game made of words with a
   * white-space run of its own in each gap.
   */
  lemma GameValueOfWords(words: seq<string>, gaps: seq<string>)
    requires |words| == |gaps| + 1
    requires forall k :: 0 <= k < |words| ==> |words[k]| > 0 && forall i :: 0 <= i < |words[k]| ==> !IsJsSpace(words[k][i])
    requires forall k :: 0 <= k < |gaps| ==> |gaps[k]| > 0 && forall i :: 0 <= i < |gaps[k]| ==> IsJsSpace(gaps[k][i])
    ensures GameValue(Interleave(words, gaps)) == Join(LowerAll(words), "_")
  {
    LowerInterleave(words, gaps);
    forall k | 0 <= k < |words|
      ensures |LowerAll(words)[k]| > 0 && forall i :: 0 <= i < |LowerAll(words)[k]| ==> !IsJsSpace(LowerAll(words)[k][i])
    {
      LowerKeepsNoSpaces(words[k]);
    }
    forall k | 0 <= k < |gaps|
      ensures |LowerAll(gaps)[k]| > 0 && forall i :: 0 <= i < |LowerAll(gaps)[k]| ==> IsJsSpace(LowerAll(gaps)[k][i])
    {
      LowerKeepsNoSpaces(gaps[k]);
    }
    CollapseSpacesInterleave(LowerAll(words), LowerAll(gaps));
  }

  /** Normalising a game value twice gives the same value. */
  lemma GameValueIdempotent(g: string)
    ensures GameValue(GameValue(g)) == GameValue(g)
  {
    var v := GameValue(g);
    assert Lower(v) == v;
    CollapseSpacesIdentity(v);
  }

  /** `games.map(g => ({ label: g, value: normalised }))`. */
  function GameOptions(games: seq<string>): (r: seq<Choice>)
    ensures |r| == |games|
    ensures forall i :: 0 <= i < |r| ==> r[i] == Choice(games[i], GameValue(games[i]))
  {
    seq(|games|, i requires 0 <= i < |games| => Choice(games[i], GameValue(games[i])))
  }

  /** `xs.map(x => ({ label: x, value: x.toLowerCase() }))`, for platforms and countries. */
  function LowerOptions(xs: seq<string>): (r: seq<Choice>)
    ensures |r| == |xs|
    ensures forall i :: 0 <= i < |r| ==> r[i] == Choice(xs[i], Lower(xs[i]))
  {
    seq(|xs|, i requires 0 <= i < |xs| => Choice(xs[i], Lower(xs[i])))
  }

  /** The body of the filters endpoint's `data`. */
  datatype FilterPayload = FilterPayload(games: seq<string>, platforms: seq<string>, countries: seq<string>)

  /**
   * The three guarded updates after the options arrive: `platforms=all` and
   * `countries=all` expand to every option value when there are options, and
   * the first game becomes the default when the query names none.
   */
  function ExpandParams(q: seq<Param>, prev: PageFilters, data: FilterPayload): (f: PageFilters)
    ensures Get(q, "platforms") == Some("all") && |data.platforms| > 0 ==> f.platforms == Values(LowerOptions(data.platforms))
    ensures !(Get(q, "platforms") == Some("all") && |data.platforms| > 0) ==> f.platforms == prev.platforms
    ensures Get(q, "countries") == Some("all") && |data.countries| > 0 ==> f.countries == Values(LowerOptions(data.countries))
    ensures !(Get(q, "countries") == Some("all") && |data.countries| > 0) ==> f.countries == prev.countries
    ensures !Truthy(Get(q, "game")) && |data.games| > 0 ==> f.game == Some(GameValue(data.games[0]))
    ensures !(!Truthy(Get(q, "game")) && |data.games| > 0) ==> f.game == prev.game
    ensures f.start == prev.start && f.end == prev.end
  {
    var platforms := if Get(q, "platforms") == Some("all") && |data.platforms| > 0
                     then Values(LowerOptions(data.platforms)) else prev.platforms;
    var countries := if Get(q, "countries") == Some("all") && |data.countries| > 0
                     then Values(LowerOptions(data.countries)) else prev.countries;
    var game := if !Truthy(Get(q, "game")) && |data.games| > 0 then Some(GameValue(data.games[0])) else prev.game;
    prev.(game := game, platforms := platforms, countries := countries)
  }

  /** The page state the filters load sets. */
  datatype FilterLoad = FilterLoad(filters: PageFilters, allGames: seq<Choice>, allPlatforms: seq<Choice>,
                                   allCountries: seq<Choice>, error: Option<string>)

  /**
   * `getFiltersData` as written: on success, after the options and the
   * expanded filters are set, the message is set and all three option lists
   * are cleared, since those statements stand in the `try` block and there
   * is no `catch`. A failed request (`None`) propagates out of the handler,
   * leaving the state as it was with the message cleared at the start.
   */
  function LoadFiltersAsWritten(q: seq<Param>, prev: FilterLoad, response: Option<FilterPayload>): (r: FilterLoad)
    ensures response.Some? ==> r == FilterLoad(ExpandParams(q, prev.filters, response.value), [], [], [],
                                               Some("Failed to load filters."))
    ensures response.None? ==> r == prev.(error := None)
  {
    match response
    case Some(data) => FilterLoad(ExpandParams(q, prev.filters, data), [], [], [], Some("Failed to load filters."))
    case None => prev.(error := None)
  }

  /** As written, `?platforms=all` comes back as the expanded list, not as "all", since the options are gone. */
  lemma LoadFiltersAsWrittenLosesAll(prev: FilterLoad)
    requires prev.filters.countries == []
    ensures var q := [Param("platforms", "all"), Param("game", "g")];
            var r := LoadFiltersAsWritten(q, prev, Some(FilterPayload(["G"], ["iOS", "Android"], [])));
            && r.error == Some("Failed to load filters.") && r.allPlatforms == []
            && r.filters.platforms == ["ios", "android"]
            && Get(QueryOf(r.filters, |r.allPlatforms|, |r.allCountries|), "platforms") == Some("ios,android")
  {
    var q := [Param("platforms", "all"), Param("game", "g")];
    var data := FilterPayload(["G"], ["iOS", "Android"], []);
    var r := LoadFiltersAsWritten(q, prev, Some(data));
    assert Get(q, "platforms") == Some("all");
    LowerSamplePlatforms();
    assert r.filters.platforms == ["ios", "android"];
    QueryOfGet(r.filters, 0, 0);
    JoinSamplePlatforms();
  }

  /** The option values the sample platform list lowers to. */
  lemma LowerSamplePlatforms()
    ensures Values(LowerOptions(["iOS", "Android"])) == ["ios", "android"]
  {
    assert Lower("iOS") == "ios";
    assert Lower("Android") == "android";
  }

  /** The sample platform values joined by commas. */
  lemma JoinSamplePlatforms()
    ensures ListValue(["ios", "android"], 0) == Some("ios,android")
  {
    assert Join(["ios", "android"], ",") == "ios,android";
  }

  /**
   * `getFiltersData` as evidently intended: the options are kept on success
   * with no message; a failure sets the message and clears the options.
   */
  function LoadFilters(q: seq<Param>, prev: FilterLoad, response: Option<FilterPayload>): (r: FilterLoad)
    ensures response.Some? ==> r.filters == ExpandParams(q, prev.filters, response.value) && r.error == None
    ensures response.Some? ==>
              && r.allGames == GameOptions(response.value.games)
              && r.allPlatforms == LowerOptions(response.value.platforms)
              && r.allCountries == LowerOptions(response.value.countries)
    ensures response.None? ==> r == FilterLoad(prev.filters, [], [], [], Some("Failed to load filters."))
  {
    match response
    case Some(data) =>
      FilterLoad(ExpandParams(q, prev.filters, data), GameOptions(data.games), LowerOptions(data.platforms),
                 LowerOptions(data.countries), None)
    case None => FilterLoad(prev.filters, [], [], [], Some("Failed to load filters."))
  }

  /** After a successful load, `platforms=all` selects every option and is written back as "all". */
  lemma AllSurvivesLoad(q: seq<Param>, prev: FilterLoad, data: FilterPayload)
    requires Get(q, "platforms") == Some("all") && |data.platforms| > 0
    ensures var r := LoadFilters(q, prev, Some(data));
            && r.filters.platforms == Values(r.allPlatforms)
            && Get(QueryOf(r.filters, |r.allPlatforms|, |r.allCountries|), "platforms") == Some("all")
  {
    var r := LoadFilters(q, prev, Some(data));
    QueryOfGet(r.filters, |r.allPlatforms|, |r.allCountries|);
  }

  /** After a successful load, a query without a game selects the first game's option. */
  lemma DefaultGameAfterLoad(q: seq<Param>, prev: FilterLoad, data: FilterPayload)
    requires !Truthy(Get(q, "game")) && |data.games| > 0
    ensures var r := LoadFilters(q, prev, Some(data));
            r.filters.game == Some(r.allGames[0].value)
  {
  }
}
