# Growth dashboard data rules, in Dafny

This project models the data-shaping core of a React analytics dashboard for mobile-game
growth teams. It has two halves:

- The **product** pages show install, payer and LTV charts.
- The **user acquisition (UA)** pages show weekly channel revenue, ROAS, and bubble charts of
  channels and countries.

Around the fetch calls and the JSX, the components hold small, exact rules, and the model
states and proves them:

- **Pivots.** Group/date records (`group_0`, `data_map_0: {datetime → number}`) become
  date-keyed chart rows. `pivotGroupApiData` gives dense rows sorted by date with a column per
  group. `groupDataToDateCentric` gives zero-filled rows sorted by date. The install-age
  grouping gives sparse rows in first-seen order.
  - Modules: `GroupPivot`, `DateCentric`, `InstallAge`, with the shared `DateMap`, `ChartRows`
    and `Dates`.
- **Palettes.** Colours are assigned cyclically: `generateColors` and `generateChannelColors`,
  plus the series-key palettes of the product charts (`Palette`).
- **Bar chart.** Its display precedence, y-axis arithmetic (stack heights, step, top tick,
  ticks), x-label thinning, and legend/bar correspondence (`BarAxis`, `Panels`).
- **Quadrant chart.** Percentile trimming, the averages and ranges, and the panel precedence
  (`Quadrant`). The bubble mapping of the overview's gradient chart and of the channel and geo
  panels, with its LTV cap (`Bubbles`).
- **Weekly charts.** The channel charts: week labels, their parsing and sort, the channel
  union, colours, totals, the tooltip, the bars, and the legend toggle (`Weekly`,
  `ChannelToggle`). The two static weekly pages and the dashboard's scrollable legend
  (`MockWeeks`).
- **Filters.** The "all" sentinel, placeholders, the default app token, and the product filter
  updates (`Filters`).
- **Product query string.** The product page's filters are read from and written to the query
  string, and the filter options are loaded (`ProductQuery`).
- **IAP LTV chart.** Its line keys (`IapLtv`).

Modelling choices:

- **JavaScript objects** are `JsCollections.Obj`: a value map plus the key sequence in
  enumeration order. Assigning an existing key keeps its place; a new key is enumerated last.
- **A `Set`** of strings, turned back into an array, is `JsCollections.Dedup`: the distinct
  elements in first-seen order.
- **`Array.prototype.sort`** is `Sorting.SortBy`, an insertion sort over a total preorder.
- **Strings** are `seq<char>`. String comparison is `Strings.LexLe`.
- **Numbers.** Money and counts are `int`. ROI, LTV and percentiles are `real`.
- **A fetch result** is `Fetch.Response`: either `Rejected` (the request threw) or the status
  with the payload's `data` when it is an array. The UA handlers test `status !== 200` or
  `response.ok`; the model writes each one's own test. A handler that reads a falsy `data` as
  `[]` (`response.data.data || []`) is given `Answered(status, Some([]))` for it.
- **Inputs.** The network, the clock and the date library enter as parameters or payloads.

Each component's state is a datatype. Where the source updates its state by a functional
`setState` updater, the model has a function from the old state to the new one.

These parts are imperative and are modelled as methods with loop invariants, each proved equal
to a specification function whose properties are lemmas:

- `pivotGroupApiData`'s loops;
- `groupDataToDateCentric`'s map building and zero fill;
- the install-age grouping;
- the colour loops;
- the bubble mapping;
- the query-string serialiser.

The legend toggle copies the active `Set` and adds to or deletes from the copy. It is a method
over a `ChannelSet` class.

## Model

| member | source | states |
|---|---|---|
| Palette.Colors | src/utils/index.ts:37-41 | the colour record has one key per distinct item, in first-seen order |
| Palette.ColorsLookup | src/utils/index.ts:37-41 | an item's colour is the palette entry at its last index modulo the palette size (a later duplicate overwrites); an absent name has no colour |
| Palette.ColorsOfDistinct | src/utils/index.ts:37-41 | with no duplicates, item i gets palette entry i mod size |
| Palette.AssignColors | src/utils/index.ts:37-41 | the forEach loop builds exactly the record `Colors` describes: keys are the distinct items, and each colour comes from the last index |
| Palette.GenerateColors | src/utils/index.ts:7-42 | item k's colour is baseColors[lastIndex(k) mod 27]; a name not in the list gets none |
| Palette.GenerateChannelColors | src/utils/index.ts:44-72 | channel k's colour is baseColors[lastIndex(k) mod 18]; a name not in the list gets none |
| Palette.ChannelPaletteIsPrefix | src/utils/index.ts:9-26 | the 18 channel colours are the first 18 of the 27 base colours |
| Palette.PalettesAgreeAt | src/utils/index.ts:47-66 | below index 18 both generators pick the same colour |
| Palette.GeneratorsAgree | src/utils/index.ts:7-72 | on a list of at most 18 items the two generators build the same record |
| Palette.SeriesKeys | src/page/product/components/payuserdata/PayDays.tsx:89-93 | one series per name, in order, keyed and named after it |
| Palette.SeriesKeysCycle | src/page/product/components/installdata/InstallDays.tsx:96-100 | on a palette without repeats, series fewer than a palette length apart get different colours, and series exactly one palette length apart share a colour |
| Palette.PalettesDistinct | src/page/product/components/installdata/InstallDays.tsx:8-10 | neither the 7-colour product palette nor the 8-colour LTV palette repeats a colour |
| Palette.ProductSeriesColors | src/page/product/components/installdata/InstallDays.tsx:96-100 | product series fewer than 7 apart get different colours, series exactly 7 apart share one |
| Palette.LtvSeriesColors | src/page/product/components/ltvreports/IapLtvDx.tsx:40-46 | LTV lines fewer than 8 apart get different colours, lines exactly 8 apart share one |
| JsCollections.Dedup | src/page/product/components/installdata/InstallAge.tsx:77 | `Array.from(new Set(xs))` holds each element of xs exactly once and nothing else |
| JsCollections.DedupFirstSeenOrder | src/page/product/components/installdata/InstallAge.tsx:77 | the distinct elements come out in the order of their first occurrences |
| JsCollections.DedupSnoc | src/page/product/components/payuserdata/PayDays.tsx:29 | `set.add(x)` leaves a known element's set unchanged and appends a new one |
| JsCollections.EmptyObj | src/page/product/components/payuserdata/PayDays.tsx:25 | `{}` has no keys and no values |
| JsCollections.Put | src/page/product/components/payuserdata/PayDays.tsx:34 | `o[k] = v` stores v under k and changes no other key; an existing key keeps its position, a new key is enumerated last |
| JsCollections.Values | src/page/product/components/installdata/InstallAge.tsx:55 | `Object.values` lists the stored values in key enumeration order |
| JsCollections.Record | src/dashboard/ua/components/WeeklyROASChart.tsx:100-112 | an object literal enumerates its distinct keys in writing order, each holding its written value |
| Strings.Split | src/page/product/index.tsx:31 | `split` on a non-empty separator yields at least one piece |
| Strings.SplitJoin | src/page/product/index.tsx:125 | joining a non-empty list with a character no element contains and splitting on it gives the list back |
| Strings.Join | src/page/product/index.tsx:125 | joining no pieces gives ""; otherwise the text starts with the first piece and ends with the last |
| Strings.NonEmpty | src/page/product/index.tsx:31 | `filter(Boolean)` keeps exactly the non-empty pieces |
| Strings.NonEmptyIdentity | src/page/product/index.tsx:31 | a list with no empty piece passes `filter(Boolean)` unchanged |
| Strings.DateOnly | src/page/product/components/installdata/InstallDays.tsx:27 | `split(' ')[0]` is a prefix of the key with no space in it, and it ends at the first space or at the end of the key |
| Strings.DateOnlyOfDateTime | src/page/product/components/payuserdata/PayDays.tsx:32 | a date and a date followed by a space and a time both truncate to the date |
| Strings.LexLeTotal | src/page/product/components/installdata/InstallDays.tsx:32 | any two strings are ordered one way or the other by the default sort order |
| Strings.LexLeAntisymmetric | src/page/product/components/installdata/InstallDays.tsx:32 | two strings each at most the other are equal |
| Strings.LexLeTransitive | src/page/product/components/installdata/InstallDays.tsx:32 | the default string order is transitive |
| Strings.PrefixLexLe | src/page/product/components/installdata/InstallDays.tsx:32 | a string sorts at or before every string it is a prefix of |
| Strings.PrefixLexLeStrict | src/page/product/components/installdata/InstallDays.tsx:32 | a string that strictly extends another sorts strictly after it |
| Strings.Lower | src/page/product/index.tsx:60 | `toLowerCase` maps each character and keeps the length |
| Strings.CollapseSpaces | src/page/product/index.tsx:56 | `replace(/\s+/g, "_")` leaves no white space (that each maximal run becomes one `_` is CollapseSpacesRun and CollapseSpacesInterleave) |
| Strings.CollapseSpacesIdentity | src/page/product/index.tsx:56 | a string without white space is left unchanged |
| Strings.IsJsSpace | src/page/product/index.tsx:56 | blank, tab, newline and carriage return match `\s`; `_`, digits and ASCII letters do not |
| Strings.TrimStartRun | src/page/product/index.tsx:56 | leading white space is stripped up to the first character that is not white space |
| Strings.CollapseSpacesRun | src/page/product/index.tsx:56 | a run of white space after a word becomes a single `_` |
| Strings.CollapseSpacesJoin | src/page/product/index.tsx:56 | words joined by one repeated white-space separator come out joined by single `_` |
| Strings.CollapseSpacesInterleave | src/page/product/index.tsx:56 | words with a white-space run of its own in each gap come out joined by single `_` |
| Strings.InterleaveJoin | src/page/product/index.tsx:56 | joining with one separator is the interleaving with that separator in every gap |
| Strings.LowerInterleave | src/page/product/index.tsx:56 | lower-casing interleaved words lower-cases each word and each gap |
| Strings.LowerJoin | src/page/product/index.tsx:56 | lower-casing a joined text lower-cases each piece and the separator |
| Strings.TrimStart | src/page/product/index.tsx:56 | the stripped prefix is all white space and the rest starts with none |
| Strings.IntToString | src/page/ua/overview/components/WeeklyROASChart.tsx:106 | an integer prints as a non-empty run of digits with an optional leading minus |
| Strings.NatToString | src/page/ua/overview/components/WeeklyROASChart.tsx:110 | `index.toString()` is a non-empty run of digits |
| Strings.DigitsValueOfNat | src/page/ua/overview/components/WeeklyROASChart.tsx:114-119 | the digits printed for a natural number read back as that number |
| Strings.DigitPrefix | src/page/ua/overview/components/WeeklyROASChart.tsx:115 | the digits `parseInt` reads are the longest leading run of digits |
| Strings.ParseIntToString | src/page/ua/overview/components/WeeklyROASChart.tsx:114-121 | `parseInt` of a printed integer followed by a non-digit gives the integer back |
| Strings.ParseInt | src/page/ua/overview/components/WeeklyROASChart.tsx:114-121 | `parseInt` is NaN exactly when no digit follows the leading white space and optional sign; a negative result needs a `-` sign |
| Sorting.Insert | src/page/product/components/installdata/InstallDays.tsx:32 | inserting into a sorted list keeps it sorted and adds exactly that element |
| Sorting.InsertStable | src/page/product/components/installdata/InstallDays.tsx:32 | insertion is stable: among elements tied with any `e`, the inserted one comes after those already present, which keep their order |
| Sorting.SortBy | src/page/product/components/installdata/InstallDays.tsx:32 | `sort` returns a sorted permutation of its input |
| Sorting.SortByStable | src/page/product/components/installdata/InstallDays.tsx:32 | `sort` is stable, as ECMAScript 2019 requires of `Array.prototype.sort`: elements that compare equal keep their input order |
| Dates.LexLeIsTotalPreorder | src/page/product/components/installdata/InstallDays.tsx:32 | the default string comparison is a valid sort order |
| Dates.SortedDistinctAscending | src/page/product/components/installdata/InstallDays.tsx:32 | sorted distinct dates are strictly ascending |
| Dates.FullDateOrder | src/page/product/components/payuserdata/PayDays.tsx:46 | for YYYY-MM-DD strings, string order is calendar order (year, then month, then day) |
| Dates.LexLeSplit | src/page/product/components/payuserdata/PayDays.tsx:46 | two strings whose first parts have equal length compare by the first parts, then by the rest |
| Dates.DigitsOrder | src/page/product/components/payuserdata/PayDays.tsx:46 | digit strings of equal length compare as the numbers they denote |
| Filtering.Filter | src/components/charts/QuadrantChart.tsx:151-153 | `filter` keeps exactly the elements that pass, and no more of them than there were |
| Filtering.FilterAppend | src/components/charts/QuadrantChart.tsx:151-153 | filtering a concatenation filters each part in turn, so kept elements keep their order |
| Filtering.FilterKeepsAll | src/page/product/components/ltvreports/IapLtvDx.tsx:37-39 | nothing is dropped exactly when every element passes, and then the list is unchanged |
| Filtering.FilterOrder | src/page/product/components/ltvreports/IapLtvDx.tsx:37-39 | two kept elements come from two positions of the input in the same order |
| ChartRows.RowLeIsTotalPreorder | src/page/product/components/payuserdata/PayDays.tsx:46 | ordering rows by date is a valid sort order |
| ChartRows.RowDates | src/page/product/components/payuserdata/PayDays.tsx:46 | the dates of the rows, one per row, in row order |
| Panels.LoadingErrorEmpty | src/components/charts/BarChart.tsx:105-110 | loading wins over an error, an error over empty data, and empty data over the chart; each panel appears exactly under its condition |
| Panels.RenderChart | src/page/ua/overview/components/GradientChart.tsx:150-206 | the gradient chart's `renderChart` keeps the title heading in every state, with the same precedence: loading, then a non-empty error shown as given, then "No data available" for an empty list, then the chart |
| GroupPivot.EntryDates | src/page/product/components/installdata/InstallDays.tsx:26-28 | each key of a value map truncated at its first space, in key order |
| GroupPivot.AddedDatesMembers | src/page/product/components/installdata/InstallDays.tsx:23-31 | a date is added to the set exactly when some record with an object value map has a key truncating to it |
| GroupPivot.AllDates | src/page/product/components/installdata/InstallDays.tsx:32 | the sorted date list is duplicate-free, sorted, and holds exactly the added dates |
| GroupPivot.FindEntry | src/page/product/components/installdata/InstallDays.tsx:40 | `find` returns the first entry whose key truncates to the date; none when no key does |
| GroupPivot.CellValue | src/page/product/components/installdata/InstallDays.tsx:40-41 | a non-zero cell is the number of an entry whose key truncates to the date; with no such entry the cell is 0 |
| GroupPivot.FirstKeyWins | src/page/product/components/installdata/InstallDays.tsx:40-41 | when several keys share a date, the first in key order supplies the cell value |
| GroupPivot.MissingDateIsZero | src/page/product/components/installdata/InstallDays.tsx:41 | a record with no key for the date gives 0 |
| GroupPivot.ObjectGroups | src/page/product/components/installdata/InstallDays.tsx:37-42 | a group is listed exactly when some record carrying it has an object value map |
| GroupPivot.LastObjectIndex | src/page/product/components/installdata/InstallDays.tsx:37-42 | the last record that carries a group and has an object value map |
| GroupPivot.RowCells | src/page/product/components/installdata/InstallDays.tsx:36-43 | every row has one column per object-record group, in first-seen order |
| GroupPivot.RowCellsLookup | src/page/product/components/installdata/InstallDays.tsx:37-42 | density and overwrite: a column holds the value from the last object record of that group, 0 when that record has no key for the date; groups with no object record have no column |
| GroupPivot.ObjectGroupsOfPrefix | src/page/product/components/installdata/InstallDays.tsx:37-42 | a record that is not an object record for a group does not move that group's last object record |
| GroupPivot.PivotRows | src/page/product/components/installdata/InstallDays.tsx:34-46 | one row per sorted date, each with every object-record group as a column |
| GroupPivot.GroupNames | src/page/product/components/installdata/InstallDays.tsx:33 | one name per record, in record order, duplicates and non-object records kept |
| GroupPivot.PivotDates | src/page/product/components/installdata/InstallDays.tsx:26-32 | row dates are strictly ascending and are exactly the truncated keys of the object records |
| GroupPivot.PivotEmpty | src/page/product/components/installdata/InstallDays.tsx:22-48 | no records give no rows and no group names |
| GroupPivot.CollectDates | src/page/product/components/installdata/InstallDays.tsx:22-31 | the first loop collects every added date once, in insertion order |
| GroupPivot.AddKeyDates | src/page/product/components/installdata/InstallDays.tsx:26-29 | one record's keys add their truncated dates to the set |
| GroupPivot.FillRow | src/page/product/components/installdata/InstallDays.tsx:36-43 | the inner loop builds the row `RowCells` describes |
| GroupPivot.FillRows | src/page/product/components/installdata/InstallDays.tsx:35-44 | `dateMap` holds one filled row per date, keyed in date order |
| GroupPivot.PivotGroupApiData | src/page/product/components/installdata/InstallDays.tsx:17-49 | the function returns the rows `PivotRows` describes and the names `GroupNames` describes |
| GroupPivot.BarKeys | src/page/product/components/installdata/InstallDays.tsx:96-100 | bar key i is group name i, in colour palette[i mod 7] |
| GroupPivot.Load | src/page/product/components/installdata/InstallDays.tsx:61-84 | a status-200 array becomes the pivot; any other answer empties rows and names and sets the message |
| DateMap.AssignDates | src/page/product/components/payuserdata/PayDays.tsx:32 | the date each assignment targets, in order |
| DateMap.LastAssign | src/page/product/components/payuserdata/PayDays.tsx:34 | the last assignment to a (date, group) cell |
| DateMap.AssignedCells | src/page/product/components/payuserdata/PayDays.tsx:33-34 | the cells a date's row holds after the assignments are a valid record |
| DateMap.AssignedCellsLookup | src/page/product/components/payuserdata/PayDays.tsx:34 | the last assignment to a cell wins; a cell never assigned is absent |
| DateMap.AssignedCellsUnseen | src/page/product/components/payuserdata/PayDays.tsx:33 | a date no assignment targets has no cells |
| DateMap.AssignCell | src/page/product/components/payuserdata/PayDays.tsx:32-34 | one assignment creates the date's row if needed, then sets the cell; the map then matches the assignments so far |
| DateMap.AssignCellMeaning | src/page/product/components/payuserdata/PayDays.tsx:33-34 | the create-then-assign step keeps `dateMap` equal to the rows the assignments describe |
| DateMap.RowCreated | src/page/product/components/payuserdata/PayDays.tsx:33 | after `if (!dateMap[d]) dateMap[d] = { date: d }` the date has its row and the keys are the dates in first-seen order |
| DateMap.AssignedCellsSnoc | src/page/product/components/payuserdata/PayDays.tsx:34 | one more assignment changes only the row of its own date |
| DateCentric.ExtractGroups | src/page/product/components/payuserdata/PayDays.tsx:17-22 | empty input or a falsy first group gives []; otherwise every record's group, in order, duplicates kept |
| DateCentric.Groups | src/page/product/components/payuserdata/PayDays.tsx:28-29 | the group of every record, in record order |
| DateCentric.ItemAssigns | src/page/product/components/payuserdata/PayDays.tsx:30-35 | a record assigns its value to (truncated date, its group) for each entry, in entry order; a missing map assigns nothing |
| DateCentric.AssignEntries | src/page/product/components/payuserdata/PayDays.tsx:31-35 | the entry loop of one record leaves the map matching the assignments so far |
| DateCentric.CollectAssignments | src/page/product/components/payuserdata/PayDays.tsx:25-36 | the first loop yields the map of all assignments and the distinct groups in first-seen order |
| DateCentric.Filled | src/page/product/components/payuserdata/PayDays.tsx:40-42 | zero filling keeps a valid record valid |
| DateCentric.FilledLookup | src/page/product/components/payuserdata/PayDays.tsx:40-42 | filling keeps existing values, adds 0 for each missing group, and adds nothing else |
| DateCentric.FillRow | src/page/product/components/payuserdata/PayDays.tsx:40-43 | the fill loop of one row builds the filled row |
| DateCentric.FillRows | src/page/product/components/payuserdata/PayDays.tsx:39-44 | every row is filled, in number and order |
| DateCentric.UnsortedRows | src/page/product/components/payuserdata/PayDays.tsx:39 | as many rows as there are distinct truncated dates |
| DateCentric.DateCentricRows | src/page/product/components/payuserdata/PayDays.tsx:46 | the filled rows, sorted by date, a permutation of the unsorted rows |
| DateCentric.GroupDataToDateCentric | src/page/product/components/payuserdata/PayDays.tsx:24-48 | the function returns the rows `DateCentricRows` describes |
| DateCentric.CellOfRow | src/page/product/components/payuserdata/PayDays.tsx:34-42 | a cell holds the last value assigned to it; otherwise 0 for a known group; otherwise nothing |
| DateCentric.RowsPerDate | src/page/product/components/payuserdata/PayDays.tsx:30-46 | exactly one row per distinct truncated date key, in ascending date order |
| DateCentric.RowDatesExact | src/page/product/components/payuserdata/PayDays.tsx:30-46 | the sorted rows' dates are distinct and are exactly the truncated date keys assigned |
| DateCentric.LineKeysMatchColumns | src/page/product/components/payuserdata/PayDays.tsx:38-44 | when the first group is set, a row has a column exactly for each group `extractGroupsFromApiData` lists |
| DateCentric.AssignOfGroup | src/page/product/components/payuserdata/PayDays.tsx:34 | only a record's own group is assigned |
| DateCentric.RowsChronological | src/page/product/components/payuserdata/PayDays.tsx:46 | YYYY-MM-DD rows come out in calendar order |
| DateCentric.LineKeys | src/page/product/components/payuserdata/PayDays.tsx:89-93 | line key i is group i in colour palette[i mod 7] |
| DateCentric.Load | src/page/product/components/payuserdata/PayDays.tsx:57-76 | a status-200 array becomes the date-centric rows; any other answer empties rows and records and sets the ARPPU message |
| DateCentric.MultisetMap | src/page/product/components/payuserdata/PayDays.tsx:46 | sorting the rows rearranges their dates alike |
| InstallAge.AgeAssigns | src/page/product/components/installdata/InstallAge.tsx:48-54 | one assignment per item: `$part_date`, bucket and revenue, in item order |
| InstallAge.PartDates | src/page/product/components/installdata/InstallAge.tsx:49 | each item's date, used verbatim |
| InstallAge.AgeRows | src/page/product/components/installdata/InstallAge.tsx:47-55 | one row per distinct date, in first-seen order |
| InstallAge.GroupByDate | src/page/product/components/installdata/InstallAge.tsx:47-55 | the grouping loop returns the rows `AgeRows` describes |
| InstallAge.AgeRowCell | src/page/product/components/installdata/InstallAge.tsx:50-53 | rows are sparse and the later item wins: a bucket has a column on a date exactly when some item has that date and bucket, holding the last such item's revenue |
| InstallAge.AgeRowDates | src/page/product/components/installdata/InstallAge.tsx:47-55 | row dates are distinct, in order of first appearance, and are exactly the item dates |
| InstallAge.BucketNames | src/page/product/components/installdata/InstallAge.tsx:77 | the distinct buckets, each once, in the order of their first item |
| InstallAge.Buckets | src/page/product/components/installdata/InstallAge.tsx:77 | one bucket per item, in item order |
| JsCollections.DedupOrdered | src/page/product/components/installdata/InstallAge.tsx:77 | `Array.from(new Set(xs))` lists its elements in first-occurrence order |
| InstallAge.BarKeys | src/page/product/components/installdata/InstallAge.tsx:78-82 | bar key i is bucket i in colour palette[i mod 7] |
| InstallAge.Load | src/page/product/components/installdata/InstallAge.tsx:33-64 | a status-200 array becomes rows and raw items; any other answer empties both and sets the message |
| BarAxis.StackCoversSegments | src/components/charts/BarChart.tsx:114 | with no negative cell, a stack is at least as tall as each of its segments |
| BarAxis.StackNonNegative | src/components/charts/BarChart.tsx:114 | with no negative cell, a stack height is at least 0 |
| BarAxis.CellOr0 | src/components/charts/BarChart.tsx:114 | `item[key] || 0`: a non-zero value is the stored cell; a missing or undefined cell gives 0 |
| BarAxis.StackHeight | src/components/charts/BarChart.tsx:114 | a stack over keys none of which the row holds has height 0 |
| BarAxis.MaxValue | src/components/charts/BarChart.tsx:112-116 | the largest stack height over the rows, with missing cells counted as 0: no stack exceeds it and some stack reaches it |
| BarAxis.AutoStep | src/components/charts/BarChart.tsx:117 | the step is one of 10, 100, 1000 and 5000 |
| BarAxis.AutoStepMonotone | src/components/charts/BarChart.tsx:117 | a taller chart never gets a finer step |
| BarAxis.CeilDiv | src/components/charts/BarChart.tsx:119 | `Math.ceil(a / b)` is the least q with a ≤ q·b |
| BarAxis.MaxTick | src/components/charts/BarChart.tsx:119 | the top tick is a multiple of the step, at least maxValue and less than maxValue plus the step |
| BarAxis.Ticks | src/components/charts/BarChart.tsx:120-123 | tick i is i·step, and there are maxTick/step + 1 ticks (none when that count is negative) |
| BarAxis.TicksShape | src/components/charts/BarChart.tsx:120-123 | ticks start at 0, rise by one step at a time and end at maxTick |
| BarAxis.YAxis | src/components/charts/BarChart.tsx:112-123 | every stack fits under the top tick, which is less than one step above the tallest stack |
| BarAxis.ShowLabel | src/components/charts/BarChart.tsx:148-149 | a label is drawn when there are at most 20 ticks, or when its index is even |
| BarAxis.ShownLabels | src/components/charts/BarChart.tsx:148-149 | more than 20 labels are thinned to the ceiling of half; up to 20 are all drawn |
| BarAxis.Legend | src/components/charts/BarChart.tsx:194-200 | one legend entry per bar key |
| BarAxis.Bars | src/components/charts/BarChart.tsx:201-203 | one stacked bar per bar key |
| BarAxis.LegendMatchesBars | src/components/charts/BarChart.tsx:194-203 | legend entry i and bar i carry bar key i's key, colour and name |
| Quadrant.PercentileMenu | src/components/charts/QuadrantChart.tsx:110-121 | the default 0.9 is on the menu; the eight options lie in [0.5, 0.95] in decreasing order |
| Quadrant.AscendingIsTotalPreorder | src/components/charts/QuadrantChart.tsx:89-90 | `(a, b) => a - b` is a valid sort order |
| Quadrant.SortAscending | src/components/charts/QuadrantChart.tsx:89-90 | the values sorted ascending, a permutation of the input |
| Quadrant.RankIndexInRange | src/components/charts/QuadrantChart.tsx:91-92 | for n > 0 and 0 ≤ p < 1, floor(n·p) is a valid index |
| Quadrant.RankIndex | src/components/charts/QuadrantChart.tsx:91-92 | `Math.floor(n * p)`: the greatest integer at most n·p |
| Quadrant.Threshold | src/components/charts/QuadrantChart.tsx:94-95 | the sorted value at index floor(n·p); 0 when that index is out of range |
| Quadrant.ThresholdOfNone | src/components/charts/QuadrantChart.tsx:94-95 | no values give a threshold of 0 |
| Quadrant.CalculatePercentile | src/components/charts/QuadrantChart.tsx:88-97 | one threshold per axis, over the ROIs and over the investments |
| Quadrant.CountBelow | src/components/charts/QuadrantChart.tsx:151-153 | at most all values lie under a threshold |
| Quadrant.CountBelowPermutation | src/components/charts/QuadrantChart.tsx:89-90 | sorting does not change how many values lie under a threshold |
| Quadrant.ThresholdRank | src/components/charts/QuadrantChart.tsx:88-96 | the threshold is a percentile: at least floor(n·p)+1 values are at or under it, at most floor(n·p) strictly under it |
| Quadrant.SortedRank | src/components/charts/QuadrantChart.tsx:89-95 | in an ascending list, the value at position k has at least k+1 values at or under it and at most k strictly under it |
| Quadrant.DisplayData | src/components/charts/QuadrantChart.tsx:151-153 | the kept points are exactly the points under both thresholds, never more than the input |
| Quadrant.DisplayDataAppend | src/components/charts/QuadrantChart.tsx:151-153 | the filter keeps the points' order |
| Quadrant.TrimmedCount | src/components/charts/QuadrantChart.tsx:160 | the number of dropped points, a nat; 0 exactly when every point is under both thresholds |
| Quadrant.Kept | src/components/charts/QuadrantChart.tsx:151-153 | the thresholds are inclusive: a point exactly at both is kept; a point above either is dropped |
| Quadrant.TrimNotice | src/components/charts/QuadrantChart.tsx:169-171 | the notice appears exactly when something was trimmed; it starts with the warning sign and a space, and the count follows and parses back |
| Quadrant.TrimNoticePlural | src/components/charts/QuadrantChart.tsx:171 | the notice says "outliers" when more than one point was trimmed, else "outlier" |
| Quadrant.QuadrantView | src/components/charts/QuadrantChart.tsx:123-164 | an error overrides everything; the no-data panel appears exactly without error, not loading and with no data; the chart spins while loading |
| Bubbles.Capped | src/page/ua/overview/components/GradientChart.tsx:366 | `Math.min(ltv, 10000)` never exceeds the cap or the LTV and is one of them |
| Bubbles.CappedBelow | src/page/ua/components/overview/MainChannels.tsx:39 | an LTV at most 10000 is kept unchanged |
| Bubbles.Names | src/page/ua/overview/components/GradientChart.tsx:373-374 | the item names in item order |
| Bubbles.BubbleData | src/page/ua/overview/components/GradientChart.tsx:362-379 | one bubble per item, in order: the name, roi from `roas_d7`, contribution from cost, the investment capped at 10000 (and equal to `ltv_d7` under the cap), the key the index as a string |
| Bubbles.Coloured | src/page/ua/components/overview/MainGeos.tsx:37-54 | one bubble per item under one colour map |
| Bubbles.ProcessBubbles | src/page/ua/components/overview/MainChannels.tsx:35-52 | mapping, then `generateColors` over the names, yields `BubbleData` |
| Bubbles.MapBubbles | src/page/ua/components/overview/MainGeos.tsx:48-54 | the colouring map loop yields `Coloured` |
| Bubbles.BubbleColor | src/page/ua/overview/components/GradientChart.tsx:373-379 | a bubble's colour is the base colour at the last index carrying its name, so equal names share one colour |
| Bubbles.BubbleKeysDistinct | src/page/ua/overview/components/GradientChart.tsx:370 | bubble keys differ for different items |
| Bubbles.Min | src/page/ua/overview/components/GradientChart.tsx:140-145 | `Math.min` of a non-empty list is one of its elements and at most all of them |
| Bubbles.Max | src/page/ua/overview/components/GradientChart.tsx:140-145 | `Math.max` of a non-empty list is one of its elements and at least all of them |
| Bubbles.SumBounds | src/page/ua/overview/components/GradientChart.tsx:136-139 | a sum lies between count×least and count×greatest |
| Bubbles.Rois | src/page/ua/overview/components/GradientChart.tsx:134 | the ROIs in point order |
| Bubbles.Investments | src/page/ua/overview/components/GradientChart.tsx:135 | the investments in point order |
| Bubbles.MeanBetween | src/page/ua/overview/components/GradientChart.tsx:136-145 | the mean of a non-empty list lies between its minimum and maximum |
| Bubbles.MeanBounds | src/page/ua/overview/components/GradientChart.tsx:136-139 | a mean of values in [lo, hi] lies in [lo, hi] |
| Bubbles.Mean | src/page/ua/overview/components/GradientChart.tsx:136-139 | the mean times the count is the sum |
| Bubbles.CalculateAverages | src/components/charts/QuadrantChart.tsx:62-85 | fixed defaults (zeros, maxInvestment 1) when empty; otherwise the means, and a minimum and maximum per axis that are values and bound every point |
| Bubbles.AveragesWithinRanges | src/page/ua/overview/components/GradientChart.tsx:125-147 | the averages lie within the ranges |
| Bubbles.LoadPanel | src/page/ua/components/overview/MainChannels.tsx:16-60 | nothing without the three filters; a status-200 array becomes the bubbles with no error; any other answer empties the data and sets the panel's message |
| Bubbles.FetchBubbleData | src/page/ua/overview/components/GradientChart.tsx:318-400 | nothing without the filters; a load of one kind leaves the other kind's panel untouched; 2xx fills the kind's bubbles, anything else empties them and sets that kind's message |
| Weekly.WeekNumbersOfLabel | src/page/ua/overview/components/WeeklyROASChart.tsx:106-121 | splitting a `${year}年W${week}` label at "年W" and parsing both pieces gives back year and week |
| Weekly.WeekLabel | src/page/ua/overview/components/WeeklyROASChart.tsx:106 | the week label parses back, by the comparator's own reading, to its year and week |
| Weekly.WeekNumbers | src/page/ua/overview/components/WeeklyROASChart.tsx:114-121 | a piece that does not parse (NaN) is read as 0; a label without the separator has week 0 |
| Weekly.LabelledWeeks | src/page/ua/overview/components/WeeklyROASChart.tsx:104-111 | one row per API week, in order: label, channels, both ROAS values, and the index as key |
| Weekly.WeekLeIsTotalPreorder | src/page/ua/overview/components/WeeklyROASChart.tsx:112-123 | the year-then-week comparator is a valid sort order |
| Weekly.ProcessWeeks | src/page/ua/overview/components/WeeklyROASChart.tsx:104-123 | the processed weeks are a permutation of the labelled weeks, sorted by the parsed labels; weeks with equal numbers keep their API order |
| Weekly.ProcessedRowOrigin | src/page/ua/overview/components/WeeklyROASChart.tsx:104-111 | every processed row is the labelled row of some API week |
| Weekly.ProcessedRowsByYearWeek | src/page/ua/overview/components/WeeklyROASChart.tsx:112-123 | rows come out in ascending numeric (year, week) order of the weeks they come from |
| Weekly.RangeWeeks | src/page/ua/components/overview/WeeklyRevenue.tsx:44-50 | same length and order; range, channels and ROAS copied; key is the index |
| Weekly.ChannelNamesMembers | src/page/ua/overview/components/WeeklyROASChart.tsx:127 | `flatMap` of the channel keys lists a name exactly when some row has it |
| Weekly.AllChannels | src/page/ua/overview/components/WeeklyROASChart.tsx:126-128 | the channel union is duplicate-free and holds exactly the channel names of the rows |
| Weekly.ChannelColor | src/page/ua/overview/components/WeeklyROASChart.tsx:129 | channel i of the union gets channel colour i mod 18 |
| Weekly.NewSet | src/page/ua/components/overview/WeeklyRevenue.tsx:59 | `new Set(channels)` holds exactly the listed channels |
| Weekly.Loaded | src/page/ua/components/overview/WeeklyRevenue.tsx:57-59 | after a load the rows are kept, the colour keys are the channel union, and every coloured channel is active |
| Weekly.Publish | src/page/ua/overview/components/WeeklyROASChart.tsx:125-133 | the channels, colours and active set published after a load are those of `Loaded` |
| Weekly.FetchWeeklyRoas | src/page/ua/overview/components/WeeklyROASChart.tsx:72-143 | no change without the three filters; a 2xx array loads the sorted weeks; anything else resets rows, colours and active set and sets the message |
| Weekly.FetchWeeklyRevenue | src/page/ua/components/overview/WeeklyRevenue.tsx:26-68 | no change without the three filters; a status-200 array loads the rows in payload order; anything else resets everything and sets the message |
| Weekly.SumOverPut | src/components/charts/ChannelsChart.tsx:42-45 | storing a value under one of the summed keys shifts the sum by the change of that entry |
| Weekly.ChannelTotalPut | src/components/charts/ChannelsChart.tsx:42-45 | an empty record totals 0; setting a channel's revenue changes the total by exactly the change |
| Weekly.ChannelTotal | src/components/charts/ChannelsChart.tsx:42-45 | with no negative revenue, a week's total is at least 0 |
| Weekly.SumOverNonNegative | src/components/charts/ChannelsChart.tsx:42-45 | a sum over channels none of whose revenue is negative is at least 0 |
| Weekly.WithTotals | src/components/charts/ChannelsChart.tsx:40-46 | row count and order and every row's fields are kept; each row gains the sum of its channel values |
| Weekly.TooltipChannels | src/page/ua/components/WeeklyROASChart.tsx:260-262 | the tooltip lists exactly the payload entries whose name is a colour-map channel |
| Weekly.ByValueDescIsTotalPreorder | src/components/charts/ChannelsChart.tsx:93-95 | the descending-by-value comparator is a valid sort order |
| Weekly.SortedTooltipChannels | src/components/charts/ChannelsChart.tsx:92-95 | the channel entries, a permutation of the filtered ones, by decreasing value with a missing value read as 0; equal values keep their order |
| Weekly.SortedTooltipMembers | src/components/charts/ChannelsChart.tsx:92-95 | the sorted tooltip shows exactly the entries that name a coloured channel |
| Weekly.ActiveChannels | src/components/charts/ChannelsChart.tsx:243-244 | the colour-map channels that are active |
| Weekly.Bars | src/components/charts/ChannelsChart.tsx:243-262 | one bar per active colour-map channel, keyed `channels.<name>` and filled with its colour |
| Weekly.BarDrawn | src/page/ua/overview/components/WeeklyROASChart.tsx:328-331 | a bar is drawn for a channel exactly when it is a colour-map key and active |
| Weekly.BarsInKeyOrder | src/components/charts/ChannelsChart.tsx:243-262 | bars follow colour-map key order |
| Weekly.AllActiveBars | src/page/ua/components/WeeklyROASChart.tsx:343-363 | with every channel active, one bar per colour-map key in key order |
| Weekly.ChannelsChartView | src/components/charts/ChannelsChart.tsx:186-293 | the error line appears exactly with an error; the chart exactly with rows; the no-data message exactly with no rows and not loading |
| ChannelToggle.ChannelSet.constructor | src/components/charts/ChannelsChart.tsx:50 | `new Set(prev)` holds exactly prev |
| ChannelToggle.ChannelSet.Has | src/components/charts/ChannelsChart.tsx:51 | `has` is membership |
| ChannelToggle.ChannelSet.Add | src/components/charts/ChannelsChart.tsx:54 | `add` inserts the channel and changes nothing else |
| ChannelToggle.ChannelSet.Delete | src/components/charts/ChannelsChart.tsx:52 | `delete` removes the channel and changes nothing else |
| ChannelToggle.HandleLegendClick | src/components/charts/ChannelsChart.tsx:48-58 | the clicked channel's membership flips and every other channel's stays |
| ChannelToggle.ToggledFlipsOnlyChannel | src/page/ua/components/WeeklyROASChart.tsx:184-193 | a click flips the clicked channel and nothing else |
| ChannelToggle.Toggled | src/page/ua/components/WeeklyROASChart.tsx:184-193 | the clicked channel is active afterwards exactly when it was not before; every other channel keeps its state |
| ChannelToggle.ToggleTwice | src/page/ua/overview/components/WeeklyROASChart.tsx:165-175 | clicking the same channel twice restores the active set |
| ChannelToggle.TogglesCommute | src/dashboard/ua/components/WeeklyROASChart.tsx:129-139 | clicks on two channels commute |
| MockWeeks.MockChannelsDistinct | src/dashboard/ua/components/WeeklyROASChart.tsx:100-112 | the eleven static channels are distinct |
| MockWeeks.MockChannelColors | src/dashboard/ua/components/WeeklyROASChart.tsx:100-112 | the static colour map's keys are the eleven channels in writing order |
| MockWeeks.InitialActive | src/dashboard/ua/components/WeeklyROASChart.tsx:115-117 | the starting active set holds exactly the colour-map keys |
| MockWeeks.InitialActiveIsAllChannels | src/page/ua/components/WeeklyROASChart.tsx:153-170 | all 11 channels start active |
| MockWeeks.DistinctCardinality | src/page/ua/components/WeeklyROASChart.tsx:169 | a set built from a duplicate-free list has as many elements as the list |
| MockWeeks.MockWeekChannels | src/page/ua/components/WeeklyROASChart.tsx:27-39 | a week's channel record lists the eleven channels with their revenue |
| MockWeeks.RecordTotal | src/page/ua/components/WeeklyROASChart.tsx:172-178 | summing a record's distinct keys sums the written values |
| MockWeeks.RecordTotalAll | src/page/ua/components/WeeklyROASChart.tsx:172-178 | a record listing values under distinct keys totals their sum |
| MockWeeks.MockWeekTotal | src/page/ua/components/WeeklyROASChart.tsx:172-178 | every static week totals the sum of its eleven channel revenues |
| MockWeeks.November2024Total | src/page/ua/components/WeeklyROASChart.tsx:25-39 | week "2024年11月" totals 9100 |
| MockWeeks.February2025Total | src/dashboard/ua/components/WeeklyROASChart.tsx:26-43 | week "2025年2月" totals 15800 |
| MockWeeks.ChannelPayload | src/dashboard/ua/components/WeeklyROASChart.tsx:219-221 | the legend keeps exactly the payload entries whose key starts with "channels." |
| MockWeeks.LegendNameAsWritten | src/dashboard/ua/components/WeeklyROASChart.tsx:227 | as written, the name is the text after "channels." up to the next "." |
| MockWeeks.LegendName | src/dashboard/ua/components/WeeklyROASChart.tsx:227 | corrected: the name is everything after "channels.", so prefix plus name is the key |
| MockWeeks.LegendNameOfBarKey | src/dashboard/ua/components/WeeklyROASChart.tsx:293-309 | the corrected legend reads back the channel of every bar key |
| MockWeeks.LegendNameAsWrittenWithoutDot | src/dashboard/ua/components/WeeklyROASChart.tsx:227 | as written, the name is right exactly for channels without a "." |
| MockWeeks.PersonaLyLegendName | src/dashboard/ua/components/WeeklyROASChart.tsx:111 | as written, "Persona.ly"'s entry is named "Persona", which is not a colour-map channel |
| MockWeeks.PersonaLyNeverToggles | src/dashboard/ua/components/WeeklyROASChart.tsx:231 | as written, clicking "Persona.ly"'s entry never changes whether it is active |
| MockWeeks.LegendAsWritten | src/dashboard/ua/components/WeeklyROASChart.tsx:214-231 | as written: nothing without a payload, else one entry per channel series |
| MockWeeks.Legend | src/dashboard/ua/components/WeeklyROASChart.tsx:214-240 | nothing without a payload; else one entry per channel series with its full channel name, its colour, and active exactly when that channel is |
| MockWeeks.LegendClickTogglesBarChannel | src/dashboard/ua/components/WeeklyROASChart.tsx:231 | corrected: clicking a bar's legend entry flips exactly that channel, whatever its name |
| Filters.Values | src/page/ua/components/filters/Channel.tsx:27 | the option values, in option order |
| Filters.ToggleAll | src/page/ua/components/filters/Channel.tsx:24-27 | "all" clears a selection whose count equals the option count, and otherwise selects every option value |
| Filters.ToggleAllAlternates | src/page/ua/components/filters/Country.tsx:21-28 | with some options, "all" alternates between every option and none |
| Filters.AllSelectedIsACount | src/page/ua/components/filters/Channel.tsx:18 | all-selected compares counts: one stray value counts as the whole of a one-option list |
| Filters.Selection | src/page/ua/components/filters/Channel.tsx:20-32 | without "all" the pick is taken verbatim; with it, cleared when all are selected, else every value |
| Filters.SentinelLabel | src/page/ua/components/filters/Channel.tsx:50 | "Unselect All" exactly when all are selected |
| Filters.DropdownOptions | src/page/ua/components/filters/Channel.tsx:46-59 | no options give none; else the sentinel first, then one entry per option |
| Filters.MaxTagCount | src/page/ua/components/filters/Channel.tsx:40 | one tag exactly when one entry is selected |
| Filters.CountText | src/page/ua/components/filters/Channel.tsx:44 | the count text starts with the count |
| Filters.UaPlaceholder | src/page/ua/components/filters/Country.tsx:41-46 | "All Selected <kind>" when all are selected; otherwise the count |
| Filters.FindLabel | src/page/product/components/filters/Country.tsx:44 | the label of the first option with that value, none exactly when no option has it |
| Filters.ProductPlaceholder | src/page/product/components/filters/Country.tsx:41-47 | "All Selected" first, then the single option's label, then the count |
| Filters.SingleOptionReadsAllSelected | src/page/product/components/filters/Platform.tsx:40-46 | one option and one selected entry read "All Selected", even when the entry is not that option |
| Filters.ChannelChange | src/page/ua/overview/components/Filters.tsx:37-49 | only `channels` changes, to the selection rule's result |
| Filters.CountryChange | src/page/ua/components/filters/Country.tsx:20-32 | only `countries` changes, to the selection rule's result |
| Filters.AppChange | src/page/ua/overview/components/Filters.tsx:71-73 | only `appToken` changes |
| Filters.PlainCountryChange | src/page/ua/overview/components/Filters.tsx:114-115 | the countries are replaced verbatim, "all" included; nothing else changes |
| Filters.PlainOptions | src/page/ua/overview/components/Filters.tsx:123-130 | one country option per country, no sentinel |
| Filters.SelectedCountText | src/page/ua/overview/components/Filters.tsx:118-122 | the count when something is selected, undefined otherwise |
| Filters.DefaultAppToken | src/page/ua/components/filters/index.tsx:28-35 | with no app, some options and nothing loading, the first option's value becomes the app; otherwise nothing changes |
| Filters.DefaultAppTokenIdempotent | src/page/ua/components/filters/index.tsx:29 | running the effect again changes nothing |
| Filters.DefaultAppTokenSettles | src/page/ua/components/filters/index.tsx:29-33 | once a non-empty first option is applied, the app is set |
| Filters.StaticChannelChange | src/page/ua/components/Filters.tsx:29-40 | "all" toggles between the fifteen channels and none, by count; other picks are taken verbatim |
| Filters.StaticOptions | src/page/ua/components/Filters.tsx:62-74 | the sentinel ("Unselect All" exactly when all 15 are selected), then the fifteen channels labelled by themselves |
| Filters.GameSelection | src/page/product/components/filters/index.tsx:25 | the game select shows [game] when set, else [] |
| Filters.GameChangeAsWritten | src/page/product/components/filters/index.tsx:26-28 | as written, the single value the select emits is indexed, so only its first character is kept |
| Filters.GameChangeAsWrittenLosesName | src/page/product/components/filters/Game.tsx:17 | as written, picking "rodeo" sets the game to "r" |
| Filters.GameChange | src/page/product/components/filters/index.tsx:26-28 | corrected: the game becomes the picked value, or null when cleared or empty; nothing else changes |
| Filters.GameChangeRoundTrip | src/page/product/components/filters/index.tsx:25-28 | the game select shows back exactly what was picked, and nothing after a clear |
| Filters.ProductCountryChange | src/page/product/components/filters/index.tsx:34-36 | the countries become the emitted list; nothing else changes |
| Filters.DateRangeChange | src/page/product/components/filters/index.tsx:40-42 | the date range becomes the emitted pair; nothing else changes |
| Filters.ProductSelectChange | src/page/product/components/filters/Platform.tsx:11-18 | without "all" the value passes through; with it, [] when the current count equals the option count, else every option value |
| ProductQuery.Get | src/page/product/index.tsx:30-36 | `get` finds nothing exactly when no pair has the name |
| ProductQuery.GetAppend | src/page/product/index.tsx:116-139 | a lookup in two lists one after the other finds the first list's value first |
| ProductQuery.RemoveAll | src/page/product/index.tsx:116-139 | no pair with the name remains |
| ProductQuery.SetParam | src/page/product/index.tsx:116-139 | after `set` the name reads back the value, and a new name is appended |
| ProductQuery.RemoveAllOthers | src/page/product/index.tsx:116-139 | removing one name leaves the others' values |
| ProductQuery.SetParamOthers | src/page/product/index.tsx:116-139 | setting one name leaves the others' values |
| ProductQuery.OrNull | src/page/product/index.tsx:30 | `x \|\| null` keeps a non-empty value and turns an absent or empty one into null |
| ProductQuery.ParseList | src/page/product/index.tsx:31-32 | an absent param gives []; else exactly the non-empty comma-separated pieces |
| ProductQuery.InitialFilters | src/page/product/index.tsx:29-38 | game from `game` or null; lists parsed; each date from its param or the default when absent or empty |
| ProductQuery.ListValue | src/page/product/index.tsx:119-126 | "all" exactly when the counts agree and are positive; else the comma join of a non-empty list; else nothing |
| ProductQuery.Pair | src/page/product/index.tsx:117 | a value is written as one pair, and nothing is written without one |
| ProductQuery.SetWhen | src/page/product/index.tsx:117 | a guarded `set` on a new name appends exactly the pair |
| ProductQuery.SerializeFilters | src/page/product/index.tsx:115-139 | the successive `set` calls build the game, platforms, countries, start and end pairs, each only when set |
| ProductQuery.QueryOfGet | src/page/product/index.tsx:117-139 | each name of the written query reads back its value |
| ProductQuery.QueryOf | src/page/product/index.tsx:117-139 | at most five pairs, each named game, platforms, countries, start_date or end_date |
| ProductQuery.AllIsWrittenByCount | src/page/product/index.tsx:119-123 | "all" is written whenever the counts agree, whatever the entries are |
| ProductQuery.ListRoundTrip | src/page/product/index.tsx:124-126 | a list written as a comma join parses back to itself when no entry is empty or holds a comma |
| ProductQuery.QueryRoundTrip | src/page/product/index.tsx:29-139 | filters written to the query read back as the same filters (game and dates set, no list written as "all", no empty or comma-holding entry) |
| ProductQuery.GameValue | src/page/product/index.tsx:56 | a game's option value holds no white space and no upper-case letter (its exact form for words and white-space separators is GameValueOfWords) |
| ProductQuery.LowerKeepsNoSpaces | src/page/product/index.tsx:56 | lower-casing keeps white space in place and leaves no upper-case letter |
| ProductQuery.CollapseSpacesKeepsLower | src/page/product/index.tsx:56 | collapsing white space introduces no upper-case letter |
| ProductQuery.GameValueIdempotent | src/page/product/index.tsx:56 | normalising a game value twice gives the same value |
| ProductQuery.GameValueOfWords | src/page/product/index.tsx:56 | words without white space, with a white-space run of its own (any length, any mix) in each gap, become their lower-cased forms joined by single `_` |
| ProductQuery.GameOptions | src/page/product/index.tsx:54-57 | one option per game, labelled with the game, valued by its normalised form |
| ProductQuery.LowerOptions | src/page/product/index.tsx:58-65 | one option per platform or country, valued by its lower case |
| ProductQuery.ExpandParams | src/page/product/index.tsx:72-101 | "all" expands to every option value only when there are options; the first game becomes the default only when the query has no game; the dates are kept |
| ProductQuery.LoadFiltersAsWritten | src/page/product/index.tsx:46-109 | as written, success sets the expanded filters, then the failure message, and clears every option list; a failed request escapes the handler with only the message cleared |
| ProductQuery.LoadFiltersAsWrittenLosesAll | src/page/product/index.tsx:102-105 | as written, `?platforms=all` with two platforms is written back as "ios,android", not "all" |
| ProductQuery.LoadFilters | src/page/product/index.tsx:46-109 | corrected: success keeps the options and the expanded filters with no error; failure clears the options and sets the message |
| ProductQuery.AllSurvivesLoad | src/page/product/index.tsx:72-82 | after a load, `platforms=all` selects every option and is written back as "all" |
| ProductQuery.DefaultGameAfterLoad | src/page/product/index.tsx:96-101 | after a load, a query without a game selects the first game option |
| IapLtv.LineKeyNames | src/page/product/components/ltvreports/IapLtvDx.tsx:37-39 | no data gives no names; else exactly the first row's keys other than "date" and "ta_app_install_count" |
| IapLtv.LineKeyNamesOrder | src/page/product/components/ltvreports/IapLtvDx.tsx:37-39 | line names keep the first row's key order |
| IapLtv.LineKeyNamesAllKept | src/page/product/components/ltvreports/IapLtvDx.tsx:37-39 | a first row without the excluded fields gives every key, in order |
| IapLtv.LineKeys | src/page/product/components/ltvreports/IapLtvDx.tsx:40-46 | key i is coloured colors[i mod 8] and named after itself |
| IapLtv.Load | src/page/product/components/ltvreports/IapLtvDx.tsx:32-51 | a status-200 array is kept with its line keys; anything else clears rows and keys and sets the message |
| IapLtv.LoadEmpty | src/page/product/components/ltvreports/IapLtvDx.tsx:33 | an empty array loads without error and with no lines |
| IapLtv.Display | src/page/product/components/ltvreports/IapLtvDx.tsx:93-105 | loading first, then the error, then the chart; there is no empty-data panel |

## Left out

- HTTP, auth and SSO plumbing (`src/api/*`, `src/utils/sso.ts`). Fetch results enter as a `Response` value. A payload whose `data` is not an array is modelled as the failure path the handlers throw into.
- The async React lifecycle: effects, loading flags, concurrent requests sharing one flag, and the order stale responses arrive in. Only each updater's old-to-new-state rule is modelled.
- Rendering, layout, tooltip pixel placement, and chart-library configuration.
- Floating-point formatting: `toFixed`, `customToFixed`, the "(top N%)" text of the trimming notice, axis domains ×1.1 and ×1.2.
- Floating-point numerics. `Math.floor(n * p)` with a binary-float `p` may round differently from the real-number product the model uses.
- The dayjs date library. It computes the default dates of the product page and formats the UA date range; these enter as parameters. `new Date(...).getTime()` in the payer sort is modelled as string order, which `Dates.FullDateOrder` shows is the calendar order for `YYYY-MM-DD` dates. Other date formats are not covered.
- URLSearchParams percent-encoding, `toString` and `navigate`. Only the list of name/value pairs is modelled. The pairs are read back by `get`, so the round trip assumes encoding and decoding are inverse, as the WHATWG URL Standard specifies.
- JavaScript enumerates integer-like object keys (such as "2024") before other keys; the model enumerates in insertion order. A group or bucket literally named "date" would overwrite a row's `date` field; the model keeps the two apart.
- `x in channelColors` and `group in row` also find inherited keys such as "constructor"; the model looks only at own keys. This covers Weekly's colour lookup and DateCentric.Filled, which zero-fills a group only when the row lacks it (src/page/product/components/payuserdata/PayDays.tsx:41).
- Strings are sequences of Unicode scalar values, while JavaScript compares UTF-16 code units. The two orders differ only for characters outside the Basic Multilingual Plane.
- Strings.Lower: lower-cases only `A`–`Z`, whereas `toLowerCase` also maps non-ASCII letters, so `ProductQuery.GameValue`'s "no upper case" is stated for ASCII letters only.
- Strings.IntToString: prints plain decimal, whereas JavaScript switches to exponent form at 1e21 and beyond.
- Weekly.WeekLabel: assumes integer year and week values; a fractional value would print with a decimal point.
- Weekly.WeekNumbers: reads a NaN piece as 0, whereas in JavaScript `NaN - x` is NaN, which the sort treats as 0 (equal); the two agree only when the other piece is 0. Labels made by Weekly.WeekLabel never give NaN.
- Strings.ParseInt: decimal input only; `parseInt`'s hexadecimal reading of a `0x` prefix is not modelled (week labels never have one).
- Bubbles.CalculateAverages: means and sums are exact reals, not floating point.
- GroupPivot.PivotRows: `Number(value)` is taken as already applied (the values are `int`); a non-numeric string, which would become `NaN`, is not modelled.
- Filters.GameChangeAsWritten: clearing the select emits `undefined`, on which `val[0]` throws; only picks of a string are modelled.
- Palette.PalettesDistinct: distinctness of the 27-colour and 18-colour generator palettes is not proved, and no other contract depends on it.
- BarAxis.MaxValue: requires a non-empty chart, because the component returns the no-data panel before computing it; `Math.max()` of nothing is not modelled.
- MockWeeks.LegendAsWritten and MockWeeks.Legend take the legend payload as a parameter. On the static page the `<Legend>` at src/dashboard/ua/components/WeeklyROASChart.tsx:336 is mounted outside `<ComposedChart>`, so it receives no payload and renders nothing; the model does not derive the payload from where the legend is mounted.
- The static mock pages (campaign and creative tables, cards, sidebars, and the line and area charts) and the antd column sorters. Only the two static weekly ROAS pages are modelled, through `MockWeeks`.

## Findings

| source | as written | input that shows it | evidently intended | confidence | as-written member | corrected member |
|---|---|---|---|---|---|---|
| src/page/product/index.tsx:102-105 | after the options load successfully, the same `try` block sets "Failed to load filters." and clears all three option lists (there is no `catch`) | `?platforms=all&game=g` with platforms ["iOS", "Android"]: the options are cleared, so the query is rewritten as `platforms=ios,android` | those four statements belong in a `catch` block: success keeps the options and no error | not executed | ProductQuery.LoadFiltersAsWritten (ProductQuery.LoadFiltersAsWrittenLosesAll) | ProductQuery.LoadFilters (ProductQuery.AllSurvivesLoad) |
| src/page/product/components/filters/index.tsx:27 | `game: val[0] \|\| null`, while the single-mode game select (Game.tsx:17) emits one string | picking "rodeo" sets the game to "r" | take the emitted value itself: `game: val \|\| null` | not executed | Filters.GameChangeAsWritten (Filters.GameChangeAsWrittenLosesName) | Filters.GameChange (Filters.GameChangeRoundTrip) |
| src/dashboard/ua/components/WeeklyROASChart.tsx:227 | the legend name is `dataKey.split(".")[1]`; latent on this page, whose `<Legend>` (line 336) sits outside the chart, gets no payload and so renders nothing (lines 216-217) | once the legend receives the chart's payload, the bar key "channels.Persona.ly" gives "Persona", so clicking its legend entry never toggles "Persona.ly" | the name is everything after the "channels." prefix | not executed | MockWeeks.LegendNameAsWritten (MockWeeks.PersonaLyNeverToggles) | MockWeeks.LegendName (MockWeeks.LegendClickTogglesBarChannel) |
