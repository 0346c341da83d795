/**
 * The IAP LTV detail chart: its line series are the keys of the first row
 * other than the x-axis `date` and the install count, each coloured from an
 * eight-colour palette by position and named after itself.
 */
module IapLtv {
  import opened Wrappers
  import opened JsCollections
  import opened Filtering
  import opened Palette
  import opened Fetch
  import opened Panels

  /** The two row fields that are not LTV series. */
  predicate IsSeriesKey(k: string) {
    k != "date" && k != "ta_app_install_count"
  }

  /** `Object.keys(data[0] || {})` without the two excluded fields, in key order. */
  function LineKeyNames<V>(data: seq<Obj<V>>): (r: seq<string>)
    ensures data == [] ==> r == []
    ensures data != [] ==> forall k :: k in r <==> k in data[0].keys && IsSeriesKey(k)
    ensures forall i :: 0 <= i < |r| ==> IsSeriesKey(r[i])
  {
    if data == [] then [] else Filter(data[0].keys, IsSeriesKey)
  }

  /** Line names keep the order of the first row's keys. */
  lemma LineKeyNamesOrder<V>(data: seq<Obj<V>>, i: nat, j: nat)
    requires data != [] && i < j < |LineKeyNames(data)|
    ensures exists a, b ::
              0 <= a < b < |data[0].keys| && data[0].keys[a] == LineKeyNames(data)[i] && data[0].keys[b] == LineKeyNames(data)[j]
  {
    FilterOrder(data[0].keys, IsSeriesKey, i, j);
  }

  /** A first row without the two excluded fields gives one line per key, in key order. */
  lemma LineKeyNamesAllKept<V>(data: seq<Obj<V>>)
    requires data != [] && forall i :: 0 <= i < |data[0].keys| ==> IsSeriesKey(data[0].keys[i])
    ensures LineKeyNames(data) == data[0].keys
  {
    FilterKeepsAll(data[0].keys, IsSeriesKey);
  }

  /** `lineKeys`: key `i` coloured `colors[i mod 8]` and named after itself. */
  function LineKeys<V>(data: seq<Obj<V>>): (r: seq<SeriesKey>)
    ensures |r| == |LineKeyNames(data)|
    ensures forall i :: 0 <= i < |r| ==>
      r[i] == SeriesKey(LineKeyNames(data)[i], LtvColors[i % 8], LineKeyNames(data)[i])
  {
    SeriesKeys(LineKeyNames(data), LtvColors)
  }

  /** What the chart holds after a load. */
  datatype View<V> = View(chartData: seq<Obj<V>>, lineKeys: seq<SeriesKey>, error: Option<string>)

  /**
   * The load handler: a status other than 200 or a `data` that is not an
   * array (a missing `data` reads as `[]`) clears the rows and the keys and
   * sets the message; otherwise the rows are kept verbatim with their keys.
   */
  function Load<V>(response: Response<seq<Obj<V>>>): (v: View<V>)
    ensures Usable(response) ==> v.chartData == response.data.value && v.error == None
    ensures Usable(response) ==> v.lineKeys == LineKeys(response.data.value)
    ensures !Usable(response) ==> v == View([], [], Some("Failed to load LTV data."))
  {
    if Usable(response) then View(response.data.value, LineKeys(response.data.value), None)
    else View([], [], Some("Failed to load LTV data."))
  }

  /** An empty array loads without error and with no lines. */
  lemma LoadEmpty<V>()
    ensures Load<V>(Answered(200, Some([]))) == View([], [], None)
  {
  }

  /** The panel: loading first, then the error; there is no empty-data panel, so `[]` shows the chart. */
  function Display<V>(isLoading: bool, view: View<V>): (d: Panels.Display)
    ensures d == Loading <==> isLoading
    ensures d.ErrorMessage? <==> !isLoading && Truthy(view.error)
    ensures d != NoData
    ensures d == Chart <==> !isLoading && !Truthy(view.error)
  {
    if isLoading then Loading
    else if Truthy(view.error) then ErrorMessage(view.error.value)
    else Chart
  }
}
