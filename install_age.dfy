/**
 * The by-date grouping of the install-age chart: each item's
 * `daily_iap_rev` lands in the row of its `$part_date` (taken verbatim)
 * under its `age_install_bucket`; rows keep first-seen date order and are
 * sparse, with no zero fill.
 */
module InstallAge {
  import opened Wrappers
  import opened JsCollections
  import opened Palette
  import opened Fetch
  import opened ChartRows
  import opened DateMap

  /** One API item: `$part_date`, `age_install_bucket` and `daily_iap_rev` (`None` when undefined). */
  datatype AgeItem = AgeItem(partDate: string, bucket: string, rev: Option<int>)

  /** `dateMap[date][item.age_install_bucket] = item.daily_iap_rev` for every item, in order. */
  function AgeAssigns(items: seq<AgeItem>): (r: seq<Assign<Option<int>>>)
    ensures |r| == |items|
    ensures forall i :: 0 <= i < |r| ==> r[i] == Assign(items[i].partDate, items[i].bucket, items[i].rev)
  {
    seq(|items|, i requires 0 <= i < |items| => Assign(items[i].partDate, items[i].bucket, items[i].rev))
  }

  /** The `$part_date` of every item, in order. */
  function PartDates(items: seq<AgeItem>): (r: seq<string>)
    ensures r == AssignDates(AgeAssigns(items))
  {
    seq(|items|, i requires 0 <= i < |items| => items[i].partDate)
  }

  /** `Object.values(dateMap)`: one row per distinct date, in first-seen order. */
  function AgeRows(items: seq<AgeItem>): (rows: seq<Row<Option<int>>>)
    ensures RowDates(rows) == Dedup(PartDates(items))
  {
    var dates := Dedup(PartDates(items));
    seq(|dates|, i requires 0 <= i < |dates| => Row(dates[i], AssignedCells(AgeAssigns(items), dates[i])))
  }

  /** The grouping loop of `fetchInstallAgeData`. */
  method GroupByDate(items: seq<AgeItem>) returns (processedData: seq<Row<Option<int>>>)
    ensures processedData == AgeRows(items)
  {
    ghost var asg := AgeAssigns(items);
    var dateMap: Obj<Row<Option<int>>> := EmptyObj();
    var k := 0;
    while k < |items|
      invariant k <= |items|
      invariant DateMapOf(dateMap, asg[..k])
    {
      var item := items[k];
      assert asg[k] == Assign(item.partDate, item.bucket, item.rev);
      dateMap := AssignCell(dateMap, asg[..k], Assign(item.partDate, item.bucket, item.rev));
      assert asg[..k + 1] == asg[..k] + [asg[k]];
      k := k + 1;
    }
    assert asg[..k] == asg;
    processedData := Values(dateMap);
    AgeRowsOfDateMap(items, dateMap);
  }

  /** A date map built from all the items holds, in key order, exactly the rows of `AgeRows`. */
  lemma AgeRowsOfDateMap(items: seq<AgeItem>, dateMap: Obj<Row<Option<int>>>)
    requires DateMapOf(dateMap, AgeAssigns(items))
    ensures Values(dateMap) == AgeRows(items)
  {
    var rows := AgeRows(items);
    assert |rows| == |Dedup(PartDates(items))| by {
      assert RowDates(rows) == Dedup(PartDates(items));
    }
    forall j | 0 <= j < |rows| ensures Values(dateMap)[j] == rows[j] {
      assert Values(dateMap)[j] == dateMap.vals[dateMap.keys[j]];
    }
  }

  /** Some item has this date and bucket. */
  predicate HasItem(items: seq<AgeItem>, d: string, b: string) {
    exists i :: 0 <= i < |items| && items[i].partDate == d && items[i].bucket == b
  }

  /**
   * Rows are sparse and the later item wins: a bucket has a column on a
   * date exactly when some item has that date and bucket, holding the last
   * such item's `daily_iap_rev`.
   */
  lemma AgeRowCell(items: seq<AgeItem>, i: nat, b: string)
    requires i < |AgeRows(items)|
    ensures var d := AgeRows(items)[i].date;
      && (HasItem(items, d, b) ==> AgeRows(items)[i].cells.Get(b) == Some(items[LastAssign(AgeAssigns(items), d, b)].rev))
      && (!HasItem(items, d, b) ==> AgeRows(items)[i].cells.Get(b) == None)
  {
    var asg := AgeAssigns(items);
    var d := AgeRows(items)[i].date;
    assert RowDates(AgeRows(items))[i] == d;
    AssignedCellsLookup(asg, d, b);
    if HasItem(items, d, b) {
      var k :| 0 <= k < |items| && items[k].partDate == d && items[k].bucket == b;
      assert asg[k].date == d && asg[k].group == b;
    }
    if HasAssign(asg, d, b) {
      var k :| 0 <= k < |asg| && asg[k].date == d && asg[k].group == b;
      assert items[k].partDate == d && items[k].bucket == b;
    }
  }

  /** Row dates are the item dates verbatim, each once, in order of first appearance. */
  lemma AgeRowDates(items: seq<AgeItem>, i: nat, j: nat, d: string)
    requires i < j < |AgeRows(items)|
    ensures AgeRows(items)[i].date != AgeRows(items)[j].date
    ensures FirstIndex(PartDates(items), AgeRows(items)[i].date) < FirstIndex(PartDates(items), AgeRows(items)[j].date)
    ensures d in RowDates(AgeRows(items)) <==> exists k :: 0 <= k < |items| && items[k].partDate == d
  {
    var rows := AgeRows(items);
    assert RowDates(rows)[i] == rows[i].date && RowDates(rows)[j] == rows[j].date;
    DedupFirstSeenOrder(PartDates(items), i, j);
    if d in PartDates(items) {
      var k :| 0 <= k < |items| && PartDates(items)[k] == d;
    }
    if exists k :: 0 <= k < |items| && items[k].partDate == d {
      var k :| 0 <= k < |items| && items[k].partDate == d;
      assert PartDates(items)[k] == d;
    }
  }

  // ---------------------------------------------------------------- the chart

  /** `apiData.map(item => item.age_install_bucket)`: each item's bucket, in item order. */
  function Buckets(apiData: seq<AgeItem>): (r: seq<string>)
    ensures |r| == |apiData| && forall i :: 0 <= i < |r| ==> r[i] == apiData[i].bucket
  {
    MapSeq(apiData, (item: AgeItem) => item.bucket)
  }

  /** `bucketNames`: the distinct buckets in first-seen order. */
  function BucketNames(apiData: seq<AgeItem>): (r: seq<string>)
    ensures Distinct(r)
    ensures forall b :: b in r <==> b in Buckets(apiData)
    ensures forall b :: b in r <==> exists i :: 0 <= i < |apiData| && apiData[i].bucket == b
    ensures forall i, j :: 0 <= i < j < |r| ==> FirstIndex(Buckets(apiData), r[i]) < FirstIndex(Buckets(apiData), r[j])
  {
    BucketsMembers(apiData);
    DedupOrdered(Buckets(apiData));
    Dedup(Buckets(apiData))
  }

  /** A bucket is listed exactly when some item has it. */
  lemma BucketsMembers(apiData: seq<AgeItem>)
    ensures forall b :: b in Buckets(apiData) <==> exists i :: 0 <= i < |apiData| && apiData[i].bucket == b
  {
    var buckets := Buckets(apiData);
    forall b | exists i :: 0 <= i < |apiData| && apiData[i].bucket == b ensures b in buckets {
      var i :| 0 <= i < |apiData| && apiData[i].bucket == b;
      assert buckets[i] == b;
    }
  }

  /** `barKeys`: bucket `i` named after itself in colour `colorPalette[i mod 7]`. */
  function BarKeys(apiData: seq<AgeItem>): (r: seq<SeriesKey>)
    ensures |r| == |BucketNames(apiData)|
    ensures forall i :: 0 <= i < |r| ==>
      r[i] == SeriesKey(BucketNames(apiData)[i], ProductPalette[i % 7], BucketNames(apiData)[i])
  {
    SeriesKeys(BucketNames(apiData), ProductPalette)
  }

  /** What the install-age chart holds after a load. */
  datatype View = View(chartData: seq<Row<Option<int>>>, apiData: seq<AgeItem>, error: Option<string>)

  /** The load handler: rows and raw items on success; both emptied and a message on failure. */
  function Load(response: Response<seq<AgeItem>>): (v: View)
    ensures Usable(response) ==> v == View(AgeRows(response.data.value), response.data.value, None)
    ensures !Usable(response) ==> v == View([], [], Some("Failed to load install age data."))
  {
    if Usable(response) then View(AgeRows(response.data.value), response.data.value, None)
    else View([], [], Some("Failed to load install age data."))
  }
}
