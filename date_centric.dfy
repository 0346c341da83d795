/**
 * The payer chart's `extractGroupsFromApiData` and `groupDataToDateCentric`:
 * every `(date, group, value)` assignment of the records lands in the row
 * of its date (the last assignment to a cell winning), every row is then
 * completed with a 0 for each group it lacks, and the rows are sorted by
 * date.
 */
module DateCentric {
  import opened Wrappers
  import opened JsCollections
  import opened Strings
  import opened Sorting
  import opened Dates
  import opened Palette
  import opened Fetch
  import opened ChartRows
  import opened DateMap

  /** One API record: `group_0` and `data_map_0`'s entries, `None` when it is missing or null. */
  datatype PayRecord = PayRecord(group: string, dataMap: Option<seq<(string, int)>>)


  // ---------------------------------------------------------------- the groups

  /** `extractGroupsFromApiData`: every record's group, or none when the first group is falsy. */
  function ExtractGroups(apiData: seq<PayRecord>): (r: seq<string>)
    ensures apiData == [] || apiData[0].group == "" ==> r == []
    ensures apiData != [] && apiData[0].group != "" ==>
      |r| == |apiData| && forall i :: 0 <= i < |r| ==> r[i] == apiData[i].group
  {
    if |apiData| > 0 && apiData[0].group != "" then
      seq(|apiData|, i requires 0 <= i < |apiData| => apiData[i].group)
    else []
  }

  /** The groups in record order, duplicates kept. */
  function Groups(data: seq<PayRecord>): (r: seq<string>)
    ensures |r| == |data| && forall i :: 0 <= i < |r| ==> r[i] == data[i].group
  {
    MapSeq(data, (rec: PayRecord) => rec.group)
  }

  // ---------------------------------------------------------------- assignments

  /** The assignments one record makes, in entry order; none without a data map. */
  function ItemAssigns(item: PayRecord): (r: seq<Assign<int>>)
    ensures item.dataMap.None? ==> r == []
    ensures item.dataMap.Some? ==> |r| == |item.dataMap.value|
    ensures item.dataMap.Some? ==> forall i :: 0 <= i < |r| ==>
      r[i] == Assign(DateOnly(item.dataMap.value[i].0), item.group, item.dataMap.value[i].1)
  {
    match item.dataMap
    case None => []
    case Some(es) => seq(|es|, i requires 0 <= i < |es| => Assign(DateOnly(es[i].0), item.group, es[i].1))
  }

  /** Every assignment of the first loop, in execution order. */
  function Assigns(data: seq<PayRecord>): seq<Assign<int>> {
    if data == [] then []
    else Assigns(data[..|data| - 1]) + ItemAssigns(data[|data| - 1])
  }

  /** `Object.entries(item.data_map_0 || {}).forEach(...)` for one record. */
  method AssignEntries(dateMap0: Obj<Row<int>>, ghost before: seq<Assign<int>>, item: PayRecord)
    returns (dateMap: Obj<Row<int>>)
    requires DateMapOf(dateMap0, before)
    ensures DateMapOf(dateMap, before + ItemAssigns(item))
  {
    dateMap := dateMap0;
    var es := item.dataMap.GetOr([]);
    var all := ItemAssigns(item);
    assert |all| == |es|;
    var e := 0;
    assert before + all[..0] == before;
    while e < |es|
      invariant e <= |es|
      invariant DateMapOf(dateMap, before + all[..e])
    {
      var a := Assign(DateOnly(es[e].0), item.group, es[e].1);
      ItemAssignsStep(before, item, e);
      dateMap := AssignCell(dateMap, before + all[..e], a);
      e := e + 1;
    }
    assert all[..e] == all;
  }

  /** The `e`-th entry of a record extends the assignments made before it by one. */
  lemma ItemAssignsStep(before: seq<Assign<int>>, item: PayRecord, e: nat)
    requires e < |item.dataMap.GetOr([])|
    ensures var es := item.dataMap.GetOr([]);
      before + ItemAssigns(item)[..e + 1]
      == before + ItemAssigns(item)[..e] + [Assign(DateOnly(es[e].0), item.group, es[e].1)]
  {
    var all := ItemAssigns(item);
    assert all[..e + 1] == all[..e] + [all[e]];
  }

  /** The first loop over the records: `dateMap` and `allGroups`. */
  method CollectAssignments(data: seq<PayRecord>) returns (dateMap: Obj<Row<int>>, groupList: seq<string>)
    ensures DateMapOf(dateMap, Assigns(data))
    ensures groupList == Dedup(Groups(data))
  {
    dateMap := EmptyObj();
    groupList := [];
    var g := 0;
    while g < |data|
      invariant g <= |data|
      invariant DateMapOf(dateMap, Assigns(data[..g]))
      invariant groupList == Dedup(Groups(data[..g]))
    {
      var item := data[g];
      ghost var before := Assigns(data[..g]);
      assert data[..g + 1][..g] == data[..g];
      GroupListStep(data, g);
      if item.group !in groupList {
        groupList := groupList + [item.group];
      }
      dateMap := AssignEntries(dateMap, before, item);
      assert Assigns(data[..g + 1]) == before + ItemAssigns(item);
      g := g + 1;
    }
    assert data[..g] == data;
  }

  /** One more record adds its group to the distinct groups so far, unless it is there already. */
  lemma GroupListStep(data: seq<PayRecord>, g: nat)
    requires g < |data|
    ensures var seen := Dedup(Groups(data[..g]));
      Dedup(Groups(data[..g + 1])) == if data[g].group in seen then seen else seen + [data[g].group]
  {
    assert Groups(data[..g + 1]) == Groups(data[..g]) + [data[g].group];
    DedupSnoc(Groups(data[..g]), data[g].group);
  }

  // ---------------------------------------------------------------- zero fill

  /** `groupList.forEach(group => { if (!(group in row)) row[group] = 0; })` on the cells. */
  function Filled(cells: Obj<int>, groups: seq<string>): (r: Obj<int>)
    ensures cells.Valid() ==> r.Valid()
  {
    if groups == [] then cells
    else
      var n := |groups| - 1;
      var c := Filled(cells, groups[..n]);
      if groups[n] in c.vals then c else Put(c, groups[n], 0)
  }

  /** Filling keeps existing values, adds 0 for each missing group and nothing else. */
  lemma {:induction false} FilledLookup(cells: Obj<int>, groups: seq<string>, g: string)
    ensures g in cells.vals ==> Filled(cells, groups).Get(g) == cells.Get(g)
    ensures g !in cells.vals && g in groups ==> Filled(cells, groups).Get(g) == Some(0)
    ensures g !in cells.vals && g !in groups ==> Filled(cells, groups).Get(g) == None
  {
    if groups != [] {
      var n := |groups| - 1;
      FilledLookup(cells, groups[..n], g);
      assert groups == groups[..n] + [groups[n]];
    }
  }

  /** The zero fill of one row. */
  method FillRow(row0: Row<int>, groupList: seq<string>) returns (row: Row<int>)
    ensures row == Row(row0.date, Filled(row0.cells, groupList))
  {
    row := row0;
    var k := 0;
    while k < |groupList|
      invariant k <= |groupList|
      invariant row == Row(row0.date, Filled(row0.cells, groupList[..k]))
    {
      assert groupList[..k + 1][..k] == groupList[..k];
      var group := groupList[k];
      if group !in row.cells.vals {
        row := row.(cells := Put(row.cells, group, 0));
      }
      k := k + 1;
    }
    assert groupList[..k] == groupList;
  }

  // ---------------------------------------------------------------- the result

  /** `Object.values(dateMap)` after the fill, before sorting. */
  function UnsortedRows(data: seq<PayRecord>): (r: seq<Row<int>>)
    ensures |r| == |Dedup(AssignDates(Assigns(data)))|
  {
    var dates := Dedup(AssignDates(Assigns(data)));
    seq(|dates|, i requires 0 <= i < |dates| =>
      Row(dates[i], Filled(AssignedCells(Assigns(data), dates[i]), Dedup(Groups(data)))))
  }

  /** `groupDataToDateCentric(data)`: the filled rows sorted by date. */
  function DateCentricRows(data: seq<PayRecord>): (r: seq<Row<int>>)
    ensures SortedBy(r, (a: Row<int>, b: Row<int>) => RowLe(a, b))
    ensures multiset(r) == multiset(UnsortedRows(data))
  {
    RowLeIsTotalPreorder<int>();
    SortBy(UnsortedRows(data), (a: Row<int>, b: Row<int>) => RowLe(a, b))
  }

  /** The fill loop: each row of `Object.values(dateMap)` completed with the zeros it lacks. */
  method FillRows(rows: seq<Row<int>>, groupList: seq<string>) returns (processedData: seq<Row<int>>)
    ensures |processedData| == |rows|
    ensures forall j :: 0 <= j < |rows| ==> processedData[j] == Row(rows[j].date, Filled(rows[j].cells, groupList))
  {
    processedData := [];
    var i := 0;
    while i < |rows|
      invariant i <= |rows|
      invariant |processedData| == i
      invariant forall j :: 0 <= j < i ==> processedData[j] == Row(rows[j].date, Filled(rows[j].cells, groupList))
    {
      var row := FillRow(rows[i], groupList);
      processedData := processedData + [row];
      i := i + 1;
    }
  }

  /** `groupDataToDateCentric(data)`. */
  method GroupDataToDateCentric(data: seq<PayRecord>) returns (processedData: seq<Row<int>>)
    ensures processedData == DateCentricRows(data)
  {
    var dateMap, groupList := CollectAssignments(data);
    var rows := Values(dateMap);
    processedData := FillRows(rows, groupList);
    forall j | 0 <= j < |rows| ensures processedData[j] == UnsortedRows(data)[j] {
      assert rows[j] == dateMap.vals[dateMap.keys[j]];
    }
    assert processedData == UnsortedRows(data);
    RowLeIsTotalPreorder<int>();
    processedData := SortBy(processedData, (a: Row<int>, b: Row<int>) => RowLe(a, b));
  }

  /** A row's cell `g`: the last value assigned to it, else 0 for a known group, else absent. */
  lemma CellOfRow(data: seq<PayRecord>, i: nat, g: string)
    requires i < |DateCentricRows(data)|
    ensures var row := DateCentricRows(data)[i]; var asg := Assigns(data);
      && (HasAssign(asg, row.date, g) ==> row.cells.Get(g) == Some(asg[LastAssign(asg, row.date, g)].value))
      && (!HasAssign(asg, row.date, g) && g in Groups(data) ==> row.cells.Get(g) == Some(0))
      && (!HasAssign(asg, row.date, g) && g !in Groups(data) ==> row.cells.Get(g) == None)
  {
    var rows := DateCentricRows(data);
    var row := rows[i];
    assert row in multiset(UnsortedRows(data));
    var j :| 0 <= j < |UnsortedRows(data)| && UnsortedRows(data)[j] == row;
    var asg := Assigns(data);
    AssignedCellsLookup(asg, row.date, g);
    FilledLookup(AssignedCells(asg, row.date), Dedup(Groups(data)), g);
    assert g in AssignedCells(asg, row.date).vals <==> HasAssign(asg, row.date, g);
  }

  /** Exactly one row per distinct truncated date key, in ascending date order. */
  lemma RowsPerDate(data: seq<PayRecord>, i: nat, j: nat, d: string)
    requires i < j < |DateCentricRows(data)|
    ensures DateCentricRows(data)[i].date != DateCentricRows(data)[j].date
    ensures LexLe(DateCentricRows(data)[i].date, DateCentricRows(data)[j].date)
    ensures (exists k :: 0 <= k < |DateCentricRows(data)| && DateCentricRows(data)[k].date == d)
      <==> d in AssignDates(Assigns(data))
  {
    var rows := DateCentricRows(data);
    RowDatesExact(data);
    assert RowDates(rows)[i] == rows[i].date && RowDates(rows)[j] == rows[j].date;
    if exists k :: 0 <= k < |rows| && rows[k].date == d {
      var k :| 0 <= k < |rows| && rows[k].date == d;
      assert RowDates(rows)[k] == d;
    }
    if d in AssignDates(Assigns(data)) {
      var k :| 0 <= k < |rows| && RowDates(rows)[k] == d;
    }
  }

  /** The sorted rows' dates are distinct and are exactly the assigned dates. */
  lemma RowDatesExact(data: seq<PayRecord>)
    ensures Distinct(RowDates(DateCentricRows(data)))
    ensures forall d :: d in RowDates(DateCentricRows(data)) <==> d in AssignDates(Assigns(data))
  {
    var rows := DateCentricRows(data);
    var un := UnsortedRows(data);
    var dates := Dedup(AssignDates(Assigns(data)));
    assert RowDates(un) == dates;
    MultisetMap(un, rows);
    DistinctPermutation(dates, RowDates(rows));
    forall d ensures d in RowDates(rows) <==> d in AssignDates(Assigns(data)) {
      assert d in RowDates(rows) <==> d in multiset(RowDates(rows));
      assert d in dates <==> d in multiset(dates);
    }
  }

  /** Rearranging rows rearranges their dates alike. */
  lemma {:induction false} MultisetMap(a: seq<Row<int>>, b: seq<Row<int>>)
    requires multiset(a) == multiset(b)
    ensures multiset(RowDates(a)) == multiset(RowDates(b))
    decreases |a|
  {
    if a == [] {
      assert |b| == |multiset(b)| == 0;
    } else {
      var a', x := a[..|a| - 1], a[|a| - 1];
      assert a == a' + [x];
      assert x in multiset(b);
      var k :| 0 <= k < |b| && b[k] == x;
      var b1, b2 := b[..k], b[k + 1..];
      assert b == b1 + [x] + b2;
      RemoveOne(a', b1, b2, x);
      MultisetMap(a', b1 + b2);
      RowDatesConcat(a', [x]);
      RowDatesConcat(b1, [x]);
      RowDatesConcat(b1 + [x], b2);
      RowDatesConcat(b1, b2);
    }
  }

  lemma RemoveOne(a': seq<Row<int>>, b1: seq<Row<int>>, b2: seq<Row<int>>, x: Row<int>)
    requires multiset(a' + [x]) == multiset(b1 + [x] + b2)
    ensures multiset(a') == multiset(b1 + b2)
  {
    assert multiset(a' + [x]) == multiset(a') + multiset{x};
    assert multiset(a') == multiset(a' + [x]) - multiset{x};
    assert multiset(b1 + [x] + b2) == multiset(b1) + multiset{x} + multiset(b2);
    assert multiset(b1 + b2) == multiset(b1) + multiset(b2);
  }

  lemma RowDatesConcat(x: seq<Row<int>>, y: seq<Row<int>>)
    ensures RowDates(x + y) == RowDates(x) + RowDates(y)
  {
  }

  /** When the first group is set, every row has a column for each line key and for nothing else. */
  lemma LineKeysMatchColumns(data: seq<PayRecord>, i: nat, g: string)
    requires data != [] && data[0].group != "" && i < |DateCentricRows(data)|
    ensures g in DateCentricRows(data)[i].cells.vals <==> g in ExtractGroups(data)
  {
    CellOfRow(data, i, g);
    var row := DateCentricRows(data)[i];
    var asg := Assigns(data);
    assert ExtractGroups(data) == Groups(data);
    if HasAssign(asg, row.date, g) {
      AssignOfGroup(data, row.date, g);
      assert g in row.cells.vals;
    } else {
      assert g in row.cells.vals <==> g in Groups(data);
    }
  }

  /** Only a record's own group is ever assigned. */
  lemma {:induction false} AssignOfGroup(data: seq<PayRecord>, d: string, g: string)
    requires HasAssign(Assigns(data), d, g)
    ensures g in Groups(data)
  {
    var n := |data| - 1;
    var asg := Assigns(data);
    var i :| 0 <= i < |asg| && asg[i].date == d && asg[i].group == g;
    var p := Assigns(data[..n]);
    assert asg == p + ItemAssigns(data[n]);
    if i < |p| {
      assert p[i] == asg[i];
      AssignOfGroup(data[..n], d, g);
      assert Groups(data[..n]) == Groups(data)[..n];
    } else {
      assert ItemAssigns(data[n])[i - |p|] == asg[i];
      assert Groups(data)[n] == g;
    }
  }

  /** For `full-date` rows the date order is the calendar order. */
  lemma RowsChronological(data: seq<PayRecord>, i: nat, j: nat)
    requires i < j < |DateCentricRows(data)|
    requires IsFullDate(DateCentricRows(data)[i].date) && IsFullDate(DateCentricRows(data)[j].date)
    ensures ChronoLe(DateCentricRows(data)[i].date, DateCentricRows(data)[j].date)
  {
    FullDateOrder(DateCentricRows(data)[i].date, DateCentricRows(data)[j].date);
  }

  // ---------------------------------------------------------------- the chart

  /** `lineKeys`: group `i` in colour `colorPalette[i mod 7]`. */
  function LineKeys(apiData: seq<PayRecord>): (r: seq<SeriesKey>)
    ensures |r| == |ExtractGroups(apiData)|
    ensures forall i :: 0 <= i < |r| ==> r[i].key == ExtractGroups(apiData)[i] && r[i].color == ProductPalette[i % 7]
  {
    SeriesKeys(ExtractGroups(apiData), ProductPalette)
  }

  /** What the payer chart holds after a load: the rows, the raw records and an error. */
  datatype View = View(chartData: seq<Row<int>>, apiData: seq<PayRecord>, error: Option<string>)

  /** The load handler: the pivot on success, everything emptied and a message on failure. */
  function Load(response: Response<seq<PayRecord>>): (v: View)
    ensures Usable(response) ==> v == View(DateCentricRows(response.data.value), response.data.value, None)
    ensures !Usable(response) ==> v == View([], [], Some("Failed to load ARPPU data."))
  {
    if Usable(response) then View(DateCentricRows(response.data.value), response.data.value, None)
    else View([], [], Some("Failed to load ARPPU data."))
  }
}
