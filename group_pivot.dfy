/**
 * `pivotGroupApiData` of the install-days chart: records of
 * `{ group_0, data_map_0: { "<date> <time>": n } }` become one row per
 * distinct date (the key up to its first space), in ascending string order,
 * each row holding one column per group whose value map is an object.
 */
module GroupPivot {
  import opened Wrappers
  import opened JsCollections
  import opened Strings
  import opened Sorting
  import opened Dates
  import opened Palette
  import opened Fetch
  import opened ChartRows

  /** `data_map_0`: an object's entries in key order, or a value that is not an object. */
  datatype ValueMap = NotObject | Object(entries: seq<(string, int)>)

  /** One API record: `String(group_0)` and `data_map_0`. */
  datatype GroupRecord = GroupRecord(group: string, valueMap: ValueMap)

  // ---------------------------------------------------------------- dates

  /** The dates of an object's keys, in key order. */
  function EntryDates(entries: seq<(string, int)>): (r: seq<string>)
    ensures |r| == |entries|
    ensures forall i :: 0 <= i < |r| ==> r[i] == DateOnly(entries[i].0)
  {
    seq(|entries|, i requires 0 <= i < |entries| => DateOnly(entries[i].0))
  }

  /** One more key adds its date at the end. */
  lemma EntryDatesSnoc(entries: seq<(string, int)>, e: nat)
    requires e < |entries|
    ensures EntryDates(entries[..e + 1]) == EntryDates(entries[..e]) + [DateOnly(entries[e].0)]
  {
    assert |EntryDates(entries[..e + 1])| == |EntryDates(entries[..e]) + [DateOnly(entries[e].0)]|;
  }

  /** The dates one record adds to the set: none unless its value map is an object. */
  function RecordDates(rec: GroupRecord): seq<string> {
    match rec.valueMap
    case NotObject => []
    case Object(entries) => EntryDates(entries)
  }

  /** Every date added to `allDatesSet`, in the order of the loops that add them. */
  function AddedDates(apiData: seq<GroupRecord>): seq<string> {
    if apiData == [] then []
    else AddedDates(apiData[..|apiData| - 1]) + RecordDates(apiData[|apiData| - 1])
  }

  /** The record's value map is an object with a key truncating to `d`. */
  predicate HasDateKey(rec: GroupRecord, d: string) {
    rec.valueMap.Object?
    && exists k :: 0 <= k < |rec.valueMap.entries| && DateOnly(rec.valueMap.entries[k].0) == d
  }

  /** A record adds `d` exactly when it has a key truncating to `d`. */
  lemma RecordDatesMembers(rec: GroupRecord, d: string)
    ensures d in RecordDates(rec) <==> HasDateKey(rec, d)
  {
    if d in RecordDates(rec) {
      var k :| 0 <= k < |RecordDates(rec)| && RecordDates(rec)[k] == d;
      assert DateOnly(rec.valueMap.entries[k].0) == d;
    }
  }

  /** A date is added exactly when some object record has a key truncating to it. */
  lemma AddedDatesMembers(apiData: seq<GroupRecord>, d: string)
    ensures d in AddedDates(apiData) <==> exists i :: 0 <= i < |apiData| && HasDateKey(apiData[i], d)
  {
    if d in AddedDates(apiData) {
      var i := AddedDateSource(apiData, d);
    }
    if exists i :: 0 <= i < |apiData| && HasDateKey(apiData[i], d) {
      var i :| 0 <= i < |apiData| && HasDateKey(apiData[i], d);
      AddedDateOfRecord(apiData, i, d);
    }
  }

  /** An added date comes from a key of some object record. */
  lemma {:induction false} AddedDateSource(apiData: seq<GroupRecord>, d: string) returns (i: nat)
    requires d in AddedDates(apiData)
    ensures i < |apiData| && HasDateKey(apiData[i], d)
  {
    var n := |apiData| - 1;
    var prefix := apiData[..n];
    assert AddedDates(apiData) == AddedDates(prefix) + RecordDates(apiData[n]);
    if d in RecordDates(apiData[n]) {
      RecordDatesMembers(apiData[n], d);
      i := n;
    } else {
      i := AddedDateSource(prefix, d);
      assert prefix[i] == apiData[i];
    }
  }

  /** Every key of an object record adds its date. */
  lemma {:induction false} AddedDateOfRecord(apiData: seq<GroupRecord>, i: nat, d: string)
    requires i < |apiData| && HasDateKey(apiData[i], d)
    ensures d in AddedDates(apiData)
  {
    var n := |apiData| - 1;
    var prefix := apiData[..n];
    assert AddedDates(apiData) == AddedDates(prefix) + RecordDates(apiData[n]);
    if i == n {
      RecordDatesMembers(apiData[n], d);
    } else {
      assert prefix[i] == apiData[i];
      AddedDateOfRecord(prefix, i, d);
    }
  }

  /** `Array.from(allDatesSet).sort()`. */
  function AllDates(apiData: seq<GroupRecord>): (r: seq<string>)
    ensures SortedBy(r, LexLe) && Distinct(r)
    ensures forall d :: d in r <==> d in AddedDates(apiData)
  {
    LexLeIsTotalPreorder();
    var r := SortBy(Dedup(AddedDates(apiData)), LexLe);
    DistinctPermutation(Dedup(AddedDates(apiData)), r);
    assert forall d :: d in r <==> d in multiset(r);
    r
  }

  // ---------------------------------------------------------------- columns

  /** `Object.entries(valueMap).find(([k]) => k.split(' ')[0] === date)`, as an index. */
  function FindEntry(entries: seq<(string, int)>, date: string): (r: Option<nat>)
    ensures r.Some? ==> r.value < |entries| && DateOnly(entries[r.value].0) == date
    ensures forall j :: 0 <= j < |entries| && (r.None? || j < r.value) ==> DateOnly(entries[j].0) != date
  {
    if entries == [] then None
    else if DateOnly(entries[0].0) == date then Some(0)
    else
      match FindEntry(entries[1..], date)
      case Some(i) => Some(i + 1)
      case None => None
  }

  /** The column value: the found entry's number, or 0 when no key has that date. */
  function CellValue(entries: seq<(string, int)>, date: string): (v: int)
    ensures v != 0 ==> exists i :: 0 <= i < |entries| && DateOnly(entries[i].0) == date && entries[i].1 == v
    ensures (forall j :: 0 <= j < |entries| ==> DateOnly(entries[j].0) != date) ==> v == 0
  {
    match FindEntry(entries, date)
    case Some(i) => entries[i].1
    case None => 0
  }

  /** The groups of the records whose value map is an object, in record order. */
  function ObjectGroups(apiData: seq<GroupRecord>): (r: seq<string>)
    ensures forall k :: k in r <==> exists i :: 0 <= i < |apiData| && apiData[i].group == k && apiData[i].valueMap.Object?
  {
    if apiData == [] then []
    else
      var n := |apiData| - 1;
      var p := ObjectGroups(apiData[..n]);
      assert forall i :: 0 <= i < n ==> apiData[..n][i] == apiData[i];
      if apiData[n].valueMap.Object? then p + [apiData[n].group] else p
  }

  /** The last object record carrying group `k`. */
  function LastObjectIndex(apiData: seq<GroupRecord>, k: string): (i: nat)
    requires k in ObjectGroups(apiData)
    ensures i < |apiData| && apiData[i].group == k && apiData[i].valueMap.Object?
    ensures forall j :: i < j < |apiData| ==> !(apiData[j].group == k && apiData[j].valueMap.Object?)
  {
    var n := |apiData| - 1;
    if apiData[n].group == k && apiData[n].valueMap.Object? then n
    else
      assert k in ObjectGroups(apiData[..n]) by {
        var i :| 0 <= i < |apiData| && apiData[i].group == k && apiData[i].valueMap.Object?;
        assert apiData[..n][i] == apiData[i];
      }
      LastObjectIndex(apiData[..n], k)
  }

  /** The columns of the row for `date` after the inner loop has visited every record. */
  function RowCells(apiData: seq<GroupRecord>, date: string): (r: Obj<int>)
    ensures r.Valid()
    ensures r.keys == Dedup(ObjectGroups(apiData))
  {
    if apiData == [] then EmptyObj()
    else
      var n := |apiData| - 1;
      var rec := apiData[n];
      match rec.valueMap
      case NotObject => RowCells(apiData[..n], date)
      case Object(entries) =>
        DedupSnoc(ObjectGroups(apiData[..n]), rec.group);
        Put(RowCells(apiData[..n], date), rec.group, CellValue(entries, date))
  }

  /**
   * Density and overwrite: a group has a column exactly when some record
   * carrying it has an object value map, and the column holds the value the
   * last such record gives for the date (0 when none of its keys match).
   */
  lemma {:induction false} RowCellsLookup(apiData: seq<GroupRecord>, date: string, k: string)
    ensures k in ObjectGroups(apiData) ==>
      RowCells(apiData, date).Get(k) == Some(CellValue(apiData[LastObjectIndex(apiData, k)].valueMap.entries, date))
    ensures k !in ObjectGroups(apiData) ==> RowCells(apiData, date).Get(k) == None
  {
    if apiData != [] {
      var n := |apiData| - 1;
      var rec := apiData[n];
      RowCellsLookup(apiData[..n], date, k);
      if rec.valueMap.Object? && rec.group == k {
        assert LastObjectIndex(apiData, k) == n;
      } else {
        assert RowCells(apiData, date).Get(k) == RowCells(apiData[..n], date).Get(k);
        ObjectGroupsOfPrefix(apiData, k);
      }
    }
  }

  /** A record that is not an object record for `k` leaves `k`'s last object record where it was. */
  lemma ObjectGroupsOfPrefix(apiData: seq<GroupRecord>, k: string)
    requires |apiData| > 0
    requires !(apiData[|apiData| - 1].group == k && apiData[|apiData| - 1].valueMap.Object?)
    ensures k in ObjectGroups(apiData) <==> k in ObjectGroups(apiData[..|apiData| - 1])
    ensures k in ObjectGroups(apiData) ==> LastObjectIndex(apiData, k) == LastObjectIndex(apiData[..|apiData| - 1], k)
  {
    var n := |apiData| - 1;
    if apiData[n].valueMap.Object? {
      assert ObjectGroups(apiData) == ObjectGroups(apiData[..n]) + [apiData[n].group];
    } else {
      assert ObjectGroups(apiData) == ObjectGroups(apiData[..n]);
    }
  }

  /** When several keys share a date, the first in key order supplies the value. */
  lemma FirstKeyWins(entries: seq<(string, int)>, date: string, i: nat)
    requires i < |entries| && DateOnly(entries[i].0) == date
    requires forall j :: 0 <= j < i ==> DateOnly(entries[j].0) != date
    ensures CellValue(entries, date) == entries[i].1
  {
  }

  /** No key with that date gives 0. */
  lemma MissingDateIsZero(entries: seq<(string, int)>, date: string)
    requires forall j :: 0 <= j < |entries| ==> DateOnly(entries[j].0) != date
    ensures CellValue(entries, date) == 0
  {
  }

  // ---------------------------------------------------------------- the pivot

  /** The rows `Object.values(dateMap)` yields: one per sorted date with its columns. */
  function PivotRows(apiData: seq<GroupRecord>): (rows: seq<Row<int>>)
    ensures |rows| == |AllDates(apiData)|
    ensures forall i :: 0 <= i < |rows| ==> rows[i].date == AllDates(apiData)[i]
    ensures forall i :: 0 <= i < |rows| ==> rows[i].cells.keys == Dedup(ObjectGroups(apiData))
  {
    var dates := AllDates(apiData);
    seq(|dates|, i requires 0 <= i < |dates| => Row(dates[i], RowCells(apiData, dates[i])))
  }

  /** `apiData.map(group => String(group.group_0))`: one name per record, duplicates kept. */
  function GroupNames(apiData: seq<GroupRecord>): (r: seq<string>)
    ensures |r| == |apiData| && forall i :: 0 <= i < |r| ==> r[i] == apiData[i].group
  {
    MapSeq(apiData, (rec: GroupRecord) => rec.group)
  }

  /**
   * The row dates are exactly the truncated keys of the object records, once
   * each, in strictly ascending string order.
   */
  lemma PivotDates(apiData: seq<GroupRecord>, i: nat, j: nat, d: string)
    requires i < j < |PivotRows(apiData)|
    ensures LexLe(PivotRows(apiData)[i].date, PivotRows(apiData)[j].date)
    ensures PivotRows(apiData)[i].date != PivotRows(apiData)[j].date
    ensures d in AllDates(apiData) <==> exists r :: 0 <= r < |apiData| && HasDateKey(apiData[r], d)
  {
    AddedDatesMembers(apiData, d);
  }

  /** Without records there are no rows and no names. */
  lemma PivotEmpty()
    ensures PivotRows([]) == [] && GroupNames([]) == []
  {
    assert AllDates([]) == [];
  }

  /** The first loop: `allDatesSet` after every object record's keys were added, in insertion order. */
  method CollectDates(apiData: seq<GroupRecord>) returns (seen: seq<string>)
    ensures seen == Dedup(AddedDates(apiData))
  {
    seen := [];
    var g := 0;
    while g < |apiData|
      invariant g <= |apiData|
      invariant seen == Dedup(AddedDates(apiData[..g]))
    {
      assert apiData[..g + 1][..g] == apiData[..g];
      assert AddedDates(apiData[..g + 1]) == AddedDates(apiData[..g]) + RecordDates(apiData[g]);
      match apiData[g].valueMap {
        case NotObject =>
          assert AddedDates(apiData[..g]) + [] == AddedDates(apiData[..g]);
        case Object(entries) =>
          seen := AddKeyDates(seen, AddedDates(apiData[..g]), entries);
      }
      g := g + 1;
    }
    assert apiData[..g] == apiData;
  }

  /** `Object.keys(valueMap).forEach(date => allDatesSet.add(date.split(' ')[0]))`. */
  method AddKeyDates(seen0: seq<string>, before: seq<string>, entries: seq<(string, int)>) returns (seen: seq<string>)
    requires seen0 == Dedup(before)
    ensures seen == Dedup(before + EntryDates(entries))
  {
    seen := seen0;
    var e := 0;
    assert before + EntryDates(entries[..0]) == before;
    while e < |entries|
      invariant e <= |entries|
      invariant seen == Dedup(before + EntryDates(entries[..e]))
    {
      var dateOnly := DateOnly(entries[e].0);
      KeyDateStep(before, entries, e);
      if dateOnly !in seen {
        seen := seen + [dateOnly];
      }
      e := e + 1;
    }
    assert entries[..e] == entries;
  }

  /** One more key adds its date to the distinct dates seen so far, unless it is there already. */
  lemma KeyDateStep(before: seq<string>, entries: seq<(string, int)>, e: nat)
    requires e < |entries|
    ensures var seen, d := Dedup(before + EntryDates(entries[..e])), DateOnly(entries[e].0);
      Dedup(before + EntryDates(entries[..e + 1])) == if d in seen then seen else seen + [d]
  {
    var done := before + EntryDates(entries[..e]);
    EntryDatesSnoc(entries, e);
    assert before + EntryDates(entries[..e + 1]) == done + [DateOnly(entries[e].0)];
    DedupSnoc(done, DateOnly(entries[e].0));
  }

  /** The inner loop for one date: a column per object record, a later record overwriting. */
  method FillRow(apiData: seq<GroupRecord>, date: string) returns (row: Row<int>)
    ensures row == Row(date, RowCells(apiData, date))
  {
    row := Row(date, EmptyObj());
    var g := 0;
    while g < |apiData|
      invariant g <= |apiData|
      invariant row == Row(date, RowCells(apiData[..g], date))
    {
      assert apiData[..g + 1][..g] == apiData[..g];
      match apiData[g].valueMap {
        case NotObject =>
        case Object(entries) =>
          row := row.(cells := Put(row.cells, apiData[g].group, CellValue(entries, date)));
      }
      g := g + 1;
    }
    assert apiData[..g] == apiData;
  }

  /**
   * `pivotGroupApiData(apiData)`: collects the distinct dates in a set,
   * sorts them, then fills one row per date with a column per object record.
   */
  method PivotGroupApiData(apiData: seq<GroupRecord>) returns (chartData: seq<Row<int>>, groupNames: seq<string>)
    ensures chartData == PivotRows(apiData)
    ensures groupNames == GroupNames(apiData)
  {
    var seen := CollectDates(apiData);
    LexLeIsTotalPreorder();
    var allDates := SortBy(seen, LexLe);
    assert allDates == AllDates(apiData);
    groupNames := MapSeq(apiData, (rec: GroupRecord) => rec.group);
    var dateMap := FillRows(apiData, allDates);
    chartData := Values(dateMap);
    assert |chartData| == |PivotRows(apiData)|;
    forall j | 0 <= j < |chartData| ensures chartData[j] == PivotRows(apiData)[j] {
    }
  }

  /** The second loop: `dateMap` holds one filled row per date, keyed in date order. */
  method FillRows(apiData: seq<GroupRecord>, allDates: seq<string>) returns (dateMap: Obj<Row<int>>)
    requires Distinct(allDates)
    ensures dateMap.Valid() && dateMap.keys == allDates
    ensures forall j :: 0 <= j < |allDates| ==> dateMap.vals[allDates[j]] == Row(allDates[j], RowCells(apiData, allDates[j]))
  {
    dateMap := EmptyObj();
    var i := 0;
    while i < |allDates|
      invariant i <= |allDates|
      invariant dateMap.Valid() && dateMap.keys == allDates[..i]
      invariant forall j :: 0 <= j < i ==> dateMap.vals[allDates[j]] == Row(allDates[j], RowCells(apiData, allDates[j]))
    {
      var date := allDates[i];
      assert date !in allDates[..i];
      var row := FillRow(apiData, date);
      ghost var prev := dateMap;
      dateMap := Put(dateMap, date, row);
      assert dateMap.vals == prev.vals[date := row];
      assert forall j :: 0 <= j < i ==> allDates[j] != date;
      assert allDates[..i + 1] == allDates[..i] + [date];
      i := i + 1;
    }
    assert allDates[..i] == allDates;
  }

  // ---------------------------------------------------------------- the chart

  /** `barKeys`: group `i` named after itself in colour `colorPalette[i mod 7]`. */
  function BarKeys(groupNames: seq<string>): (r: seq<SeriesKey>)
    ensures |r| == |groupNames|
    ensures forall i :: 0 <= i < |r| ==> r[i] == SeriesKey(groupNames[i], ProductPalette[i % 7], groupNames[i])
  {
    SeriesKeys(groupNames, ProductPalette)
  }

  /** What the install-days chart shows after a load. */
  datatype View = View(chartData: seq<Row<int>>, groupNames: seq<string>, error: Option<string>)

  /** The load handler: the pivot on success, empty data and a message on any failure. */
  function Load(response: Response<seq<GroupRecord>>): (v: View)
    ensures Usable(response) ==> v == View(PivotRows(response.data.value), GroupNames(response.data.value), None)
    ensures !Usable(response) ==> v == View([], [], Some("Failed to load install age data."))
  {
    if Usable(response) then
      View(PivotRows(response.data.value), GroupNames(response.data.value), None)
    else View([], [], Some("Failed to load install age data."))
  }
}
