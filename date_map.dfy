/**
 * The step both by-date groupings repeat for each `(date, key, value)`:
 * `if (!dateMap[date]) dateMap[date] = { date }; dateMap[date][key] = value`.
 * `dateMap` then holds one row per date in first-seen order, and each row
 * the value of the last assignment to each of its keys.
 */
module DateMap {
  import opened Wrappers
  import opened JsCollections
  import opened ChartRows

  /** One `dateMap[date][key] = value`. */
  datatype Assign<V> = Assign(date: string, group: string, value: V)

  function AssignDates<V>(asg: seq<Assign<V>>): (r: seq<string>)
    ensures |r| == |asg| && forall i :: 0 <= i < |r| ==> r[i] == asg[i].date
  {
    MapSeq(asg, (a: Assign<V>) => a.date)
  }

  /** Some assignment targets cell `g` of the row for `d`. */
  predicate HasAssign<V>(asg: seq<Assign<V>>, d: string, g: string) {
    exists i :: 0 <= i < |asg| && asg[i].date == d && asg[i].group == g
  }

  /** The last assignment to cell `g` of the row for `d`. */
  function LastAssign<V>(asg: seq<Assign<V>>, d: string, g: string): (i: nat)
    requires HasAssign(asg, d, g)
    ensures i < |asg| && asg[i].date == d && asg[i].group == g
    ensures forall j :: i < j < |asg| ==> !(asg[j].date == d && asg[j].group == g)
  {
    var n := |asg| - 1;
    if asg[n].date == d && asg[n].group == g then n
    else
      assert HasAssign(asg[..n], d, g) by {
        var i :| 0 <= i < |asg| && asg[i].date == d && asg[i].group == g;
        assert asg[..n][i] == asg[i];
      }
      LastAssign(asg[..n], d, g)
  }

  /** The cells of the row for `d` once the assignments have run. */
  function AssignedCells<V>(asg: seq<Assign<V>>, d: string): (r: Obj<V>)
    ensures r.Valid()
  {
    if asg == [] then EmptyObj()
    else
      var n := |asg| - 1;
      var cells := AssignedCells(asg[..n], d);
      if asg[n].date == d then Put(cells, asg[n].group, asg[n].value) else cells
  }

  /** The last assignment to a cell wins; a cell never assigned is absent. */
  lemma {:induction false} AssignedCellsLookup<V>(asg: seq<Assign<V>>, d: string, g: string)
    ensures HasAssign(asg, d, g) ==> AssignedCells(asg, d).Get(g) == Some(asg[LastAssign(asg, d, g)].value)
    ensures !HasAssign(asg, d, g) ==> AssignedCells(asg, d).Get(g) == None
  {
    if asg != [] {
      var n := |asg| - 1;
      AssignedCellsLookup(asg[..n], d, g);
      if !(asg[n].date == d && asg[n].group == g) {
        HasAssignOfPrefix(asg, d, g);
      }
    }
  }

  lemma HasAssignOfPrefix<V>(asg: seq<Assign<V>>, d: string, g: string)
    requires |asg| > 0 && !(asg[|asg| - 1].date == d && asg[|asg| - 1].group == g)
    ensures HasAssign(asg, d, g) <==> HasAssign(asg[..|asg| - 1], d, g)
    ensures HasAssign(asg, d, g) ==> LastAssign(asg, d, g) == LastAssign(asg[..|asg| - 1], d, g)
  {
    var n := |asg| - 1;
    if HasAssign(asg, d, g) {
      var i :| 0 <= i < |asg| && asg[i].date == d && asg[i].group == g;
      assert asg[..n][i] == asg[i];
    }
    if HasAssign(asg[..n], d, g) {
      var i :| 0 <= i < n && asg[..n][i].date == d && asg[..n][i].group == g;
      assert asg[i] == asg[..n][i];
    }
  }

  /** A date nobody assigned to has no row cells. */
  lemma {:induction false} AssignedCellsUnseen<V>(asg: seq<Assign<V>>, d: string)
    requires d !in AssignDates(asg)
    ensures AssignedCells(asg, d) == EmptyObj()
  {
    if asg != [] {
      var n := |asg| - 1;
      assert AssignDates(asg[..n]) == AssignDates(asg)[..n];
      AssignedCellsUnseen(asg[..n], d);
      assert asg[n].date == AssignDates(asg)[n];
    }
  }

  // ---------------------------------------------------------------- the first loop

  /** `dateMap` holds, keyed in first-seen date order, the row each date's assignments built. */
  ghost predicate DateMapOf<V>(dateMap: Obj<Row<V>>, asg: seq<Assign<V>>) {
    && dateMap.Valid()
    && dateMap.keys == Dedup(AssignDates(asg))
    && forall d :: d in dateMap.vals ==> dateMap.vals[d] == Row(d, AssignedCells(asg, d))
  }

  /** One assignment: create the row if the date is new, then set the cell. */
  method AssignCell<V>(dateMap0: Obj<Row<V>>, ghost asg: seq<Assign<V>>, a: Assign<V>) returns (dateMap: Obj<Row<V>>)
    requires DateMapOf(dateMap0, asg)
    ensures DateMapOf(dateMap, asg + [a])
  {
    dateMap := dateMap0;
    if a.date !in dateMap.vals {
      dateMap := Put(dateMap, a.date, Row(a.date, EmptyObj()));
    }
    var row := dateMap.vals[a.date];
    dateMap := Put(dateMap, a.date, Row(a.date, Put(row.cells, a.group, a.value)));
    AssignCellMeaning(dateMap0, asg, a, dateMap);
  }

  /** The state `AssignCell` leaves is the one the assignments so far describe. */
  lemma AssignCellMeaning<V>(dateMap0: Obj<Row<V>>, asg: seq<Assign<V>>, a: Assign<V>, dateMap: Obj<Row<V>>)
    requires DateMapOf(dateMap0, asg)
    requires var m := if a.date !in dateMap0.vals then Put(dateMap0, a.date, Row(a.date, EmptyObj())) else dateMap0;
      dateMap == Put(m, a.date, Row(a.date, Put(m.vals[a.date].cells, a.group, a.value)))
    ensures DateMapOf(dateMap, asg + [a])
  {
    var m := if a.date !in dateMap0.vals then Put(dateMap0, a.date, Row(a.date, EmptyObj())) else dateMap0;
    RowCreated(dateMap0, asg, a, m);
    forall d | d in dateMap.vals ensures dateMap.vals[d] == Row(d, AssignedCells(asg + [a], d)) {
      CellAfterAssign(m, asg, a, dateMap, d);
    }
  }

  /** Setting the cell changes the assigned date's row as the new assignment says and leaves the others. */
  lemma CellAfterAssign<V>(m: Obj<Row<V>>, asg: seq<Assign<V>>, a: Assign<V>, dateMap: Obj<Row<V>>, d: string)
    requires a.date in m.vals && m.vals[a.date] == Row(a.date, AssignedCells(asg, a.date))
    requires forall d :: d in m.vals && d != a.date ==> m.vals[d] == Row(d, AssignedCells(asg, d))
    requires dateMap.vals == m.vals[a.date := Row(a.date, Put(m.vals[a.date].cells, a.group, a.value))]
    requires d in dateMap.vals
    ensures dateMap.vals[d] == Row(d, AssignedCells(asg + [a], d))
  {
    AssignedCellsSnoc(asg, a, d);
  }

  /** After the `if (!dateMap[dateOnly])` step the date has its row, built from the earlier assignments. */
  lemma RowCreated<V>(dateMap0: Obj<Row<V>>, asg: seq<Assign<V>>, a: Assign<V>, m: Obj<Row<V>>)
    requires DateMapOf(dateMap0, asg)
    requires m == if a.date !in dateMap0.vals then Put(dateMap0, a.date, Row(a.date, EmptyObj())) else dateMap0
    ensures m.Valid() && m.keys == Dedup(AssignDates(asg + [a]))
    ensures m.vals[a.date] == Row(a.date, AssignedCells(asg, a.date))
    ensures forall d :: d in m.vals && d != a.date ==> d in dateMap0.vals && m.vals[d] == Row(d, AssignedCells(asg, d))
  {
    assert AssignDates(asg + [a]) == AssignDates(asg) + [a.date];
    DedupSnoc(AssignDates(asg), a.date);
    if a.date !in dateMap0.vals {
      assert a.date !in AssignDates(asg);
      AssignedCellsUnseen(asg, a.date);
    }
  }

  /** One more assignment changes only the row of its own date. */
  lemma AssignedCellsSnoc<V>(asg: seq<Assign<V>>, a: Assign<V>, d: string)
    ensures AssignedCells(asg + [a], d)
      == if a.date == d then Put(AssignedCells(asg, d), a.group, a.value) else AssignedCells(asg, d)
  {
    assert (asg + [a])[..|asg|] == asg;
  }
}
