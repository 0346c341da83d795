/**
 * A chart row as the pivots build it: `{ date, [column]: value }`, with the
 * columns in key enumeration order.
 */
module ChartRows {
  import opened JsCollections
  import opened Strings
  import opened Sorting
  import opened Dates

  datatype Row<V> = Row(date: string, cells: Obj<V>)

  /** Rows ordered by their date strings. */
  predicate RowLe<V>(a: Row<V>, b: Row<V>) {
    LexLe(a.date, b.date)
  }

  /** Ordering rows by date is a usable `sort` comparator. */
  lemma RowLeIsTotalPreorder<V(!new)>()
    ensures IsTotalPreorder((a: Row<V>, b: Row<V>) => RowLe(a, b))
  {
    forall a: Row<V>, b: Row<V> ensures RowLe(a, b) || RowLe(b, a) {
      LexLeTotal(a.date, b.date);
    }
    forall a: Row<V>, b: Row<V>, c: Row<V> | RowLe(a, b) && RowLe(b, c) ensures RowLe(a, c) {
      LexLeTransitive(a.date, b.date, c.date);
    }
  }

  /** The dates of `rows`, in row order. */
  function RowDates<V>(rows: seq<Row<V>>): (r: seq<string>)
    ensures |r| == |rows| && forall i :: 0 <= i < |r| ==> r[i] == rows[i].date
  {
    MapSeq(rows, (row: Row<V>) => row.date)
  }
}
