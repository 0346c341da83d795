/**
 * `Array.prototype.sort` with a comparator, as the transforms use it: the
 * result is ordered by the comparator and holds the same elements. The
 * comparators here are total preorders given as "a may come before b".
 */
module Sorting {

  /** `le` is total and transitive: a usable `sort` comparator. */
  ghost predicate IsTotalPreorder<T(!new)>(le: (T, T) -> bool) {
    && (forall a, b :: le(a, b) || le(b, a))
    && (forall a, b, c :: le(a, b) && le(b, c) ==> le(a, c))
  }

  /** Every element may come before every later one. */
  predicate SortedBy<T>(s: seq<T>, le: (T, T) -> bool) {
    forall i, j :: 0 <= i < j < |s| ==> le(s[i], s[j])
  }

  /** `x` placed after the elements of sorted `s` that may precede it. */
  function Insert<T(!new)>(x: T, s: seq<T>, le: (T, T) -> bool): (r: seq<T>)
    requires IsTotalPreorder(le) && SortedBy(s, le)
    ensures SortedBy(r, le)
    ensures multiset(r) == multiset(s) + multiset{x}
  {
    if s == [] then [x]
    else if le(s[0], x) then
      var t := Insert(x, s[1..], le);
      assert s == [s[0]] + s[1..];
      HeadPrecedesInserted(x, s, t, le);
      ConsSorted(s[0], t, le);
      assert multiset([s[0]] + t) == multiset{s[0]} + multiset(t);
      [s[0]] + t
    else
      assert le(x, s[0]);
      ConsSorted(x, s, le);
      [x] + s
  }

  /** A head that may precede every element of a sorted tail keeps the sequence sorted. */
  lemma ConsSorted<T>(h: T, t: seq<T>, le: (T, T) -> bool)
    requires SortedBy(t, le) && forall k :: 0 <= k < |t| ==> le(h, t[k])
    ensures SortedBy([h] + t, le)
  {
    forall i, j | 0 <= i < j < |t| + 1 ensures le(([h] + t)[i], ([h] + t)[j]) {
      if i > 0 { assert ([h] + t)[i] == t[i - 1]; }
    }
  }

  /** The head of sorted `s`, when it may precede `x`, may precede every element of `x` inserted into the tail. */
  lemma HeadPrecedesInserted<T>(x: T, s: seq<T>, t: seq<T>, le: (T, T) -> bool)
    requires s != [] && SortedBy(s, le) && le(s[0], x)
    requires multiset(t) == multiset(s[1..]) + multiset{x}
    ensures forall k :: 0 <= k < |t| ==> le(s[0], t[k])
  {
    forall k | 0 <= k < |t| ensures le(s[0], t[k]) {
      assert t[k] in multiset(t);
      if t[k] != x {
        assert t[k] in multiset(s[1..]);
        var m :| 0 <= m < |s[1..]| && s[1..][m] == t[k];
        assert s[m + 1] == t[k];
      }
    }
  }

  /** The sorted arrangement of `s` (insertion sort, earlier elements first among equals). */
  function SortBy<T(!new)>(s: seq<T>, le: (T, T) -> bool): (r: seq<T>)
    requires IsTotalPreorder(le)
    ensures SortedBy(r, le)
    ensures multiset(r) == multiset(s)
    ensures |r| == |s|
  {
    if s == [] then []
    else
      var p, x := s[..|s| - 1], s[|s| - 1];
      assert s == p + [x];
      assert multiset(s) == multiset(p) + multiset{x};
      var r := Insert(x, SortBy(p, le), le);
      assert |r| == |multiset(r)| == |multiset(s)| == |s|;
      r
  }

  // ---------------------------------------------------------------- stability

  /** The comparator ranks `a` and `b` equal: each may come before the other. */
  predicate Tied<T>(le: (T, T) -> bool, a: T, b: T) {
    le(a, b) && le(b, a)
  }

  /** The elements of `s` tied with `e`, in their order in `s`. */
  function Ties<T>(s: seq<T>, e: T, le: (T, T) -> bool): (r: seq<T>)
    ensures |r| <= |s|
  {
    if |s| == 0 then [] else (if Tied(le, s[0], e) then [s[0]] else []) + Ties(s[1..], e, le)
  }

  /** Taking the ties of a concatenation takes them of each part. */
  lemma {:induction false} TiesAppend<T>(a: seq<T>, b: seq<T>, e: T, le: (T, T) -> bool)
    ensures Ties(a + b, e, le) == Ties(a, e, le) + Ties(b, e, le)
  {
    if |a| == 0 {
      assert a + b == b;
    } else {
      assert a + b == [a[0]] + (a[1..] + b);
      assert a == [a[0]] + a[1..];
      TiesCons(a[0], a[1..] + b, e, le);
      TiesCons(a[0], a[1..], e, le);
      TiesAppend(a[1..], b, e, le);
      ConcatAssoc(if Tied(le, a[0], e) then [a[0]] else [], Ties(a[1..], e, le), Ties(b, e, le));
    }
  }

  /**
   * When the head of sorted `s` may not precede `x`, nothing in `s` is tied
   * with anything tied with `x`.
   */
  lemma {:induction false} NoTiesAfter<T(!new)>(x: T, s: seq<T>, e: T, le: (T, T) -> bool)
    requires IsTotalPreorder(le) && SortedBy(s, le)
    requires s != [] && !le(s[0], x) && Tied(le, x, e)
    ensures Ties(s, e, le) == []
  {
    assert !Tied(le, s[0], e);
    if |s| > 1 {
      assert le(s[0], s[1]);
      SortedTail(s, le);
      NoTiesAfter(x, s[1..], e, le);
    }
  }

  /** The tail of a sorted sequence is sorted. */
  lemma SortedTail<T>(s: seq<T>, le: (T, T) -> bool)
    requires s != [] && SortedBy(s, le)
    ensures SortedBy(s[1..], le)
  {
    forall i, j | 0 <= i < j < |s[1..]| ensures le(s[1..][i], s[1..][j]) {
      assert s[1..][i] == s[i + 1] && s[1..][j] == s[j + 1];
    }
  }

  /** One step of `Insert`: pass the head when it may precede `x`, else put `x` in front. */
  lemma InsertSteps<T(!new)>(x: T, s: seq<T>, le: (T, T) -> bool)
    requires IsTotalPreorder(le) && SortedBy(s, le)
    ensures s != [] ==> SortedBy(s[1..], le)
    ensures s != [] && le(s[0], x) ==> Insert(x, s, le) == [s[0]] + Insert(x, s[1..], le)
    ensures s != [] && !le(s[0], x) ==> Insert(x, s, le) == [x] + s
  {
    if s != [] {
      SortedTail(s, le);
    }
  }

  /** `Insert` places `x` after every element tied with it. */
  lemma {:induction false} InsertStable<T(!new)>(x: T, s: seq<T>, e: T, le: (T, T) -> bool)
    requires IsTotalPreorder(le) && SortedBy(s, le)
    ensures Ties(Insert(x, s, le), e, le) == Ties(s, e, le) + Ties([x], e, le)
  {
    InsertSteps(x, s, le);
    if s == [] {
      assert Ties(s, e, le) == [];
    } else if le(s[0], x) {
      InsertStable(x, s[1..], e, le);
      TiesBehindHead(s[0], Insert(x, s[1..], le), s[1..], [x], e, le);
      assert [s[0]] + s[1..] == s;
    } else {
      TiesInFront(x, s, e, le);
      InsertedInFront(x, s, e, le);
    }
  }

  /** When `x` goes in front of sorted `s`, it is still the last of its ties. */
  lemma InsertedInFront<T(!new)>(x: T, s: seq<T>, e: T, le: (T, T) -> bool)
    requires IsTotalPreorder(le) && SortedBy(s, le)
    requires s != [] && !le(s[0], x)
    requires !Tied(le, x, e) ==> Ties([x], e, le) == []
    ensures Ties([x], e, le) + Ties(s, e, le) == Ties(s, e, le) + Ties([x], e, le)
  {
    if Tied(le, x, e) {
      NoTiesAfter(x, s, e, le);
    }
  }

  /** A head kept in front keeps its place among the ties. */
  lemma TiesBehindHead<T>(h: T, t: seq<T>, rest: seq<T>, xs: seq<T>, e: T, le: (T, T) -> bool)
    requires Ties(t, e, le) == Ties(rest, e, le) + Ties(xs, e, le)
    ensures Ties([h] + t, e, le) == Ties([h] + rest, e, le) + Ties(xs, e, le)
  {
    TiesCons(h, t, e, le);
    TiesCons(h, rest, e, le);
    ConcatAssoc(if Tied(le, h, e) then [h] else [], Ties(rest, e, le), Ties(xs, e, le));
  }

  lemma ConcatAssoc<T>(a: seq<T>, b: seq<T>, c: seq<T>)
    ensures a + (b + c) == (a + b) + c
  {
  }

  /** The ties of a sequence with a given head. */
  lemma TiesCons<T>(h: T, t: seq<T>, e: T, le: (T, T) -> bool)
    ensures Ties([h] + t, e, le) == (if Tied(le, h, e) then [h] else []) + Ties(t, e, le)
  {
    assert ([h] + t)[1..] == t;
  }

  /** An element put in front is the first of its ties, and ties nothing else. */
  lemma TiesInFront<T>(x: T, s: seq<T>, e: T, le: (T, T) -> bool)
    ensures Ties([x] + s, e, le) == Ties([x], e, le) + Ties(s, e, le)
    ensures !Tied(le, x, e) ==> Ties([x], e, le) == []
  {
    TiesAppend([x], s, e, le);
    assert [x][1..] == [];
  }

  /**
   * `Array.prototype.sort` is stable: the elements tied with any `e` come
   * out in the order they went in.
   */
  lemma {:induction false} SortByStable<T(!new)>(s: seq<T>, e: T, le: (T, T) -> bool)
    requires IsTotalPreorder(le)
    ensures Ties(SortBy(s, le), e, le) == Ties(s, e, le)
  {
    if s != [] {
      var p, x := s[..|s| - 1], s[|s| - 1];
      assert s == p + [x];
      SortByStable(p, e, le);
      InsertStable(x, SortBy(p, le), e, le);
      TiesAppend(p, [x], e, le);
    }
  }
}
