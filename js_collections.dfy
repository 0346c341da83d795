/**
 * The two JavaScript containers the dashboard builds its chart rows with:
 * a plain object used as a dictionary (`Record<string, V>`), whose own keys
 * enumerate in insertion order, and a `Set`, whose `Array.from` lists the
 * distinct elements in first-seen order.
 */
module JsCollections {
  import opened Wrappers

  /** `xs.map(f)`: one result per element, in order. */
  function MapSeq<A, B>(xs: seq<A>, f: A -> B): (r: seq<B>)
    ensures |r| == |xs| && forall i :: 0 <= i < |r| ==> r[i] == f(xs[i])
  {
    seq(|xs|, i requires 0 <= i < |xs| => f(xs[i]))
  }

  /** No element occurs twice. */
  predicate Distinct<T(==)>(s: seq<T>) {
    forall i, j :: 0 <= i < j < |s| ==> s[i] != s[j]
  }

  /** Index of the first occurrence of `x` in `s`. */
  function FirstIndex(s: seq<string>, x: string): (i: nat)
    requires x in s
    ensures i < |s| && s[i] == x
    ensures forall j :: 0 <= j < i ==> s[j] != x
  {
    if s[0] == x then 0 else 1 + FirstIndex(s[1..], x)
  }

  /** Index of the last occurrence of `x` in `s`. */
  function LastIndex(s: seq<string>, x: string): (i: nat)
    requires x in s
    ensures i < |s| && s[i] == x
    ensures forall j :: i < j < |s| ==> s[j] != x
  {
    if s[|s| - 1] == x then |s| - 1 else LastIndex(s[..|s| - 1], x)
  }

  /** `Array.from(new Set(s))`: the distinct elements of `s` in first-seen order. */
  function Dedup(s: seq<string>): (r: seq<string>)
    ensures Distinct(r)
    ensures forall x :: x in r <==> x in s
    ensures |r| <= |s|
  {
    if s == [] then []
    else
      var d := Dedup(s[..|s| - 1]);
      var x := s[|s| - 1];
      assert forall y :: y in s <==> y in s[..|s| - 1] || y == x;
      if x in d then d else d + [x]
  }

  /** `Dedup(s)` lists its elements in the order of their first occurrences in `s`. */
  lemma DedupOrdered(s: seq<string>)
    ensures forall i, j :: 0 <= i < j < |Dedup(s)| ==> FirstIndex(s, Dedup(s)[i]) < FirstIndex(s, Dedup(s)[j])
  {
    forall i, j | 0 <= i < j < |Dedup(s)| ensures FirstIndex(s, Dedup(s)[i]) < FirstIndex(s, Dedup(s)[j]) {
      DedupFirstSeenOrder(s, i, j);
    }
  }

  /** Elements of `Dedup(s)` keep the order of their first occurrences in `s`. */
  lemma {:induction false} DedupFirstSeenOrder(s: seq<string>, i: nat, j: nat)
    requires i < j < |Dedup(s)|
    ensures FirstIndex(s, Dedup(s)[i]) < FirstIndex(s, Dedup(s)[j])
  {
    var p := s[..|s| - 1];
    var x := s[|s| - 1];
    var d := Dedup(p);
    FirstIndexOfPrefix(s, Dedup(s)[i]);
    if Dedup(s) == d {
      DedupFirstSeenOrder(p, i, j);
      FirstIndexOfPrefix(s, Dedup(s)[j]);
    } else if j < |d| {
      DedupFirstSeenOrder(p, i, j);
      FirstIndexOfPrefix(s, Dedup(s)[j]);
    } else {
      assert Dedup(s)[j] == x && x !in p;
      assert FirstIndex(s, x) == |s| - 1 by {
        forall k | 0 <= k < |s| - 1 ensures s[k] != x { assert s[k] == p[k]; }
      }
    }
  }

  /** An element already in the prefix without the last item has the same first index there. */
  lemma FirstIndexOfPrefix(s: seq<string>, x: string)
    requires |s| > 0 && x in s[..|s| - 1]
    ensures FirstIndex(s, x) == FirstIndex(s[..|s| - 1], x)
  {
    var p := s[..|s| - 1];
    var k := FirstIndex(p, x);
    assert s[k] == x;
    forall m | 0 <= m < k ensures s[m] != x { assert s[m] == p[m]; }
  }

  /** Appending one element: a known element keeps the set, a new one is added last. */
  lemma DedupSnoc(s: seq<string>, x: string)
    ensures Dedup(s + [x]) == if x in Dedup(s) then Dedup(s) else Dedup(s) + [x]
  {
    assert (s + [x])[..|s + [x]| - 1] == s;
  }

  /** A duplicate-free sequence is its own `Dedup`. */
  lemma {:induction false} DedupOfDistinct(s: seq<string>)
    requires Distinct(s)
    ensures Dedup(s) == s
  {
    if s != [] {
      var p := s[..|s| - 1];
      assert forall i, j :: 0 <= i < j < |p| ==> p[i] == s[i] && p[j] == s[j];
      DedupOfDistinct(p);
      assert s[|s| - 1] !in p;
      assert s == p + [s[|s| - 1]];
    }
  }

  /** A duplicate-free sequence holds each element at most once. */
  lemma {:induction false} DistinctCount(s: seq<string>, x: string)
    requires Distinct(s)
    ensures multiset(s)[x] <= 1
  {
    if s != [] {
      var p := s[..|s| - 1];
      assert s == p + [s[|s| - 1]];
      DistinctCount(p, x);
      if s[|s| - 1] == x {
        assert x !in p;
      }
    }
  }

  /** Rearranging a duplicate-free sequence keeps it duplicate-free. */
  lemma DistinctPermutation(s: seq<string>, t: seq<string>)
    requires Distinct(s) && multiset(s) == multiset(t)
    ensures Distinct(t)
  {
    forall i, j | 0 <= i < j < |t| ensures t[i] != t[j] {
      if t[i] == t[j] {
        assert t == t[..j] + [t[j]] + t[j + 1..];
        assert t[i] in t[..j];
        assert multiset(t)[t[i]] >= 2;
        DistinctCount(s, t[i]);
      }
    }
  }

  /**
   * A JavaScript object used as a dictionary: `keys` in enumeration order
   * and the value stored under each.
   */
  datatype Obj<V> = Obj(keys: seq<string>, vals: map<string, V>) {

    /** Keys are distinct and are exactly the keys that hold a value. */
    ghost predicate Valid() {
      Distinct(keys) && forall k :: k in vals <==> k in keys
    }

    /** `o[k]`: the stored value, or `None` for `undefined`. */
    function Get(k: string): Option<V> {
      if k in vals then Some(vals[k]) else None
    }
  }

  /** `{}` */
  function EmptyObj<V>(): (o: Obj<V>)
    ensures o.Valid() && o.keys == []
    ensures forall k :: o.Get(k) == None
  {
    Obj([], map[])
  }

  /** `o[k] = v`: an existing key keeps its place, a new key is enumerated last. */
  function Put<V>(o: Obj<V>, k: string, v: V): (r: Obj<V>)
    ensures o.Valid() ==> r.Valid()
    ensures r.Get(k) == Some(v)
    ensures forall k' :: k' != k ==> r.Get(k') == o.Get(k')
    ensures k in o.vals ==> r.keys == o.keys
    ensures k !in o.vals ==> r.keys == o.keys + [k]
  {
    Obj(if k in o.vals then o.keys else o.keys + [k], o.vals[k := v])
  }

  /** `Object.values(o)`: the stored values in key enumeration order. */
  function Values<V>(o: Obj<V>): (r: seq<V>)
    requires o.Valid()
    ensures |r| == |o.keys|
    ensures forall i :: 0 <= i < |r| ==> r[i] == o.vals[o.keys[i]]
  {
    seq(|o.keys|, i requires 0 <= i < |o.keys| => o.vals[o.keys[i]])
  }

  /** An object literal `{ k0: v0, k1: v1, ... }` with distinct keys, enumerated in writing order. */
  function Record<V>(keys: seq<string>, values: seq<V>): (o: Obj<V>)
    requires |keys| == |values| && Distinct(keys)
    ensures o.Valid() && o.keys == keys
    ensures forall i :: 0 <= i < |keys| ==> o.Get(keys[i]) == Some(values[i])
  {
    Obj(keys, map i | 0 <= i < |keys| :: keys[i] := values[i])
  }
}
