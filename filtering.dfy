/**
 * `Array.prototype.filter`: the elements that pass a test, in their
 * original order.
 */
module Filtering {

  /** `s.filter(f)`. */
  function Filter<T(==,!new)>(s: seq<T>, f: T -> bool): (r: seq<T>)
    ensures |r| <= |s|
    ensures forall i :: 0 <= i < |r| ==> f(r[i])
    ensures forall x :: x in r <==> x in s && f(x)
  {
    if s == [] then []
    else
      var p := s[..|s| - 1];
      var x := s[|s| - 1];
      assert forall y :: y in s <==> y in p || y == x;
      Filter(p, f) + (if f(x) then [x] else [])
  }

  /** Filtering distributes over concatenation, so passing elements keep their relative order. */
  lemma {:induction false} FilterAppend<T(!new)>(a: seq<T>, b: seq<T>, f: T -> bool)
    ensures Filter(a + b, f) == Filter(a, f) + Filter(b, f)
  {
    if b == [] {
      assert a + b == a;
    } else {
      var b' := b[..|b| - 1];
      assert (a + b)[..|a + b| - 1] == a + b';
      assert (a + b)[|a + b| - 1] == b[|b| - 1];
      FilterAppend(a, b', f);
    }
  }

  /** Nothing is dropped exactly when every element passes. */
  lemma {:induction false} FilterKeepsAll<T(!new)>(s: seq<T>, f: T -> bool)
    ensures |Filter(s, f)| == |s| <==> forall i :: 0 <= i < |s| ==> f(s[i])
    ensures (forall i :: 0 <= i < |s| ==> f(s[i])) ==> Filter(s, f) == s
  {
    if s != [] {
      var p, x := s[..|s| - 1], s[|s| - 1];
      FilterKeepsAll(p, f);
      assert s == p + [x];
      assert Filter(s, f) == Filter(p, f) + (if f(x) then [x] else []);
      assert (forall i :: 0 <= i < |s| ==> f(s[i])) <==> (forall i :: 0 <= i < |p| ==> f(p[i])) && f(x) by {
        assert forall i :: 0 <= i < |p| ==> p[i] == s[i];
      }
    }
  }

  /** Two passing elements keep their relative order: they come from two positions of `s` in the same order. */
  lemma {:induction false} FilterOrder<T(!new)>(s: seq<T>, f: T -> bool, i: nat, j: nat)
    requires i < j < |Filter(s, f)|
    ensures exists a, b :: 0 <= a < b < |s| && s[a] == Filter(s, f)[i] && s[b] == Filter(s, f)[j]
  {
    var p, x := s[..|s| - 1], s[|s| - 1];
    var fp := Filter(p, f);
    assert Filter(s, f) == fp + (if f(x) then [x] else []);
    if j < |fp| {
      FilterOrder(p, f, i, j);
      var a, b :| 0 <= a < b < |p| && p[a] == fp[i] && p[b] == fp[j];
      assert s[a] == p[a] && s[b] == p[b];
    } else {
      assert fp[i] in p;
      var a :| 0 <= a < |p| && p[a] == fp[i];
      assert s[a] == p[a];
    }
  }
}
