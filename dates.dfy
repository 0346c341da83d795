/**
 * Date keys as the charts sort them. The product charts sort their date
 * strings with the default string order of `sort()`; for `full-date`
 * strings of RFC 3339 (section 5.6, `YYYY-MM-DD`) that order is the
 * chronological one, as section 5.1 of RFC 3339 intends.
 */
module Dates {
  import opened Strings
  import opened Sorting

  /** The default string comparison is a usable `sort` comparator. */
  lemma LexLeIsTotalPreorder()
    ensures IsTotalPreorder(LexLe)
  {
    forall a: string, b: string ensures LexLe(a, b) || LexLe(b, a) {
      LexLeTotal(a, b);
    }
    forall a: string, b: string, c: string | LexLe(a, b) && LexLe(b, c) ensures LexLe(a, c) {
      LexLeTransitive(a, b, c);
    }
  }

  /** Sorted and distinct under `LexLe` means strictly ascending. */
  lemma SortedDistinctAscending(s: seq<string>, i: nat, j: nat)
    requires SortedBy(s, LexLe) && i < j < |s| && s[i] != s[j]
    ensures LexLe(s[i], s[j]) && !LexLe(s[j], s[i])
  {
    if LexLe(s[j], s[i]) {
      LexLeAntisymmetric(s[i], s[j]);
    }
  }

  // ---------------------------------------------------------------- RFC 3339 full-date

  /** `YYYY-MM-DD`: four, two and two decimal digits separated by `-`. */
  predicate IsFullDate(s: string) {
    |s| == 10 && s[4] == '-' && s[7] == '-'
    && (forall i :: 0 <= i < 4 ==> IsDigit(s[i]))
    && (forall i :: 5 <= i < 7 ==> IsDigit(s[i]))
    && (forall i :: 8 <= i < 10 ==> IsDigit(s[i]))
  }

  function Year(s: string): nat
    requires IsFullDate(s)
  {
    DigitsValue(s[..4])
  }

  function Month(s: string): nat
    requires IsFullDate(s)
  {
    DigitsValue(s[5..7])
  }

  function Day(s: string): nat
    requires IsFullDate(s)
  {
    DigitsValue(s[8..])
  }

  /** `a` is on or before `b`: by year, then month, then day. */
  predicate ChronoLe(a: string, b: string)
    requires IsFullDate(a) && IsFullDate(b)
  {
    Year(a) < Year(b)
    || (Year(a) == Year(b) && (Month(a) < Month(b) || (Month(a) == Month(b) && Day(a) <= Day(b))))
  }

  /** For `full-date` strings the string order is the chronological order. */
  lemma FullDateOrder(a: string, b: string)
    requires IsFullDate(a) && IsFullDate(b)
    ensures LexLe(a, b) <==> ChronoLe(a, b)
  {
    FullDateFields(a, b);
    DigitsOrder(a[..4], b[..4]);
    DigitsOrder(a[5..7], b[5..7]);
    DigitsOrder(a[8..], b[8..]);
  }

  /** Two full dates compare as their year fields, then month fields, then day fields. */
  lemma FullDateFields(a: string, b: string)
    requires IsFullDate(a) && IsFullDate(b)
    ensures LexLe(a, b) <==>
      (a[..4] != b[..4] && LexLe(a[..4], b[..4]))
      || (a[..4] == b[..4] && ((a[5..7] != b[5..7] && LexLe(a[5..7], b[5..7]))
                               || (a[5..7] == b[5..7] && LexLe(a[8..], b[8..]))))
  {
    FullDateShape(a);
    FullDateShape(b);
    LexLeDash(a[..4], b[..4], a[5..], b[5..]);
    LexLeDash(a[5..7], b[5..7], a[8..], b[8..]);
  }

  /** A full date is its year, a dash, its month, a dash and its day. */
  lemma FullDateShape(s: string)
    requires IsFullDate(s)
    ensures s == s[..4] + "-" + s[5..]
    ensures s[5..] == s[5..7] + "-" + s[8..]
  {
    assert s[4..5] == "-";
    assert s == s[..4] + s[4..5] + s[5..];
    assert s[7..8] == "-";
    assert s[5..] == s[5..7] + s[7..8] + s[8..];
  }

  /** Comparing two strings that continue with a dash after first parts of equal length. */
  lemma LexLeDash(x: string, y: string, a: string, b: string)
    requires |x| == |y|
    ensures LexLe(x + "-" + a, y + "-" + b) <==> (x != y && LexLe(x, y)) || (x == y && LexLe(a, b))
  {
    assert x + "-" + a == x + ("-" + a);
    assert y + "-" + b == y + ("-" + b);
    LexLeSplit(x, "-" + a, y, "-" + b);
    LexLeSplit("-", a, "-", b);
  }

  /** Comparing two concatenations whose first parts have equal length. */
  lemma {:induction false} LexLeSplit(a1: string, a2: string, b1: string, b2: string)
    requires |a1| == |b1|
    ensures LexLe(a1 + a2, b1 + b2) <==> (a1 != b1 && LexLe(a1, b1)) || (a1 == b1 && LexLe(a2, b2))
  {
    if a1 != [] {
      assert (a1 + a2)[0] == a1[0] && (b1 + b2)[0] == b1[0];
      assert (a1 + a2)[1..] == a1[1..] + a2 && (b1 + b2)[1..] == b1[1..] + b2;
      LexLeSplit(a1[1..], a2, b1[1..], b2);
      assert a1 == [a1[0]] + a1[1..] && b1 == [b1[0]] + b1[1..];
    } else {
      assert a1 + a2 == a2 && b1 + b2 == b2;
    }
  }

  /** Equal-length digit strings compare as the numbers they denote. */
  lemma {:induction false} DigitsOrder(a: string, b: string)
    requires |a| == |b|
    requires forall i :: 0 <= i < |a| ==> IsDigit(a[i])
    requires forall i :: 0 <= i < |b| ==> IsDigit(b[i])
    ensures LexLe(a, b) <==> DigitsValue(a) <= DigitsValue(b)
    ensures a == b <==> DigitsValue(a) == DigitsValue(b)
  {
    if a != [] {
      var n := |a| - 1;
      var a', b' := a[..n], b[..n];
      assert a == a' + [a[n]] && b == b' + [b[n]];
      LexLeSplit(a', [a[n]], b', [b[n]]);
      DigitsOrder(a', b');
      assert LexLe([a[n]], [b[n]]) <==> a[n] <= b[n] by {
        assert [a[n]][1..] == [] && [b[n]][1..] == [];
      }
      assert a == b <==> a' == b' && a[n] == b[n];
    }
  }
}
