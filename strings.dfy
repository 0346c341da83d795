/**
 * The JavaScript string operations the dashboard's transforms rely on:
 * `split` on a non-empty separator, `join`, `toLowerCase`, the `\s`
 * character class, `String(n)` on integers, `parseInt`, and the default
 * string ordering used by `Array.prototype.sort`.
 */
module Strings {
  import opened Wrappers

  // ---------------------------------------------------------------- split / join

  /** `s.split(sep)` for a non-empty separator: the pieces between occurrences, left to right. */
  function Split(s: string, sep: string): (r: seq<string>)
    requires |sep| > 0
    ensures |r| >= 1
    decreases |s|
  {
    if |s| < |sep| then [s]
    else if s[..|sep|] == sep then [""] + Split(s[|sep|..], sep)
    else
      var t := Split(s[1..], sep);
      [[s[0]] + t[0]] + t[1..]
  }

  /** `xs.join(sep)`: no list gives "", otherwise the text starts with the first piece and ends with the last. */
  function Join(xs: seq<string>, sep: string): (r: string)
    ensures |xs| == 0 ==> r == ""
    ensures |xs| > 0 ==> |xs[0]| <= |r| && r[..|xs[0]|] == xs[0]
    ensures |xs| > 0 ==> |xs[|xs| - 1]| <= |r| && r[|r| - |xs[|xs| - 1]|..] == xs[|xs| - 1]
  {
    if |xs| == 0 then ""
    else if |xs| == 1 then xs[0]
    else
      var rest := Join(xs[1..], sep);
      assert xs[1..][|xs[1..]| - 1] == xs[|xs| - 1];
      assert (xs[0] + sep + rest)[|xs[0] + sep + rest| - |rest|..] == rest;
      xs[0] + sep + rest
  }

  /** A string in which the first character of `sep` does not occur cannot hold `sep`. */
  lemma {:induction false} SplitWithoutSep(s: string, sep: string)
    requires |sep| > 0
    requires forall i :: 0 <= i < |s| ==> s[i] != sep[0]
    ensures Split(s, sep) == [s]
    decreases |s|
  {
    if |s| >= |sep| {
      assert s[..|sep|][0] == s[0];
      SplitWithoutSep(s[1..], sep);
      assert [s[0]] + s[1..] == s;
    }
  }

  /** Splitting `a + sep + b`, where `a` cannot hold the start of `sep`, yields `a` first. */
  lemma {:induction false} SplitAfterPiece(a: string, sep: string, b: string)
    requires |sep| > 0
    requires forall i :: 0 <= i < |a| ==> a[i] != sep[0]
    ensures Split(a + sep + b, sep) == [a] + Split(b, sep)
    decreases |a|
  {
    var s := a + sep + b;
    if |a| == 0 {
      assert s == sep + b;
      assert s[..|sep|] == sep;
      assert s[|sep|..] == b;
    } else {
      assert s[..|sep|][0] == a[0];
      assert s[1..] == a[1..] + sep + b;
      SplitAfterPiece(a[1..], sep, b);
      assert [a[0]] + a[1..] == a;
    }
  }

  /** The characters of `s` other than `c`. */
  predicate Lacks(s: string, c: char) {
    forall i :: 0 <= i < |s| ==> s[i] != c
  }

  /** `xs.join(",").split(",")` gives back `xs` when no element holds a comma. */
  lemma {:induction false} SplitJoin(xs: seq<string>, c: char)
    requires |xs| > 0
    requires forall i :: 0 <= i < |xs| ==> Lacks(xs[i], c)
    ensures Split(Join(xs, [c]), [c]) == xs
  {
    if |xs| == 1 {
      SplitWithoutSep(xs[0], [c]);
    } else {
      var rest := Join(xs[1..], [c]);
      assert Join(xs, [c]) == xs[0] + [c] + rest;
      SplitAfterPiece(xs[0], [c], rest);
      SplitJoin(xs[1..], c);
      assert [xs[0]] + xs[1..] == xs;
    }
  }

  /** `.filter(Boolean)` on strings: drop the empty ones. */
  function NonEmpty(xs: seq<string>): (r: seq<string>)
    ensures forall i :: 0 <= i < |r| ==> r[i] != ""
    ensures forall x :: x in r <==> x in xs && x != ""
  {
    if xs == [] then []
    else if xs[0] == "" then NonEmpty(xs[1..])
    else [xs[0]] + NonEmpty(xs[1..])
  }

  /** A list without empty strings passes `.filter(Boolean)` unchanged. */
  lemma {:induction false} NonEmptyIdentity(xs: seq<string>)
    requires forall i :: 0 <= i < |xs| ==> xs[i] != ""
    ensures NonEmpty(xs) == xs
  {
    if xs != [] {
      NonEmptyIdentity(xs[1..]);
      assert [xs[0]] + xs[1..] == xs;
    }
  }

  // ---------------------------------------------------------------- dates

  /**
   * `s.split(' ')[0]`: the part of a date-time key before its first space,
   * the whole key when it has none.
   */
  function DateOnly(s: string): (r: string)
    ensures |r| <= |s| && r == s[..|r|]
    ensures Lacks(r, ' ')
    ensures |r| < |s| ==> s[|r|] == ' '
  {
    FirstPieceBeforeSpace(s);
    Split(s, " ")[0]
  }

  /** The first piece of a split at " " is the prefix up to the first space. */
  lemma {:induction false} FirstPieceBeforeSpace(s: string)
    ensures var h := Split(s, " ")[0];
      && |h| <= |s| && h == s[..|h|]
      && Lacks(h, ' ')
      && (|h| < |s| ==> s[|h|] == ' ')
    decreases |s|
  {
    if |s| >= 1 && s[0] != ' ' {
      FirstPieceBeforeSpace(s[1..]);
      assert s[..1] != " ";
      assert Split(s, " ")[0] == [s[0]] + Split(s[1..], " ")[0];
    }
  }

  /** A date-only key is its own normal form; a key with a time part loses it. */
  lemma DateOnlyOfDateTime(d: string, time: string)
    requires Lacks(d, ' ')
    ensures DateOnly(d) == d
    ensures DateOnly(d + " " + time) == d
  {
    SplitWithoutSep(d, " ");
    SplitAfterPiece(d, " ", time);
  }

  // ---------------------------------------------------------------- ordering

  /** The default `sort()` order on strings: lexicographic by character code, so a prefix comes first. */
  predicate LexLe(a: string, b: string)
    decreases |a|
  {
    if a == [] then true
    else if b == [] then false
    else if a[0] != b[0] then a[0] < b[0]
    else LexLe(a[1..], b[1..])
  }

  /** A prefix sorts before (or with) every string it begins. */
  lemma {:induction false} PrefixLexLe(a: string, b: string)
    requires |a| <= |b| && a == b[..|a|]
    ensures LexLe(a, b)
    decreases |a|
  {
    if a != [] {
      assert a[0] == b[0] && a[1..] == b[1..][..|a| - 1];
      PrefixLexLe(a[1..], b[1..]);
    }
  }

  /** A string that strictly begins with another sorts strictly after it. */
  lemma {:induction false} PrefixLexLeStrict(a: string, b: string)
    requires |a| < |b| && a == b[..|a|]
    ensures !LexLe(b, a)
    decreases |a|
  {
    if a != [] {
      assert a[0] == b[0] && a[1..] == b[1..][..|a| - 1];
      PrefixLexLeStrict(a[1..], b[1..]);
    }
  }

  /** `LexLe` is a total order on strings. */
  lemma {:induction false} LexLeTotal(a: string, b: string)
    ensures LexLe(a, b) || LexLe(b, a)
    decreases |a|
  {
    if a != [] && b != [] && a[0] == b[0] { LexLeTotal(a[1..], b[1..]); }
  }

  lemma {:induction false} LexLeAntisymmetric(a: string, b: string)
    requires LexLe(a, b) && LexLe(b, a)
    ensures a == b
    decreases |a|
  {
    if a != [] {
      LexLeAntisymmetric(a[1..], b[1..]);
      assert a == [a[0]] + a[1..] && b == [b[0]] + b[1..];
    }
  }

  lemma {:induction false} LexLeTransitive(a: string, b: string, c: string)
    requires LexLe(a, b) && LexLe(b, c)
    ensures LexLe(a, c)
    decreases |a|
  {
    if a != [] && b != [] && c != [] && a[0] == b[0] == c[0] {
      LexLeTransitive(a[1..], b[1..], c[1..]);
    }
  }

  // ---------------------------------------------------------------- case and spaces

  /** `toLowerCase` on one character (ASCII letters). */
  function LowerChar(c: char): char {
    if 'A' <= c <= 'Z' then (c as int - 'A' as int + 'a' as int) as char else c
  }

  /** `s.toLowerCase()` (ASCII letters). */
  function Lower(s: string): (r: string)
    ensures |r| == |s|
    ensures forall i :: 0 <= i < |s| ==> r[i] == LowerChar(s[i])
  {
    seq(|s|, i requires 0 <= i < |s| => LowerChar(s[i]))
  }

  /**
   * The characters the regular-expression class `\s` matches in JavaScript:
   * the blank, tab and line breaks among them, and no letter, digit or `_`.
   */
  predicate IsJsSpace(c: char)
    ensures c == ' ' || c == '\t' || c == '\n' || c == '\r' ==> IsJsSpace(c)
    ensures IsJsSpace(c) ==> c != '_' && !IsDigit(c) && !('a' <= c <= 'z') && !('A' <= c <= 'Z')
  {
    c == ' ' || c == '\t' || c == '\n' || c == '\r' || c == '\U{000B}' || c == '\U{000C}'
    || c == '\U{00A0}' || c == '\U{1680}' || ('\U{2000}' <= c <= '\U{200A}')
    || c == '\U{2028}' || c == '\U{2029}' || c == '\U{202F}' || c == '\U{205F}'
    || c == '\U{3000}' || c == '\U{FEFF}'
  }

  /** `s` with its leading `\s` characters removed (`trimStart`). */
  function TrimStart(s: string): (r: string)
    ensures |r| <= |s| && r == s[|s| - |r|..]
    ensures r == [] || !IsJsSpace(r[0])
    ensures forall i :: 0 <= i < |s| - |r| ==> IsJsSpace(s[i])
  {
    if s != [] && IsJsSpace(s[0]) then TrimStart(s[1..]) else s
  }

  /** `s.replace(/\s+/g, "_")`: each maximal run of `\s` characters becomes one `_`. */
  function CollapseSpaces(s: string): (r: string)
    ensures forall i :: 0 <= i < |r| ==> !IsJsSpace(r[i])
    ensures |r| <= |s|
    decreases |s|
  {
    if s == [] then []
    else if IsJsSpace(s[0]) then "_" + CollapseSpaces(TrimStart(s[1..]))
    else [s[0]] + CollapseSpaces(s[1..])
  }

  /** A string without `\s` characters is left alone. */
  lemma {:induction false} CollapseSpacesIdentity(s: string)
    requires forall i :: 0 <= i < |s| ==> !IsJsSpace(s[i])
    ensures CollapseSpaces(s) == s
  {
    if s != [] {
      CollapseSpacesIdentity(s[1..]);
      assert [s[0]] + s[1..] == s;
    }
  }

  /** `trimStart` removes exactly a leading run of `\s` that is followed by a non-`\s` character or nothing. */
  lemma {:induction false} TrimStartRun(ws: string, t: string)
    requires forall i :: 0 <= i < |ws| ==> IsJsSpace(ws[i])
    requires t == [] || !IsJsSpace(t[0])
    ensures TrimStart(ws + t) == t
    decreases |ws|
  {
    if ws == [] {
      assert ws + t == t;
    } else {
      assert (ws + t)[0] == ws[0];
      assert (ws + t)[1..] == ws[1..] + t;
      TrimStartRun(ws[1..], t);
    }
  }

  /**
   * The meaning of `replace(/\s+/g, "_")`: a word, then a maximal run of
   * `\s`, then the rest becomes the word, one `_`, then the rest collapsed.
   * With `w` empty this is a leading run, with `t` empty a trailing one.
   */
  lemma {:induction false} CollapseSpacesRun(w: string, ws: string, t: string)
    requires forall i :: 0 <= i < |w| ==> !IsJsSpace(w[i])
    requires |ws| > 0 && forall i :: 0 <= i < |ws| ==> IsJsSpace(ws[i])
    requires t == [] || !IsJsSpace(t[0])
    ensures CollapseSpaces(w + ws + t) == w + "_" + CollapseSpaces(t)
    decreases |w|
  {
    if w == [] {
      assert w + ws + t == ws + t;
      CollapseSpacesLeadingRun(ws, t);
    } else {
      var rest := w[1..] + ws + t;
      assert w + ws + t == [w[0]] + rest;
      CollapseSpacesWordChar(w[0], rest);
      CollapseSpacesRun(w[1..], ws, t);
      var tail := CollapseSpaces(t);
      assert CollapseSpaces(rest) == w[1..] + "_" + tail;
      assert w + "_" + tail == [w[0]] + (w[1..] + "_" + tail);
    }
  }

  /** A leading run of `\s` becomes one `_`. */
  lemma CollapseSpacesLeadingRun(ws: string, t: string)
    requires |ws| > 0 && forall i :: 0 <= i < |ws| ==> IsJsSpace(ws[i])
    requires t == [] || !IsJsSpace(t[0])
    ensures CollapseSpaces(ws + t) == "_" + CollapseSpaces(t)
  {
    var s := ws + t;
    assert s[0] == ws[0];
    assert s[1..] == ws[1..] + t;
    TrimStartRun(ws[1..], t);
  }

  /** A character that is not `\s` is kept as it is. */
  lemma CollapseSpacesWordChar(c: char, rest: string)
    requires !IsJsSpace(c)
    ensures CollapseSpaces([c] + rest) == [c] + CollapseSpaces(rest)
  {
    assert ([c] + rest)[1..] == rest;
  }

  /** A joined list whose first word is not empty starts with that word's first character. */
  lemma JoinHead(xs: seq<string>, sep: string)
    requires |xs| > 0 && |xs[0]| > 0
    ensures |Join(xs, sep)| > 0 && Join(xs, sep)[0] == xs[0][0]
  {
  }

  /**
   * Words without `\s`, joined by one non-empty run of `\s` repeated in every
   * gap, come out joined by single underscores.
   */
  lemma {:induction false} CollapseSpacesJoin(words: seq<string>, sep: string)
    requires forall k :: 0 <= k < |words| ==> |words[k]| > 0 && forall i :: 0 <= i < |words[k]| ==> !IsJsSpace(words[k][i])
    requires |sep| > 0 && forall i :: 0 <= i < |sep| ==> IsJsSpace(sep[i])
    ensures CollapseSpaces(Join(words, sep)) == Join(words, "_")
    decreases |words|
  {
    if |words| == 1 {
      CollapseSpacesIdentity(words[0]);
    } else if |words| > 1 {
      var rest := Join(words[1..], sep);
      JoinHead(words[1..], sep);
      CollapseSpacesRun(words[0], sep, rest);
      CollapseSpacesJoin(words[1..], sep);
    }
  }

  /** Words with a separator of its own in each gap: `words[0] + gaps[0] + words[1] + ...`. */
  function Interleave(words: seq<string>, gaps: seq<string>): (r: string)
    requires |words| == |gaps| + 1
    ensures |words[0]| <= |r| && r[..|words[0]|] == words[0]
    decreases |gaps|
  {
    if gaps == [] then words[0]
    else
      var rest := Interleave(words[1..], gaps[1..]);
      assert (words[0] + gaps[0] + rest)[..|words[0]|] == words[0];
      words[0] + gaps[0] + rest
  }

  /** Joining with one separator is interleaving with that separator in every gap. */
  lemma {:induction false} InterleaveJoin(words: seq<string>, gaps: seq<string>, sep: string)
    requires |words| == |gaps| + 1
    requires forall k :: 0 <= k < |gaps| ==> gaps[k] == sep
    ensures Interleave(words, gaps) == Join(words, sep)
    decreases |gaps|
  {
    if gaps != [] {
      InterleaveJoin(words[1..], gaps[1..], sep);
    }
  }

  /**
   * Words without `\s`, each gap a non-empty run of `\s` of its own, come
   * out joined by single underscores.
   */
  lemma {:induction false} CollapseSpacesInterleave(words: seq<string>, gaps: seq<string>)
    requires |words| == |gaps| + 1
    requires forall k :: 0 <= k < |words| ==> |words[k]| > 0 && forall i :: 0 <= i < |words[k]| ==> !IsJsSpace(words[k][i])
    requires forall k :: 0 <= k < |gaps| ==> |gaps[k]| > 0 && forall i :: 0 <= i < |gaps[k]| ==> IsJsSpace(gaps[k][i])
    ensures CollapseSpaces(Interleave(words, gaps)) == Join(words, "_")
    decreases |gaps|
  {
    if gaps == [] {
      CollapseSpacesIdentity(words[0]);
    } else {
      var rest := Interleave(words[1..], gaps[1..]);
      assert rest[0] == rest[..|words[1]|][0] == words[1][0];
      CollapseSpacesRun(words[0], gaps[0], rest);
      CollapseSpacesInterleave(words[1..], gaps[1..]);
    }
  }

  /** `toLowerCase` of every string in the list. */
  function LowerAll(xs: seq<string>): (r: seq<string>)
    ensures |r| == |xs| && forall k :: 0 <= k < |xs| ==> r[k] == Lower(xs[k])
  {
    seq(|xs|, k requires 0 <= k < |xs| => Lower(xs[k]))
  }

  /** Lower-casing a joined list lower-cases each piece and the separator. */
  lemma {:induction false} LowerJoin(xs: seq<string>, sep: string)
    ensures Lower(Join(xs, sep)) == Join(LowerAll(xs), Lower(sep))
    decreases |xs|
  {
    if |xs| > 1 {
      LowerJoin(xs[1..], sep);
      assert LowerAll(xs[1..]) == LowerAll(xs)[1..];
      LowerAppend(xs[0] + sep, Join(xs[1..], sep));
      LowerAppend(xs[0], sep);
    }
  }

  /** Lower-casing interleaved words lower-cases each word and each gap. */
  lemma {:induction false} LowerInterleave(words: seq<string>, gaps: seq<string>)
    requires |words| == |gaps| + 1
    ensures Lower(Interleave(words, gaps)) == Interleave(LowerAll(words), LowerAll(gaps))
    decreases |gaps|
  {
    if gaps != [] {
      LowerInterleave(words[1..], gaps[1..]);
      assert LowerAll(words[1..]) == LowerAll(words)[1..];
      assert LowerAll(gaps[1..]) == LowerAll(gaps)[1..];
      LowerAppend(words[0] + gaps[0], Interleave(words[1..], gaps[1..]));
      LowerAppend(words[0], gaps[0]);
    }
  }

  /** `toLowerCase` works character by character, so it distributes over concatenation. */
  lemma LowerAppend(a: string, b: string)
    ensures Lower(a + b) == Lower(a) + Lower(b)
  {
  }

  // ---------------------------------------------------------------- numbers

  /** The decimal digit for `d`. */
  function DigitChar(d: nat): char
    requires d < 10
  {
    ('0' as int + d) as char
  }

  predicate IsDigit(c: char) {
    '0' <= c <= '9'
  }

  /** `String(n)` for a natural number: its decimal digits, most significant first. */
  function NatToString(n: nat): (r: string)
    ensures |r| > 0
    ensures forall i :: 0 <= i < |r| ==> IsDigit(r[i])
  {
    if n < 10 then [DigitChar(n)] else NatToString(n / 10) + [DigitChar(n % 10)]
  }

  /** `String(n)` for an integer. */
  function IntToString(n: int): (r: string)
    ensures |r| > 0
    ensures forall i :: 0 <= i < |r| ==> IsDigit(r[i]) || (i == 0 && r[i] == '-')
  {
    if n < 0 then "-" + NatToString(-n) else NatToString(n)
  }

  /** The value of a string of decimal digits. */
  function DigitsValue(ds: string): nat
    requires forall i :: 0 <= i < |ds| ==> IsDigit(ds[i])
  {
    if ds == [] then 0
    else
      var last := ds[|ds| - 1];
      assert IsDigit(last);
      DigitsValue(ds[..|ds| - 1]) * 10 + (last as int - '0' as int)
  }

  /** The longest prefix of `s` made of decimal digits. */
  function DigitPrefix(s: string): (r: string)
    ensures |r| <= |s| && r == s[..|r|]
    ensures forall i :: 0 <= i < |r| ==> IsDigit(r[i])
    ensures |r| < |s| ==> !IsDigit(s[|r|])
  {
    if s != [] && IsDigit(s[0]) then [s[0]] + DigitPrefix(s[1..]) else []
  }

  /**
   * `parseInt(s)` on decimal input: leading `\s` skipped, an optional sign,
   * then as many digits as follow; `None` (NaN) when there are none. Without
   * a radix JavaScript reads a "0x" prefix as hexadecimal; that case is not
   * covered, since the labels parsed here are printed decimal integers.
   */
  function ParseInt(s: string): (r: Option<int>)
    ensures var t := TrimStart(s);
      var u := if |t| > 0 && (t[0] == '-' || t[0] == '+') then t[1..] else t;
      && (r.None? <==> |u| == 0 || !IsDigit(u[0]))
      && (r.Some? && r.value < 0 ==> |t| > 0 && t[0] == '-')
  {
    ParseSigned(TrimStart(s))
  }

  /** An optional sign followed by the digits `ParseDigits` reads. */
  function ParseSigned(t: string): Option<int>
  {
    if |t| > 0 && t[0] == '-' then
      match ParseDigits(t[1..])
      case Some(v) => Some(-v)
      case None => None
    else if |t| > 0 && t[0] == '+' then ParseDigits(t[1..])
    else ParseDigits(t)
  }

  /** The value of the leading digits of `u`, `None` when `u` does not start with one. */
  function ParseDigits(u: string): Option<int>
  {
    var ds := DigitPrefix(u);
    if ds == [] then None else Some(DigitsValue(ds))
  }

  lemma {:induction false} DigitsValueOfNat(n: nat)
    ensures DigitsValue(NatToString(n)) == n
  {
    if n >= 10 {
      var s := NatToString(n);
      assert s[..|s| - 1] == NatToString(n / 10);
      DigitsValueOfNat(n / 10);
    }
  }

  lemma {:induction false} DigitPrefixOfDigits(ds: string, rest: string)
    requires forall i :: 0 <= i < |ds| ==> IsDigit(ds[i])
    requires rest == [] || !IsDigit(rest[0])
    ensures DigitPrefix(ds + rest) == ds
  {
    if ds != [] {
      assert (ds + rest)[1..] == ds[1..] + rest;
      DigitPrefixOfDigits(ds[1..], rest);
      assert [ds[0]] + ds[1..] == ds;
    }
  }

  /** `parseInt(String(n) + rest)` gives back `n` when `rest` does not start with a digit. */
  lemma ParseIntToString(n: int, rest: string)
    requires rest == [] || !IsDigit(rest[0])
    ensures ParseInt(IntToString(n) + rest) == Some(n)
  {
    var m: nat := if n < 0 then -n else n;
    var u := NatToString(m) + rest;
    ParseDigitsOfNat(m, rest);
    if n < 0 {
      assert IntToString(n) + rest == "-" + u;
      ParseNegative(u, m);
    } else {
      assert IntToString(n) + rest == u;
      ParseNonNegative(u, m);
    }
  }

  /** A minus sign before digits that read as `m` reads as `-m`. */
  lemma ParseNegative(u: string, m: nat)
    requires u != [] && IsDigit(u[0]) && ParseDigits(u) == Some(m)
    ensures ParseInt("-" + u) == Some(-(m as int))
  {
    TrimStartKeeps("-" + u);
    assert ("-" + u)[1..] == u;
  }

  /** Digits that read as `m`, with no sign, read as `m`. */
  lemma ParseNonNegative(u: string, m: nat)
    requires u != [] && IsDigit(u[0]) && ParseDigits(u) == Some(m)
    ensures ParseInt(u) == Some(m)
  {
    TrimStartKeeps(u);
  }

  /** The leading digits of a printed natural number followed by a non-digit read back as the number. */
  lemma ParseDigitsOfNat(m: nat, rest: string)
    requires rest == [] || !IsDigit(rest[0])
    ensures ParseDigits(NatToString(m) + rest) == Some(m)
  {
    DigitsValueOfNat(m);
    DigitPrefixOfDigits(NatToString(m), rest);
  }

  /** A string starting with a digit or a minus sign has no leading white space to trim. */
  lemma TrimStartKeeps(s: string)
    requires s != [] && (IsDigit(s[0]) || s[0] == '-')
    ensures TrimStart(s) == s
  {
    assert !IsJsSpace(s[0]);
  }

}
