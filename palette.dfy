/**
 * Cyclic colour assignment: `generateColors` and `generateChannelColors`
 * fill a record from name to colour, the name at index `i` taking the
 * palette entry `i mod |palette|`, a later duplicate overwriting an earlier
 * one. The charts' series keys (`barKeys`, `lineKeys`) pair each series
 * name with the palette entry of its position.
 */
module Palette {
  import opened Wrappers
  import opened JsCollections

  /** The 27 colours of `generateColors`. */
  const BaseColors: seq<string> := [
    "#8884d8", "#f08080", "#82ca9d", "#87ceeb", "#4682b4", "#f4a460", "#dda0dd",
    "#6495ed", "#ffb6c1", "#ffa07a", "#cd5c5c", "#6b7280", "#10b981", "#f59e0b",
    "#3b82f6", "#ef4444", "#8b5cf6", "#ec4899", "#20b2aa", "#9370db", "#00ced1",
    "#fa8072", "#66cdaa", "#d8bfd8", "#bc8f8f", "#87cefa", "#e9967a"
  ]

  /** The 18 colours of `generateChannelColors`. */
  const ChannelBaseColors: seq<string> := [
    "#8884d8", "#f08080", "#82ca9d", "#87ceeb", "#4682b4", "#f4a460", "#dda0dd",
    "#6495ed", "#ffb6c1", "#ffa07a", "#cd5c5c", "#6b7280", "#10b981", "#f59e0b",
    "#3b82f6", "#ef4444", "#8b5cf6", "#ec4899"
  ]

  /** The 7-colour palette of the product install and payer charts. */
  const ProductPalette: seq<string> := [
    "#276EF1", "#F37D38", "#66C2A5", "#5E72E4", "#F1C40F", "#8E44AD", "#2ECC71"
  ]

  /** The 8-colour palette of the IAP LTV chart. */
  const LtvColors: seq<string> := [
    "#f57c00", "#1976d2", "#0288d1", "#fbc02d", "#8e24aa", "#388e3c", "#d32f2f", "#5e35b1"
  ]

  // ---------------------------------------------------------------- name-keyed colours

  /**
   * The colour record once every name of `items` has been visited in order:
   * its keys are the distinct names in first-seen order.
   */
  function Colors(items: seq<string>, palette: seq<string>): (r: Obj<string>)
    requires |palette| > 0
    ensures r.Valid()
    ensures r.keys == Dedup(items)
  {
    if items == [] then EmptyObj()
    else
      var p := items[..|items| - 1];
      var x := items[|items| - 1];
      DedupSnoc(p, x);
      assert p + [x] == items;
      Put(Colors(p, palette), x, palette[(|items| - 1) % |palette|])
  }

  /** A name's colour is the palette entry of its last index; other names have none. */
  lemma {:induction false} ColorsLookup(items: seq<string>, palette: seq<string>, k: string)
    requires |palette| > 0
    ensures k in items ==> Colors(items, palette).Get(k) == Some(palette[LastIndex(items, k) % |palette|])
    ensures k !in items ==> Colors(items, palette).Get(k) == None
  {
    if items != [] {
      var p := items[..|items| - 1];
      assert items == p + [items[|items| - 1]];
      if items[|items| - 1] != k {
        ColorsLookup(p, palette, k);
      }
    }
  }

  /** Without duplicates, the name at index `i` gets the palette entry `i mod |palette|`. */
  lemma ColorsOfDistinct(items: seq<string>, palette: seq<string>, i: nat)
    requires |palette| > 0 && Distinct(items) && i < |items|
    ensures Colors(items, palette).Get(items[i]) == Some(palette[i % |palette|])
  {
    ColorsLookup(items, palette, items[i]);
    assert LastIndex(items, items[i]) == i;
  }

  /** The record the loop of `generateColors` builds over `palette`. */
  method AssignColors(items: seq<string>, palette: seq<string>) returns (colors: Obj<string>)
    requires |palette| > 0
    ensures colors == Colors(items, palette)
    ensures colors.keys == Dedup(items)
    ensures forall k :: k in items ==> colors.Get(k) == Some(palette[LastIndex(items, k) % |palette|])
    ensures forall k :: k !in items ==> colors.Get(k) == None
  {
    colors := EmptyObj();
    var index := 0;
    while index < |items|
      invariant 0 <= index <= |items|
      invariant colors == Colors(items[..index], palette)
    {
      assert items[..index + 1][..index] == items[..index];
      colors := Put(colors, items[index], palette[index % |palette|]);
      index := index + 1;
    }
    assert items[..index] == items;
    forall k ensures k in items ==> colors.Get(k) == Some(palette[LastIndex(items, k) % |palette|])
      ensures k !in items ==> colors.Get(k) == None
    {
      ColorsLookup(items, palette, k);
    }
  }

  /** `generateColors(items)`: colours cycle through the 27 base colours. */
  method GenerateColors(items: seq<string>) returns (colors: Obj<string>)
    ensures colors == Colors(items, BaseColors)
    ensures forall k :: k in items ==> colors.Get(k) == Some(BaseColors[LastIndex(items, k) % 27])
    ensures forall k :: k !in items ==> colors.Get(k) == None
  {
    colors := AssignColors(items, BaseColors);
  }

  /** `generateChannelColors(channels)`: colours cycle through the 18 channel colours. */
  method GenerateChannelColors(channels: seq<string>) returns (colors: Obj<string>)
    ensures colors == Colors(channels, ChannelBaseColors)
    ensures forall k :: k in channels ==> colors.Get(k) == Some(ChannelBaseColors[LastIndex(channels, k) % 18])
    ensures forall k :: k !in channels ==> colors.Get(k) == None
  {
    colors := AssignColors(channels, ChannelBaseColors);
  }

  /** The channel palette is the first 18 base colours. */
  lemma ChannelPaletteIsPrefix()
    ensures ChannelBaseColors == BaseColors[..18]
  {
  }

  /** Below 18 both generators pick the same colour for an index. */
  lemma PalettesAgreeAt(n: nat)
    requires n < 18
    ensures BaseColors[n % 27] == ChannelBaseColors[n % 18]
  {
    assert n % 27 == n && n % 18 == n;
    ChannelPaletteIsPrefix();
    PrefixAgrees(BaseColors, ChannelBaseColors, n);
  }

  /** A prefix of a sequence agrees with it at each of its own indices. */
  lemma PrefixAgrees(s: seq<string>, t: seq<string>, n: nat)
    requires |t| <= |s| && t == s[..|t|] && n < |t|
    ensures s[n] == t[n]
  {
  }

  /** On at most 18 names the two generators build the same record. */
  lemma {:induction false} GeneratorsAgree(items: seq<string>)
    requires |items| <= 18
    ensures Colors(items, BaseColors) == Colors(items, ChannelBaseColors)
  {
    if items != [] {
      var n := |items| - 1;
      GeneratorsAgree(items[..n]);
      PalettesAgreeAt(n);
    }
  }

  // ---------------------------------------------------------------- series keys

  /** One chart series: its data key, colour and legend name. */
  datatype SeriesKey = SeriesKey(key: string, color: string, name: string)

  /** `names.map((name, idx) => ({ key: name, color: palette[idx % n], name }))`. */
  function SeriesKeys(names: seq<string>, palette: seq<string>): (r: seq<SeriesKey>)
    requires |palette| > 0
    ensures |r| == |names|
    ensures forall i :: 0 <= i < |r| ==> r[i].key == names[i] && r[i].name == names[i]
  {
    seq(|names|, i requires 0 <= i < |names| => SeriesKey(names[i], palette[i % |palette|], names[i]))
  }

  /**
   * Series keys cycle through the palette: two series less than a palette
   * length apart get different colours when the palette has no repeats, and
   * series a whole palette length apart share one.
   */
  lemma SeriesKeysCycle(names: seq<string>, palette: seq<string>, i: nat, j: nat)
    requires |palette| > 0 && Distinct(palette) && i < j < |names|
    ensures j - i < |palette| ==> SeriesKeys(names, palette)[i].color != SeriesKeys(names, palette)[j].color
    ensures j - i == |palette| ==> SeriesKeys(names, palette)[i].color == SeriesKeys(names, palette)[j].color
  {
    var n := |palette|;
    if j - i == n {
      DivModUnique(j, n, i / n + 1, i % n);
    } else if j - i < n {
      ModDiffers(i, j, n);
    }
  }

  /** Quotient and remainder are the only ones: `x == q*n + r` with `0 <= r < n` fixes both. */
  lemma DivModUnique(x: int, n: int, q: int, r: int)
    requires n > 0 && 0 <= r < n && x == q * n + r
    ensures x / n == q && x % n == r
  {
    var q0, r0 := x / n, x % n;
    assert (q - q0) * n == r0 - r;
    if q > q0 {
      MulAtLeast(q - q0, n);
    } else if q < q0 {
      assert (q0 - q) * n == r - r0;
      MulAtLeast(q0 - q, n);
    }
  }

  lemma MulAtLeast(a: int, n: int)
    requires a >= 1 && n > 0
    ensures a * n >= n
  {
    assert a * n == (a - 1) * n + n;
    assert (a - 1) * n >= 0;
  }

  /** Two indices less than `n` apart fall on different residues. */
  lemma ModDiffers(i: nat, j: nat, n: nat)
    requires i < j && j - i < n
    ensures i % n != j % n
  {
    var d := j / n - i / n;
    assert j - i == d * n + (j % n - i % n) by {
      assert d * n == (j / n) * n - (i / n) * n;
    }
    if d >= 1 {
      MulAtLeast(d, n);
    } else if d <= -1 {
      assert (-d) * n == -(d * n);
      MulAtLeast(-d, n);
    }
  }

  /** The chart palettes have no repeated colour. */
  lemma PalettesDistinct()
    ensures Distinct(ProductPalette) && Distinct(LtvColors)
  {
  }

  /** Product-page series: any seven neighbours have different colours, and the eighth repeats the first. */
  lemma ProductSeriesColors(names: seq<string>, i: nat, j: nat)
    requires i < j < |names|
    ensures j - i < 7 ==> SeriesKeys(names, ProductPalette)[i].color != SeriesKeys(names, ProductPalette)[j].color
    ensures j - i == 7 ==> SeriesKeys(names, ProductPalette)[i].color == SeriesKeys(names, ProductPalette)[j].color
  {
    PalettesDistinct();
    SeriesKeysCycle(names, ProductPalette, i, j);
  }

  /** LTV lines: any eight neighbours have different colours, and the ninth repeats the first. */
  lemma LtvSeriesColors(names: seq<string>, i: nat, j: nat)
    requires i < j < |names|
    ensures j - i < 8 ==> SeriesKeys(names, LtvColors)[i].color != SeriesKeys(names, LtvColors)[j].color
    ensures j - i == 8 ==> SeriesKeys(names, LtvColors)[i].color == SeriesKeys(names, LtvColors)[j].color
  {
    PalettesDistinct();
    SeriesKeysCycle(names, LtvColors, i, j);
  }
}
