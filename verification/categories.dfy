/** The category table (app.py, `get_categories`): an 80-colour palette is
    zipped with the declared categories and turned into a dictionary from
    category id to (name, colour). The hue-saturation-value to RGB
    conversion and the seeded shuffle are not modelled: the shuffled
    palette is an input. */
module Categories {
  import opened Records

  /** Number of palette colours the viewer generates. */
  const PaletteSize: nat := 80

  datatype Hsv = Hsv(h: real, s: real, v: real)

  /** What a category id maps to: its display name and its colour. */
  datatype Style = Style(name: string, color: Rgb)

  function Min(a: int, b: int): int {
    if a <= b then a else b
  }

  /** The palette before conversion: `PaletteSize` fully saturated, fully
      bright hues, evenly spaced over one turn of the colour wheel. */
  function HueTuples(): (hsv: seq<Hsv>)
    ensures |hsv| == PaletteSize
    ensures forall i :: 0 <= i < |hsv| ==> hsv[i].s == 1.0 && hsv[i].v == 1.0 && 0.0 <= hsv[i].h < 1.0
    ensures forall i :: 0 < i < |hsv| ==> hsv[i].h - hsv[i - 1].h == 1.0 / PaletteSize as real
    ensures hsv[0].h == 0.0
  {
    seq(PaletteSize, i requires 0 <= i < PaletteSize => Hsv(i as real / PaletteSize as real, 1.0, 1.0))
  }

  /** Distinct palette positions get distinct hues. */
  lemma HuesDistinct(i: int, j: int)
    requires 0 <= i < j < PaletteSize
    ensures HueTuples()[i].h < HueTuples()[j].h
  {
  }

  /** Position of the last pair whose key is `k`, or -1 if there is none. */
  function LastIndexOf<K(==), V>(pairs: seq<(K, V)>, k: K): (i: int)
    ensures -1 <= i < |pairs|
    ensures 0 <= i ==> pairs[i].0 == k
    ensures forall j :: i < j < |pairs| ==> pairs[j].0 != k
  {
    if pairs == [] then -1
    else if pairs[|pairs| - 1].0 == k then |pairs| - 1
    else LastIndexOf(pairs[..|pairs| - 1], k)
  }

  /** Python's `dict(pairs)`: pairs are inserted in order, so a later pair
      with the same key overwrites an earlier one. */
  function DictOf<K(==,!new), V>(pairs: seq<(K, V)>): (m: map<K, V>)
    ensures forall k :: k in m <==> LastIndexOf(pairs, k) >= 0
    ensures forall k :: k in m ==> m[k] == pairs[LastIndexOf(pairs, k)].1
  {
    if pairs == [] then map[]
    else
      var n := |pairs| - 1;
      DictOf(pairs[..n])[pairs[n].0 := pairs[n].1]
  }

  /** Python's `zip` of the categories with the palette: it stops at the
      shorter of the two, so categories past the palette's end get no pair. */
  function ZipWithPalette(cats: seq<CategoryRecord>, palette: seq<Rgb>): (pairs: seq<(int, Style)>)
    ensures |pairs| <= |cats| && |pairs| <= |palette|
    ensures |pairs| == |cats| || |pairs| == |palette|
    ensures forall i :: 0 <= i < |pairs| ==>
              && pairs[i].0 == cats[i].id
              && pairs[i].1 == Style(cats[i].name, palette[i])
  {
    seq(Min(|cats|, |palette|),
        i requires 0 <= i < Min(|cats|, |palette|) => (cats[i].id, Style(cats[i].name, palette[i])))
  }

  /** The category table: a key for the id of each of the first
      min(|cats|, |palette|) categories and no other; each key maps to the
      name and palette colour of the last such position with that id. */
  function CategoryTable(cats: seq<CategoryRecord>, palette: seq<Rgb>): (table: map<int, Style>)
    ensures forall id :: id in table <==> exists i :: 0 <= i < Min(|cats|, |palette|) && cats[i].id == id
    ensures forall i ::
              (0 <= i < Min(|cats|, |palette|) &&
               forall j :: i < j < Min(|cats|, |palette|) ==> cats[j].id != cats[i].id)
              ==> cats[i].id in table && table[cats[i].id] == Style(cats[i].name, palette[i])
  {
    CategoriesFromPairs(cats, palette);
    DictOf(ZipWithPalette(cats, palette))
  }

  /** The two halves of the category table's contract, read off the
      zipped pairs through `DictOf`'s last-one-wins rule. */
  lemma CategoriesFromPairs(cats: seq<CategoryRecord>, palette: seq<Rgb>)
    ensures var table := DictOf(ZipWithPalette(cats, palette));
            forall id :: id in table <==> exists i :: 0 <= i < Min(|cats|, |palette|) && cats[i].id == id
    ensures var table := DictOf(ZipWithPalette(cats, palette));
            forall i ::
              (0 <= i < Min(|cats|, |palette|) &&
               forall j :: i < j < Min(|cats|, |palette|) ==> cats[j].id != cats[i].id)
              ==> cats[i].id in table && table[cats[i].id] == Style(cats[i].name, palette[i])
  {
    var n := Min(|cats|, |palette|);
    var pairs := ZipWithPalette(cats, palette);
    var table := DictOf(pairs);
    forall id
      ensures id in table <==> exists i :: 0 <= i < n && cats[i].id == id
    {
      var last := LastIndexOf(pairs, id);
      if last >= 0 {
        assert cats[last].id == id;
      }
      if exists i :: 0 <= i < n && cats[i].id == id {
        var i :| 0 <= i < n && cats[i].id == id;
        assert pairs[i].0 == id;
      }
    }
    forall i | 0 <= i < n && (forall j :: i < j < n ==> cats[j].id != cats[i].id)
      ensures cats[i].id in table && table[cats[i].id] == Style(cats[i].name, palette[i])
    {
      var last := LastIndexOf(pairs, cats[i].id);
      assert pairs[i].0 == cats[i].id;
      assert last >= i;
      assert pairs[last].0 == cats[last].id;
      assert last == i;
    }
  }

  /** With the viewer's palette (one colour per hue tuple, 80 in all), a
      category declared only past position 80 gets no entry, so looking it
      up fails. */
  lemma CategoryPastPaletteDropped(cats: seq<CategoryRecord>, palette: seq<Rgb>, id: int)
    requires |palette| == |HueTuples()|
    requires forall i :: 0 <= i < |cats| && cats[i].id == id ==> i >= PaletteSize
    ensures id !in CategoryTable(cats, palette)
  {
  }

  /** At most one entry per category position that fits in the palette. */
  lemma {:induction false} DictOfSize<K(!new), V>(pairs: seq<(K, V)>)
    ensures |DictOf(pairs)| <= |pairs|
  {
    if pairs != [] {
      DictOfSize(pairs[..|pairs| - 1]);
    }
  }
}
