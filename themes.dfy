/**
 * The colour-theme registry of colorgroup.cpp: a table of four named
 * palettes, fixed at construction, and a current palette that
 * setCurrentTheme overwrites when it is given a known name.
 *
 * The table is a QMap, which keeps its entries in ascending key order and
 * replaces the value of a key inserted twice; it is modelled as an
 * association list kept sorted by Insert.
 */
module Themes {
  import opened Common

  /** A QColor as its red, green and blue components (every colour here is opaque). */
  datatype Rgb = Rgb(red: int, green: int, blue: int)

  /** ColorTheme: the five colours a palette assigns. */
  datatype ColorTheme = ColorTheme(
    neuronFill: Rgb,
    neuronBorder: Rgb,
    connectionHighWeight: Rgb,
    connectionLowWeight: Rgb,
    text: Rgb)

  const Black := Rgb(0, 0, 0)
  const White := Rgb(255, 255, 255)
  /** Qt::gray, #a0a0a4. */
  const Gray := Rgb(160, 160, 164)

  const Classic := ColorTheme(Rgb(0xAE, 0xDC, 0xF0), Black, Gray, Gray, Black)
  const Dark := ColorTheme(Rgb(45, 45, 45), Rgb(100, 100, 100), Rgb(150, 150, 150), Gray, White)
  const Vibrant := ColorTheme(Rgb(255, 204, 204), Rgb(255, 102, 102), Rgb(255, 153, 153), Gray, Black)
  const Ocean := ColorTheme(Rgb(204, 229, 255), Rgb(102, 178, 255), Rgb(153, 204, 255), Gray, Black)

  // ---------------------------------------------------------------------------
  // QMap<QString, ColorTheme> as a sorted association list

  datatype Entry = Entry(name: string, theme: ColorTheme)

  /** QString's operator<: lexicographic order on characters. */
  predicate Less(a: string, b: string) {
    if a == [] then b != []
    else if b == [] then false
    else if a[0] != b[0] then a[0] < b[0]
    else Less(a[1..], b[1..])
  }

  lemma {:induction false} LessTransitive(a: string, b: string, c: string)
    requires Less(a, b) && Less(b, c)
    ensures Less(a, c)
  {
    if a != [] && b != [] && c != [] && a[0] == b[0] && b[0] == c[0] {
      LessTransitive(a[1..], b[1..], c[1..]);
    }
  }

  /** The keys in the order the map keeps them. */
  function Keys(es: seq<Entry>): (ks: seq<string>)
    ensures |ks| == |es|
    ensures forall i :: 0 <= i < |es| ==> ks[i] == es[i].name
  {
    if es == [] then [] else [es[0].name] + Keys(es[1..])
  }

  /** Keys strictly ascend, so no name occurs twice. */
  predicate Sorted(es: seq<Entry>) {
    forall i, j :: 0 <= i < j < |es| ==> Less(es[i].name, es[j].name)
  }

  /** `QMap::value(name)`: the theme stored under name, if any. */
  function Lookup(es: seq<Entry>, name: string): (r: Option<ColorTheme>)
    ensures r.Some? <==> exists i :: 0 <= i < |es| && es[i].name == name
    ensures r.Some? ==> exists i :: 0 <= i < |es| && es[i] == Entry(name, r.value)
  {
    if es == [] then None
    else if es[0].name == name then Some(es[0].theme)
    else
      var r := Lookup(es[1..], name);
      assert forall i :: 0 <= i < |es[1..]| ==> es[1..][i] == es[i + 1];
      r
  }

  /** Any two different strings are ordered one way or the other. */
  lemma {:induction false} LessTotal(a: string, b: string)
    requires a != b
    ensures Less(a, b) || Less(b, a)
  {
    if a != [] && b != [] && a[0] == b[0] {
      assert a == [a[0]] + a[1..] && b == [b[0]] + b[1..];
      LessTotal(a[1..], b[1..]);
    }
  }

  /** An entry whose key precedes every key of a sorted list can go in front of it. */
  lemma SortedCons(x: Entry, rest: seq<Entry>)
    requires Sorted(rest)
    requires forall e :: e in rest ==> Less(x.name, e.name)
    ensures Sorted([x] + rest)
  {
    var r := [x] + rest;
    forall i, j | 0 <= i < j < |r|
      ensures Less(r[i].name, r[j].name)
    {
      assert r[j] == rest[j - 1];
      if i > 0 {
        assert r[i] == rest[i - 1];
      }
    }
  }

  /** `QMap::insert`: a new key goes in its sorted place, a present key has its value replaced. */
  function Insert(es: seq<Entry>, name: string, theme: ColorTheme): seq<Entry> {
    if es == [] then [Entry(name, theme)]
    else if es[0].name == name then [Entry(name, theme)] + es[1..]
    else if Less(name, es[0].name) then [Entry(name, theme)] + es
    else [es[0]] + Insert(es[1..], name, theme)
  }

  /**
   * What `QMap::insert` promises a lookup: afterwards name finds theme, and
   * every other key finds what it found before.
   */
  lemma {:induction false} InsertLookup(es: seq<Entry>, name: string, theme: ColorTheme, k: string)
    ensures Lookup(Insert(es, name, theme), k) == if k == name then Some(theme) else Lookup(es, k)
  {
    if es != [] && es[0].name != name && !Less(name, es[0].name) {
      InsertLookup(es[1..], name, theme, k);
      assert Insert(es, name, theme)[1..] == Insert(es[1..], name, theme);
    } else if es != [] && es[0].name == name {
      assert Insert(es, name, theme)[1..] == es[1..];
    } else if es != [] {
      assert Insert(es, name, theme)[1..] == es;
    }
  }

  /** Insert adds no entry other than the one it is given. */
  lemma {:induction false} InsertEntries(es: seq<Entry>, name: string, theme: ColorTheme)
    ensures forall e :: e in Insert(es, name, theme) ==> e.name == name || e in es
  {
    if es != [] && es[0].name != name && !Less(name, es[0].name) {
      InsertEntries(es[1..], name, theme);
    }
  }

  /** Insert keeps a sorted list sorted: QMap's keys stay in ascending order. */
  lemma {:induction false} InsertSorted(es: seq<Entry>, name: string, theme: ColorTheme)
    requires Sorted(es)
    ensures Sorted(Insert(es, name, theme))
  {
    var r := Insert(es, name, theme);
    if es == [] {
    } else if es[0].name == name {
      forall i, j | 0 <= i < j < |r| ensures Less(r[i].name, r[j].name) {
        assert r[j] == es[j];
        if i > 0 { assert r[i] == es[i]; }
      }
    } else if Less(name, es[0].name) {
      assert r[1..] == es;
      forall e | e in es ensures Less(name, e.name) {
        var j :| 0 <= j < |es| && es[j] == e;
        if j > 0 {
          LessTransitive(name, es[0].name, e.name);
        }
      }
      SortedCons(Entry(name, theme), es);
    } else {
      var rest := Insert(es[1..], name, theme);
      assert r == [es[0]] + rest;
      assert Sorted(es[1..]) by {
        forall i, j | 0 <= i < j < |es[1..]| ensures Less(es[1..][i].name, es[1..][j].name) {
          assert es[1..][i] == es[i + 1] && es[1..][j] == es[j + 1];
        }
      }
      InsertSorted(es[1..], name, theme);
      InsertEntries(es[1..], name, theme);
      LessTotal(name, es[0].name);
      forall e | e in rest ensures Less(es[0].name, e.name) {
        if e.name != name {
          var j :| 0 <= j < |es[1..]| && es[1..][j] == e;
          assert es[j + 1] == e;
        }
      }
      SortedCons(es[0], rest);
    }
  }

  /** The QMap that an initializer list builds: each pair inserted in turn. */
  function FromList(pairs: seq<Entry>): seq<Entry>
    decreases |pairs|
  {
    if pairs == [] then []
    else
      var last := pairs[|pairs| - 1];
      Insert(FromList(pairs[..|pairs| - 1]), last.name, last.theme)
  }

  /** The map an initializer list builds is ordered as a QMap orders its keys. */
  lemma {:induction false} FromListSorted(pairs: seq<Entry>)
    ensures Sorted(FromList(pairs))
    decreases |pairs|
  {
    if pairs != [] {
      var init := pairs[..|pairs| - 1];
      var last := pairs[|pairs| - 1];
      FromListSorted(init);
      InsertSorted(FromList(init), last.name, last.theme);
    }
  }

  /** A name is found in the map an initializer list builds exactly when the list names it. */
  lemma {:induction false} FromListKeys(pairs: seq<Entry>, k: string)
    ensures Lookup(FromList(pairs), k).Some? <==> exists i :: 0 <= i < |pairs| && pairs[i].name == k
    decreases |pairs|
  {
    if pairs != [] {
      var init := pairs[..|pairs| - 1];
      var last := pairs[|pairs| - 1];
      var before := FromList(init);
      FromListKeys(init, k);
      InsertLookup(before, last.name, last.theme, k);
      if k == last.name {
        assert pairs[|pairs| - 1].name == k;
      } else {
        if exists i :: 0 <= i < |pairs| && pairs[i].name == k {
          var i :| 0 <= i < |pairs| && pairs[i].name == k;
          assert i < |init| && init[i].name == k;
        }
        if Lookup(before, k).Some? {
          var i :| 0 <= i < |init| && init[i].name == k;
          assert pairs[i].name == k;
        }
      }
    }
  }

  /** The constructor's initializer list, in source order. */
  const Declared: seq<Entry> := [
    Entry("Classic", Classic), Entry("Dark", Dark), Entry("Vibrant", Vibrant), Entry("Ocean", Ocean)]

  /** m_themes after construction. */
  function ThemeTable(): seq<Entry> {
    FromList(Declared)
  }

  /** The table holds the four palettes, keyed in ascending order. */
  lemma ThemeTableContents()
    ensures ThemeTable() == [
      Entry("Classic", Classic), Entry("Dark", Dark), Entry("Ocean", Ocean), Entry("Vibrant", Vibrant)]
  {
    var c, d, v, o := Entry("Classic", Classic), Entry("Dark", Dark), Entry("Vibrant", Vibrant), Entry("Ocean", Ocean);
    assert Declared[..1] == [c] && Declared[..2] == [c, d] && Declared[..3] == [c, d, v];
    assert [c][..0] == [] && [c, d][..1] == [c] && [c, d, v][..2] == [c, d];
    assert FromList([c]) == [c];
    assert !Less("Dark", "Classic") && [c][1..] == [];
    assert Insert([c], "Dark", Dark) == [c, d];
    assert FromList([c, d]) == [c, d];
    assert Less("Dark", "Vibrant") && !Less("Vibrant", "Dark");
    assert !Less("Vibrant", "Classic") && [d][1..] == [];
    assert Insert([d], "Vibrant", Vibrant) == [d, v];
    assert Insert([c, d], "Vibrant", Vibrant) == [c, d, v];
    assert FromList([c, d, v]) == [c, d, v];
    assert !Less("Ocean", "Classic") && !Less("Ocean", "Dark") && Less("Ocean", "Vibrant");
    assert Insert([v], "Ocean", Ocean) == [o, v];
    assert Insert([d, v], "Ocean", Ocean) == [d, o, v];
    assert Insert([c, d, v], "Ocean", Ocean) == [c, d, o, v];
  }

  /** The constructed table is ordered as a QMap orders its keys. */
  lemma ThemeTableSorted()
    ensures Sorted(ThemeTable())
  {
    FromListSorted(Declared);
  }

  /** The names a lookup in the table finds: exactly the four declared palettes. */
  lemma TableLookup(name: string)
    ensures Lookup(ThemeTable(), name) ==
      if name == "Classic" then Some(Classic)
      else if name == "Dark" then Some(Dark)
      else if name == "Vibrant" then Some(Vibrant)
      else if name == "Ocean" then Some(Ocean)
      else None
  {
    ThemeTableContents();
  }

  // ---------------------------------------------------------------------------
  // ColorGroup

  /**
   * `QMap::value(name, fallback)`: the palette stored under name, or the
   * fallback. getTheme answers with it, and setCurrentTheme stores it.
   */
  function ValueOr(table: seq<Entry>, name: string, fallback: ColorTheme): (t: ColorTheme)
    ensures Lookup(table, name).Some? ==> Lookup(table, name) == Some(t)
    ensures Lookup(table, name).None? ==> t == fallback
  {
    match Lookup(table, name)
    case Some(found) => found
    case None => fallback
  }

  /** In the theme table, exactly the four declared names are found; any other name gives the fallback. */
  lemma TableValueOr(name: string, fallback: ColorTheme)
    ensures ValueOr(ThemeTable(), name, fallback) ==
      if name == "Classic" then Classic
      else if name == "Dark" then Dark
      else if name == "Vibrant" then Vibrant
      else if name == "Ocean" then Ocean
      else fallback
  {
    TableLookup(name);
  }

  /** Selecting the same name twice is selecting it once. */
  lemma SelectIdempotent(table: seq<Entry>, current: ColorTheme, name: string)
    ensures ValueOr(table, name, ValueOr(table, name, current)) == ValueOr(table, name, current)
  {
  }

  /** After two selections, a known second name decides the result alone; an unknown one leaves the first's. */
  lemma SelectTwice(table: seq<Entry>, current: ColorTheme, first: string, second: string)
    ensures Lookup(table, second).Some? ==>
      ValueOr(table, second, ValueOr(table, first, current)) == ValueOr(table, second, current)
    ensures Lookup(table, second).None? ==>
      ValueOr(table, second, ValueOr(table, first, current)) == ValueOr(table, first, current)
  {
  }

  class ColorGroup {
    /** m_themes: filled by the constructor, never written again. */
    var themes: seq<Entry>
    /** m_currentTheme. */
    var current: ColorTheme

    ghost predicate Valid()
      reads this
    {
      themes == ThemeTable()
    }

    /** The constructor: the four palettes, with Classic current. */
    constructor ()
      ensures Valid()
      ensures CurrentTheme() == Classic
    {
      var table := FromList(Declared);
      TableLookup("Classic");
      themes, current := table, Lookup(table, "Classic").value;
    }

    /** availableThemes: the table's keys, in the map's ascending order. */
    function AvailableThemes(): (names: seq<string>)
      reads this
      requires Valid()
      ensures names == ["Classic", "Dark", "Ocean", "Vibrant"]
    {
      ThemeTableContents();
      Keys(themes)
    }

    /** getTheme: the palette stored under name, or else the current palette. */
    function GetTheme(name: string): (t: ColorTheme)
      reads this
      requires Valid()
      ensures name == "Classic" ==> t == Classic
      ensures name == "Dark" ==> t == Dark
      ensures name == "Vibrant" ==> t == Vibrant
      ensures name == "Ocean" ==> t == Ocean
      ensures name !in {"Classic", "Dark", "Vibrant", "Ocean"} ==> t == current
    {
      TableValueOr(name, current);
      ValueOr(themes, name, current)
    }

    /** currentTheme. */
    function CurrentTheme(): ColorTheme
      reads this
    {
      current
    }

    /**
     * setCurrentTheme: a known name selects its palette; an unknown name
     * changes nothing. Either way the new current palette is what getTheme
     * answered for that name before the call, and the table is untouched.
     */
    method SetCurrentTheme(name: string)
      requires Valid()
      modifies this`current
      ensures Valid()
      ensures CurrentTheme() == old(GetTheme(name))
      ensures name in {"Classic", "Dark", "Vibrant", "Ocean"} ==> CurrentTheme() == GetTheme(name)
      ensures name !in {"Classic", "Dark", "Vibrant", "Ocean"} ==> CurrentTheme() == old(CurrentTheme())
    {
      if Lookup(themes, name).Some? {
        current := Lookup(themes, name).value;
      }
      TableLookup(name);
    }
  }
}
