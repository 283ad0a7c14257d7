/** The county list of src/services/countyService.ts: the county file is
    read line by line with a plain comma split, the 'National' row and rows
    without a name are dropped, coordinates come from a fixed table, and
    the list can be grouped by first letter or searched by id or name. */
module CountyService {
  import opened Base
  import opened Sorting

  datatype Coordinates = Coordinates(lat: real, lon: real)

  datatype County = County(id: string, name: string, code: string, coordinates: Coordinates)

  /** The fixed latitude/longitude table, keyed by exact county name. */
  const CountyCoordinates: map<string, Coordinates> := map[
    "Mombasa" := Coordinates(-4.0435, 39.6682),
    "Kwale" := Coordinates(-4.1822, 39.4520),
    "Kilifi" := Coordinates(-3.6309, 39.8490),
    "Tana River" := Coordinates(-1.8622, 40.1170),
    "Lamu" := Coordinates(-2.2717, 40.9020),
    "Taita-Taveta" := Coordinates(-3.3167, 38.4800),
    "Garissa" := Coordinates(-0.4536, 39.6401),
    "Wajir" := Coordinates(1.7471, 40.0630),
    "Mandera" := Coordinates(3.9366, 41.8670),
    "Marsabit" := Coordinates(2.3284, 37.9891),
    "Isiolo" := Coordinates(0.3556, 37.5820),
    "Meru" := Coordinates(0.0469, 37.6500),
    "Tharaka-Nithi" := Coordinates(-0.2908, 37.7280),
    "Embu" := Coordinates(-0.5317, 37.4570),
    "Kitui" := Coordinates(-1.3668, 38.0106),
    "Machakos" := Coordinates(-1.5177, 37.2634),
    "Makueni" := Coordinates(-2.2795, 37.8270),
    "Nyandarua" := Coordinates(-0.1800, 36.4800),
    "Nyeri" := Coordinates(-0.4197, 36.9475),
    "Kirinyaga" := Coordinates(-0.6599, 37.3830),
    "Murang'a" := Coordinates(-0.7830, 37.0830),
    "Kiambu" := Coordinates(-1.1714, 36.8356),
    "Turkana" := Coordinates(3.3100, 35.5660),
    "West Pokot" := Coordinates(1.6207, 35.3670),
    "Samburu" := Coordinates(1.2153, 36.9450),
    "Trans-Nzoia" := Coordinates(1.0582, 34.9510),
    "Uasin Gishu" := Coordinates(0.5530, 35.3020),
    "Elgeyo-Marakwet" := Coordinates(0.8280, 35.4780),
    "Nandi" := Coordinates(0.1836, 35.1270),
    "Baringo" := Coordinates(0.4684, 36.0890),
    "Laikipia" := Coordinates(0.3556, 36.7820),
    "Nakuru" := Coordinates(-0.3031, 36.0800),
    "Narok" := Coordinates(-1.0833, 35.8710),
    "Kajiado" := Coordinates(-2.0982, 36.7820),
    "Kericho" := Coordinates(-0.3676, 35.2860),
    "Bomet" := Coordinates(-0.8010, 35.3090),
    "Kakamega" := Coordinates(0.2827, 34.7519),
    "Vihiga" := Coordinates(0.0667, 34.7200),
    "Bungoma" := Coordinates(0.5635, 34.5608),
    "Busia" := Coordinates(0.4344, 34.2420),
    "Siaya" := Coordinates(0.0620, 34.2880),
    "Kisumu" := Coordinates(-0.0917, 34.7680),
    "Homa Bay" := Coordinates(-0.5273, 34.4570),
    "Migori" := Coordinates(-1.0634, 34.4731),
    "Kisii" := Coordinates(-0.6774, 34.7797),
    "Nyamira" := Coordinates(-0.5669, 34.9340),
    "Nairobi" := Coordinates(-1.2921, 36.8219),
    "National" := Coordinates(-0.0236, 37.9062)
  ]

  const DefaultCoordinates := Coordinates(0.0, 37.0)

  // ---------------------------------------------------------------------
  // loadCounties

  /** `values[index]?.trim() || ''`. */
  function Field(values: seq<string>, index: nat): string {
    if index < |values| then Trim(values[index]) else ""
  }

  /** One data line: split on every comma, quotes included. */
  function ParseLine(line: string): County {
    var values := Split(line, ',');
    var name := Field(values, 1);
    County(Field(values, 0), name, Field(values, 2),
           if name in CountyCoordinates then CountyCoordinates[name] else DefaultCoordinates)
  }

  /** The filter: a non-empty name other than 'National'. */
  predicate Kept(c: County) {
    c.name != "" && c.name != "National"
  }

  /** The lines after the header of the trimmed text. */
  function DataLines(text: string): seq<string> {
    Split(Trim(text), '\n')[1..]
  }

  /** Every data line mapped to a county, in file order. */
  function Parsed(text: string): (r: seq<County>)
    ensures |r| == |DataLines(text)|
    ensures forall k :: 0 <= k < |r| ==> r[k] == ParseLine(DataLines(text)[k])
  {
    var lines := DataLines(text);
    seq(|lines|, k requires 0 <= k < |lines| => ParseLine(lines[k]))
  }

  /** The counties of a file: the parsed lines that pass the filter. */
  function CountiesOf(text: string): (r: seq<County>)
    ensures |r| <= |DataLines(text)|
    ensures forall k :: 0 <= k < |r| ==> Kept(r[k]) && r[k] in Parsed(text)
    ensures forall k :: 0 <= k < |DataLines(text)| && Kept(Parsed(text)[k]) ==> Parsed(text)[k] in r
  {
    Filter(Parsed(text), Kept)
  }

  /** File order: the counties of the lines before line k, then line k's
      county if it passes, then those of the lines after it. */
  lemma CountiesOfOrder(text: string, k: nat)
    requires k < |DataLines(text)|
    ensures CountiesOf(text)
            == Filter(Parsed(text)[..k], Kept) + (if Kept(Parsed(text)[k]) then [Parsed(text)[k]] else [])
               + Filter(Parsed(text)[k + 1..], Kept)
  {
    FilterAt(Parsed(text), Kept, k);
  }

  /** A data line's fields are its comma-separated parts, trimmed, '' when
      the line is short. */
  lemma ParseLineFields(line: string)
    ensures 0 < |Split(line, ',')| ==> ParseLine(line).id == Trim(Split(line, ',')[0])
    ensures 1 < |Split(line, ',')| ==> ParseLine(line).name == Trim(Split(line, ',')[1])
    ensures 2 < |Split(line, ',')| ==> ParseLine(line).code == Trim(Split(line, ',')[2])
    ensures |Split(line, ',')| < 2 ==> ParseLine(line).name == ""
    ensures |Split(line, ',')| < 3 ==> ParseLine(line).code == ""
  {
    ParseLineParts(line);
  }

  lemma ParseLineParts(line: string)
    ensures var values := Split(line, ',');
      ParseLine(line).id == Field(values, 0) && ParseLine(line).name == Field(values, 1)
      && ParseLine(line).code == Field(values, 2)
  {
  }

  lemma CoordinatesByName(line: string)
    ensures var c := ParseLine(line);
      && (c.name in CountyCoordinates ==> c.coordinates == CountyCoordinates[c.name])
      && (c.name !in CountyCoordinates ==> c.coordinates == DefaultCoordinates)
  {
  }

  /** Quotes are not honoured: a quoted name holding a comma is cut at the
      comma, and the second half becomes the code. */
  lemma QuotedNameIsCut(id: string, a: string, b: string, rest: string)
    requires ',' !in id && ',' !in a && ',' !in b
    ensures ParseLine(id + ",\"" + a + "," + b + "\"," + rest).name == Trim("\"" + a)
    ensures ParseLine(id + ",\"" + a + "," + b + "\"," + rest).code == Trim(b + "\"")
  {
    var qa := "\"" + a;
    var bq := b + "\"";
    var line := id + ",\"" + a + "," + b + "\"," + rest;
    assert line == id + [','] + (qa + [','] + (bq + [','] + rest));
    SplitAfter(id, qa + [','] + (bq + [','] + rest), ',');
    SplitAfter(qa, bq + [','] + rest, ',');
    SplitAfter(bq, rest, ',');
  }

  // ---------------------------------------------------------------------
  // getCountiesByLetter

  /** A Map entry: the upper-cased first letter and its counties. */
  type Group = (char, seq<County>)

  /** `county.name.charAt(0).toUpperCase()`. */
  function Key(c: County): char
    requires c.name != ""
  {
    UpperChar(c.name[0])
  }

  predicate Named(s: seq<County>) {
    forall k :: 0 <= k < |s| ==> s[k].name != ""
  }

  /** One step of the forEach: push onto the group of the county's key,
      opening a new group at the end of the Map when the key is new. */
  function AddTo(gs: seq<Group>, c: County): seq<Group>
    requires c.name != ""
  {
    if gs == [] then [(Key(c), [c])]
    else if gs[0].0 == Key(c) then [(gs[0].0, gs[0].1 + [c])] + gs[1..]
    else [gs[0]] + AddTo(gs[1..], c)
  }

  /** The Map after the forEach, in insertion order. */
  function Grouped(s: seq<County>): seq<Group>
    requires Named(s)
  {
    if s == [] then [] else AddTo(Grouped(s[..|s| - 1]), s[|s| - 1])
  }

  predicate NameLe(a: County, b: County) {
    StrLe(a.name, b.name)
  }

  /** Every group sorted by name. */
  function SortGroups(gs: seq<Group>): seq<Group> {
    seq(|gs|, i requires 0 <= i < |gs| => (gs[i].0, SortBy(gs[i].1, NameLe)))
  }

  /** The string the default sort compares for an entry: the key, a comma,
      and one "[object Object]" per county. */
  function EntryText(g: Group): string {
    [g.0] + "," + Join(seq(|g.1|, _ => "[object Object]"), ",")
  }

  predicate EntryLe(a: Group, b: Group) {
    StrLe(EntryText(a), EntryText(b))
  }

  /** getCountiesByLetter's result. */
  function ByLetter(s: seq<County>): seq<Group>
    requires Named(s)
  {
    SortBy(SortGroups(Grouped(s)), EntryLe)
  }

  function Flatten(gs: seq<Group>): seq<County> {
    if gs == [] then [] else gs[0].1 + Flatten(gs[1..])
  }

  /** The sum of the group sizes. */
  function Sizes(gs: seq<Group>): nat {
    if gs == [] then 0 else |gs[0].1| + Sizes(gs[1..])
  }

  predicate DistinctKeys(gs: seq<Group>) {
    forall i, j :: 0 <= i < j < |gs| ==> gs[i].0 != gs[j].0
  }

  /** A non-empty group whose members all have its key. */
  predicate WellKeyed(g: Group) {
    && g.1 != []
    && forall j :: 0 <= j < |g.1| ==> g.1[j].name != "" && Key(g.1[j]) == g.0
  }

  predicate AllWellKeyed(gs: seq<Group>) {
    forall i :: 0 <= i < |gs| ==> WellKeyed(gs[i])
  }

  /** A step only touches the group of the county's key. */
  lemma {:induction false} AddToOthers(gs: seq<Group>, c: County)
    requires c.name != ""
    ensures forall i :: 0 <= i < |AddTo(gs, c)| && AddTo(gs, c)[i].0 != Key(c) ==> AddTo(gs, c)[i] in gs
  {
    if gs != [] && gs[0].0 != Key(c) {
      AddToOthers(gs[1..], c);
      assert AddTo(gs, c) == [gs[0]] + AddTo(gs[1..], c);
    }
  }

  lemma {:induction false} AddToDistinct(gs: seq<Group>, c: County)
    requires c.name != ""
    requires DistinctKeys(gs)
    ensures DistinctKeys(AddTo(gs, c))
  {
    if gs != [] && gs[0].0 != Key(c) {
      var t := AddTo(gs[1..], c);
      AddToDistinct(gs[1..], c);
      AddToOthers(gs[1..], c);
      var r := [gs[0]] + t;
      assert AddTo(gs, c) == r;
      forall j | 0 < j < |r|
        ensures r[0].0 != r[j].0
      {
        assert r[j] == t[j - 1];
        if t[j - 1].0 != Key(c) {
          var m :| 0 <= m < |gs[1..]| && gs[1..][m] == t[j - 1];
          assert gs[m + 1] == t[j - 1];
        }
      }
    } else if gs != [] {
      assert AddTo(gs, c)[1..] == gs[1..];
    }
  }

  lemma {:induction false} AddToKeyed(gs: seq<Group>, c: County)
    requires c.name != ""
    requires AllWellKeyed(gs)
    ensures AllWellKeyed(AddTo(gs, c))
  {
    if gs == [] {
      assert WellKeyed(AddTo(gs, c)[0]);
    } else if gs[0].0 == Key(c) {
      assert AddTo(gs, c)[1..] == gs[1..];
      assert WellKeyed(gs[0]);
      assert WellKeyed(AddTo(gs, c)[0]);
    } else {
      AddToKeyed(gs[1..], c);
      assert AddTo(gs, c) == [gs[0]] + AddTo(gs[1..], c);
    }
  }

  lemma {:induction false} AddToFlatten(gs: seq<Group>, c: County)
    requires c.name != ""
    ensures multiset(Flatten(AddTo(gs, c))) == multiset(Flatten(gs)) + multiset{c}
  {
    var r := AddTo(gs, c);
    if gs == [] {
      assert r[1..] == [];
    } else if gs[0].0 == Key(c) {
      assert r[1..] == gs[1..];
    } else {
      AddToFlatten(gs[1..], c);
      assert r[1..] == AddTo(gs[1..], c);
    }
  }

  /** The Map built by the forEach: distinct keys, every member under its
      own key, and each county exactly once. */
  lemma GroupedShape(s: seq<County>)
    requires Named(s)
    ensures DistinctKeys(Grouped(s)) && AllWellKeyed(Grouped(s))
    ensures multiset(Flatten(Grouped(s))) == multiset(s)
  {
    GroupedDistinct(s);
    GroupedKeyed(s);
    GroupedFlatten(s);
  }

  lemma {:induction false} GroupedDistinct(s: seq<County>)
    requires Named(s)
    ensures DistinctKeys(Grouped(s))
  {
    if s != [] {
      GroupedDistinct(s[..|s| - 1]);
      AddToDistinct(Grouped(s[..|s| - 1]), s[|s| - 1]);
    }
  }

  lemma {:induction false} GroupedKeyed(s: seq<County>)
    requires Named(s)
    ensures AllWellKeyed(Grouped(s))
  {
    if s != [] {
      GroupedKeyed(s[..|s| - 1]);
      AddToKeyed(Grouped(s[..|s| - 1]), s[|s| - 1]);
    }
  }

  lemma {:induction false} GroupedFlatten(s: seq<County>)
    requires Named(s)
    ensures multiset(Flatten(Grouped(s))) == multiset(s)
  {
    if s != [] {
      var init := s[..|s| - 1];
      GroupedFlatten(init);
      AddToFlatten(Grouped(init), s[|s| - 1]);
      assert s == init + [s[|s| - 1]];
    }
  }

  /** Sorting inside each group keeps the keys, the members and the
      group order. */
  lemma SortGroupsShape(gs: seq<Group>)
    requires DistinctKeys(gs) && AllWellKeyed(gs)
    ensures DistinctKeys(SortGroups(gs)) && AllWellKeyed(SortGroups(gs))
    ensures multiset(Flatten(SortGroups(gs))) == multiset(Flatten(gs))
    ensures forall i :: 0 <= i < |gs| ==> SortGroups(gs)[i].1 == SortBy(gs[i].1, NameLe)
  {
    SortGroupsKeyed(gs);
    SortGroupsFlatten(gs);
  }

  lemma SortGroupsKeyed(gs: seq<Group>)
    requires AllWellKeyed(gs)
    ensures AllWellKeyed(SortGroups(gs))
  {
    var r := SortGroups(gs);
    forall i | 0 <= i < |r|
      ensures WellKeyed(r[i])
    {
      forall j | 0 <= j < |r[i].1|
        ensures r[i].1[j].name != "" && Key(r[i].1[j]) == r[i].0
      {
        assert r[i].1[j] in multiset(gs[i].1);
      }
    }
  }

  lemma {:induction false} SortGroupsFlatten(gs: seq<Group>)
    ensures multiset(Flatten(SortGroups(gs))) == multiset(Flatten(gs))
  {
    if gs != [] {
      var r := SortGroups(gs);
      SortGroupsFlatten(gs[1..]);
      SortGroupsTail(gs);
      assert Flatten(r) == r[0].1 + Flatten(r[1..]);
      assert multiset(r[0].1) == multiset(gs[0].1);
    }
  }

  lemma SortGroupsTail(gs: seq<Group>)
    requires gs != []
    ensures SortGroups(gs)[1..] == SortGroups(gs[1..])
  {
  }

  lemma {:induction false} FlattenInsert(t: seq<Group>, x: Group, le: (Group, Group) -> bool)
    ensures multiset(Flatten(Insert(t, x, le))) == multiset(Flatten(t)) + multiset(x.1)
  {
    if t != [] && le(t[0], x) {
      FlattenInsert(t[1..], x, le);
      var r := Insert(t, x, le);
      assert r[0] == t[0] && r[1..] == Insert(t[1..], x, le);
    } else if t == [] {
      assert Insert(t, x, le)[1..] == [];
    } else {
      assert Insert(t, x, le)[1..] == t;
    }
  }

  lemma {:induction false} FlattenSnoc(gs: seq<Group>, g: Group)
    ensures Flatten(gs + [g]) == Flatten(gs) + g.1
  {
    if gs == [] {
      assert ([] + [g])[1..] == [];
    } else {
      FlattenSnoc(gs[1..], g);
      assert (gs + [g])[1..] == gs[1..] + [g];
    }
  }

  lemma {:induction false} InsertDistinct(t: seq<Group>, x: Group, le: (Group, Group) -> bool)
    requires DistinctKeys(t)
    requires forall k :: 0 <= k < |t| ==> t[k].0 != x.0
    ensures DistinctKeys(Insert(t, x, le))
  {
    var r := Insert(t, x, le);
    if t != [] && le(t[0], x) {
      var tail := Insert(t[1..], x, le);
      InsertDistinct(t[1..], x, le);
      assert r == [t[0]] + tail;
      forall j | 0 < j < |r|
        ensures r[0].0 != r[j].0
      {
        assert r[j] == tail[j - 1];
        assert r[j] in multiset(t[1..]) + multiset{x};
        if r[j] != x {
          var m :| 0 <= m < |t[1..]| && t[1..][m] == r[j];
          assert t[m + 1] == r[j];
        }
      }
    }
  }

  /** Sorting the entries keeps each county once and the keys distinct. */
  lemma {:induction false} SortEntries(gs: seq<Group>, le: (Group, Group) -> bool)
    requires DistinctKeys(gs)
    ensures DistinctKeys(SortBy(gs, le))
    ensures multiset(Flatten(SortBy(gs, le))) == multiset(Flatten(gs))
  {
    if gs != [] {
      var init := gs[..|gs| - 1];
      var x := gs[|gs| - 1];
      assert gs == init + [x];
      SortEntries(init, le);
      var t := SortBy(init, le);
      forall k | 0 <= k < |t|
        ensures t[k].0 != x.0
      {
        assert t[k] in multiset(init);
      }
      InsertDistinct(t, x, le);
      FlattenInsert(t, x, le);
      FlattenSnoc(init, x);
    }
  }

  lemma {:induction false} SizesFlatten(gs: seq<Group>)
    ensures Sizes(gs) == |Flatten(gs)|
  {
    if gs != [] {
      SizesFlatten(gs[1..]);
    }
  }

  /** Every entry of the result is a group of the Map, sorted by name. */
  lemma ByLetterEntries(s: seq<County>)
    requires Named(s)
    ensures DistinctKeys(ByLetter(s))
    ensures multiset(Flatten(ByLetter(s))) == multiset(s)
    ensures forall i :: 0 <= i < |ByLetter(s)| ==> ByLetter(s)[i] in SortGroups(Grouped(s))
  {
    var g := Grouped(s);
    GroupedShape(s);
    SortGroupsShape(g);
    SortEntries(SortGroups(g), EntryLe);
    var r := ByLetter(s);
    forall i | 0 <= i < |r|
      ensures r[i] in SortGroups(g)
    {
      assert r[i] in multiset(r);
    }
  }

  /** getCountiesByLetter: each county is in the result exactly as often as
      in the list, and the group sizes add up to the county count. */
  lemma ByLetterCounts(s: seq<County>)
    requires Named(s)
    ensures multiset(Flatten(ByLetter(s))) == multiset(s)
    ensures Sizes(ByLetter(s)) == |s|
  {
    ByLetterEntries(s);
    SizesFlatten(ByLetter(s));
    assert |multiset(Flatten(ByLetter(s)))| == |multiset(s)|;
  }

  /** Every group is non-empty, holds only counties whose upper-cased first
      letter is its key, and is sorted by name. */
  lemma ByLetterGroups(s: seq<County>)
    requires Named(s)
    ensures AllWellKeyed(ByLetter(s))
    ensures forall i :: 0 <= i < |ByLetter(s)| ==> Sorted(ByLetter(s)[i].1, NameLe)
  {
    var sg := SortGroups(Grouped(s));
    var r := ByLetter(s);
    ByLetterEntries(s);
    SortedGroups(s);
    forall i | 0 <= i < |r|
      ensures WellKeyed(r[i]) && Sorted(r[i].1, NameLe)
    {
      var m :| 0 <= m < |sg| && sg[m] == r[i];
    }
  }

  /** Before the entries are ordered, every group is well keyed and sorted
      by name. */
  lemma SortedGroups(s: seq<County>)
    requires Named(s)
    ensures forall m :: 0 <= m < |SortGroups(Grouped(s))| ==>
      WellKeyed(SortGroups(Grouped(s))[m]) && Sorted(SortGroups(Grouped(s))[m].1, NameLe)
  {
    var g := Grouped(s);
    GroupedShape(s);
    SortGroupsShape(g);
    StrLeByKey((c: County) => c.name, NameLe);
    forall m | 0 <= m < |g|
      ensures Sorted(SortGroups(g)[m].1, NameLe)
    {
      SortBySorted(g[m].1, NameLe);
    }
  }

  /** The keys come out strictly ascending. */
  lemma ByLetterKeysAscending(s: seq<County>)
    requires Named(s)
    ensures forall i, j :: 0 <= i < j < |ByLetter(s)| ==> ByLetter(s)[i].0 < ByLetter(s)[j].0
  {
    var r := ByLetter(s);
    ByLetterEntries(s);
    StrLeByKey(EntryText, EntryLe);
    SortBySorted(SortGroups(Grouped(s)), EntryLe);
    forall i, j | 0 <= i < j < |r|
      ensures r[i].0 < r[j].0
    {
      assert EntryLe(r[i], r[j]);
      StrLeHead(EntryText(r[i]), EntryText(r[j]));
    }
  }

  /** Each county belongs to exactly one group. */
  lemma ExactlyOneGroup(s: seq<County>, c: County)
    requires Named(s) && c in s
    ensures exists i :: 0 <= i < |ByLetter(s)| && c in ByLetter(s)[i].1 && ByLetter(s)[i].0 == Key(c)
    ensures forall i, j :: 0 <= i < |ByLetter(s)| && 0 <= j < |ByLetter(s)| && c in ByLetter(s)[i].1 && c in ByLetter(s)[j].1 ==> i == j
  {
    var r := ByLetter(s);
    ByLetterEntries(s);
    ByLetterGroups(s);
    assert c in multiset(Flatten(r));
    FlattenMember(r, c);
    forall i, j | 0 <= i < |r| && 0 <= j < |r| && c in r[i].1 && c in r[j].1
      ensures i == j
    {
      InGroupHasKey(r[i], c);
      InGroupHasKey(r[j], c);
    }
  }

  lemma InGroupHasKey(g: Group, c: County)
    requires WellKeyed(g) && c in g.1
    ensures c.name != "" && Key(c) == g.0
  {
    var a :| 0 <= a < |g.1| && g.1[a] == c;
  }

  lemma {:induction false} FlattenMember(gs: seq<Group>, c: County)
    requires c in Flatten(gs)
    requires AllWellKeyed(gs)
    ensures exists i :: 0 <= i < |gs| && c in gs[i].1 && gs[i].0 == Key(c)
  {
    if c in gs[0].1 {
      var a :| 0 <= a < |gs[0].1| && gs[0].1[a] == c;
      assert WellKeyed(gs[0]);
    } else {
      assert AllWellKeyed(gs[1..]) by {
        forall i | 0 <= i < |gs[1..]| ensures WellKeyed(gs[1..][i]) {
          assert gs[1..][i] == gs[i + 1];
        }
      }
      FlattenMember(gs[1..], c);
      var i :| 0 <= i < |gs[1..]| && c in gs[1..][i].1 && gs[1..][i].0 == Key(c);
      assert gs[i + 1] == gs[1..][i];
    }
  }

  // ---------------------------------------------------------------------
  // The service object

  class CountyService {
    var counties: seq<County>

    /** Only loadCounties assigns the list, and it keeps only named
        counties other than 'National'. */
    ghost predicate Valid()
      reads this
    {
      forall k :: 0 <= k < |counties| ==> Kept(counties[k])
    }

    constructor()
      ensures counties == [] && Valid()
    {
      counties := [];
    }

    /** loadCounties: `response` is the file text, or None when the fetch
        or the body read rejects; then the list is left as it was and []
        is returned. The HTTP status is not looked at. */
    method LoadCounties(response: Option<string>) returns (r: seq<County>)
      requires Valid()
      modifies this
      ensures Valid()
      ensures response.None? ==> r == [] && counties == old(counties)
      ensures response.Some? ==> r == counties == CountiesOf(response.value)
    {
      match response {
        case None =>
          r := [];
        case Some(text) =>
          counties := CountiesOf(text);
          r := counties;
      }
    }

    /** getCountiesByLetter: the Map is filled by a forEach, each group is
        sorted in place, then the entries are sorted. */
    method GetCountiesByLetter() returns (r: seq<Group>)
      requires Valid()
      ensures r == ByLetter(counties)
    {
      var grouped: seq<Group> := [];
      for i := 0 to |counties|
        invariant grouped == Grouped(counties[..i])
      {
        assert counties[..i + 1][..i] == counties[..i];
        grouped := AddTo(grouped, counties[i]);
      }
      assert counties[..|counties|] == counties;
      ghost var g0 := grouped;
      for i := 0 to |grouped|
        invariant |grouped| == |g0|
        invariant forall j :: 0 <= j < i ==> grouped[j] == SortGroups(g0)[j]
        invariant forall j :: i <= j < |g0| ==> grouped[j] == g0[j]
      {
        grouped := grouped[i := (grouped[i].0, SortBy(grouped[i].1, NameLe))];
      }
      assert grouped == SortGroups(g0);
      r := SortBy(grouped, EntryLe);
    }

    /** getCountyById: the first county with that id, or None. */
    function GetCountyById(id: string): (r: Option<County>)
      reads this
      ensures r.None? <==> forall k :: 0 <= k < |counties| ==> counties[k].id != id
      ensures r.Some? ==> exists k :: 0 <= k < |counties| && counties[k] == r.value && r.value.id == id
                                      && forall j :: 0 <= j < k ==> counties[j].id != id
    {
      Find(counties, (c: County) => c.id == id)
    }

    /** getCountyByName: the first county with that exact name, or None. */
    function GetCountyByName(name: string): (r: Option<County>)
      reads this
      ensures r.None? <==> forall k :: 0 <= k < |counties| ==> counties[k].name != name
      ensures r.Some? ==> exists k :: 0 <= k < |counties| && counties[k] == r.value && r.value.name == name
                                      && forall j :: 0 <= j < k ==> counties[j].name != name
    {
      Find(counties, (c: County) => c.name == name)
    }
  }

  /** 'National' is in the coordinate table but never in the list. */
  lemma NationalNeverLoaded(text: string)
    ensures "National" in CountyCoordinates
    ensures forall k :: 0 <= k < |CountiesOf(text)| ==> CountiesOf(text)[k].name != "National"
  {
  }
}
