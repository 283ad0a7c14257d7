/** The rankings page: the records of one item and year summed per county
    (or per commodity) in the order the keys were first seen, ranked by a
    stable sort on descending totals, cut to the top N, searched and
    re-sorted for the table, and drawn with each row's share of the total.
    Numbers are exact reals; floating-point rounding is not modelled. */
module Rankings {
  import opened Base
  import opened Sorting
  import opened ApiService
  import DefinitionsStandards

  /** One entry of the aggregation map: its key, the running total and
      what was copied from the first record with that key. */
  datatype Agg = Agg(key: string, value: real, unit: string, flag: string, item: string)

  datatype RankingRow = RankingRow(rank: int, county: string, item: string, year: string,
                                   value: real, unit: string, flag: string)

  // ---------------------------------------------------------------------
  // Aggregation

  /** The grouping key: the item in commodity mode, the county otherwise. */
  function KeyOf(r: KilimoDataRecord, commodity: bool): string {
    if commodity then r.item else r.county
  }

  function RecordKeys(rs: seq<KilimoDataRecord>, commodity: bool): (r: seq<string>)
    ensures |r| == |rs|
    ensures forall i :: 0 <= i < |rs| ==> r[i] == KeyOf(rs[i], commodity)
  {
    seq(|rs|, i requires 0 <= i < |rs| => KeyOf(rs[i], commodity))
  }

  /** What one record contributes: its key, `parseFloat(value) || 0`, and
      the fields a new map entry copies. */
  function EntryOf(r: KilimoDataRecord, commodity: bool): Agg {
    Agg(KeyOf(r, commodity), NumOrZero(r.value), r.unit, r.flag, r.item)
  }

  function Entries(rs: seq<KilimoDataRecord>, commodity: bool): (es: seq<Agg>)
    ensures |es| == |rs|
  {
    seq(|rs|, i requires 0 <= i < |rs| => EntryOf(rs[i], commodity))
  }

  lemma EntriesKeys(rs: seq<KilimoDataRecord>, commodity: bool)
    ensures AggKeys(Entries(rs, commodity)) == RecordKeys(rs, commodity)
  {
  }

  /** The keys of a sequence of entries, in order. */
  function AggKeys(aggs: seq<Agg>): (r: seq<string>)
    ensures |r| == |aggs|
    ensures forall i :: 0 <= i < |aggs| ==> r[i] == aggs[i].key
  {
    seq(|aggs|, i requires 0 <= i < |aggs| => aggs[i].key)
  }

  /** One pass of the loop: add the amount to the entry for its key, or
      insert a new entry at the end of the map. */
  function AddEntry(aggs: seq<Agg>, e: Agg): seq<Agg> {
    var i := IndexOf(AggKeys(aggs), e.key);
    if i >= 0 then aggs[i := aggs[i].(value := aggs[i].value + e.value)]
    else aggs + [e]
  }

  /** The aggregation map after the loop has seen every entry. */
  function Fold(es: seq<Agg>): seq<Agg> {
    if es == [] then [] else AddEntry(Fold(es[..|es| - 1]), es[|es| - 1])
  }

  /** AddEntry spelled out as the loop body's two branches. */
  lemma AddEntryCases(aggs: seq<Agg>, e: Agg)
    ensures var i := IndexOf(AggKeys(aggs), e.key);
      && (i >= 0 ==> AddEntry(aggs, e) == aggs[i := aggs[i].(value := aggs[i].value + e.value)])
      && (i < 0 ==> AddEntry(aggs, e) == aggs + [Agg(e.key, e.value, e.unit, e.flag, e.item)])
  {
  }

  lemma FoldStep(es: seq<Agg>, k: nat)
    requires k < |es|
    ensures Fold(es[..k + 1]) == AddEntry(Fold(es[..k]), es[k])
  {
    assert es[..k + 1][..k] == es[..k];
  }

  /** One pass of the loop body: bump the total of the entry with this
      key in place, or add a new entry that copies the record's fields. */
  method AddToMap(aggs: seq<Agg>, e: Agg) returns (r: seq<Agg>)
    ensures r == AddEntry(aggs, e)
    ensures AggKeys(r) == if e.key in AggKeys(aggs) then AggKeys(aggs) else AggKeys(aggs) + [e.key]
  {
    var i := IndexOf(AggKeys(aggs), e.key);
    if i >= 0 {
      r := aggs[i := aggs[i].(value := aggs[i].value + e.value)];
    } else {
      r := aggs + [Agg(e.key, e.value, e.unit, e.flag, e.item)];
    }
  }

  /** The loop over the records, updating the map entry in place. */
  method AggregateRecords(rs: seq<KilimoDataRecord>, commodity: bool) returns (aggs: seq<Agg>)
    ensures aggs == Fold(Entries(rs, commodity))
  {
    ghost var es := Entries(rs, commodity);
    aggs := [];
    for k := 0 to |rs|
      invariant aggs == Fold(es[..k])
    {
      var rec := rs[k];
      var entry := Agg(KeyOf(rec, commodity), NumOrZero(rec.value), rec.unit, rec.flag, rec.item);
      assert entry == es[k];
      aggs := AddToMap(aggs, entry);
      FoldStep(es, k);
    }
    assert es[..|rs|] == es;
  }

  // Reference definitions of what the map should hold.

  /** The distinct elements of `s` in order of first occurrence. */
  function FirstSeen(s: seq<string>): seq<string> {
    if s == [] then []
    else
      var init := FirstSeen(s[..|s| - 1]);
      if s[|s| - 1] in init then init else init + [s[|s| - 1]]
  }

  /** The sum of the amounts of the entries with this key. */
  function KeyTotal(es: seq<Agg>, key: string): real {
    if es == [] then 0.0
    else KeyTotal(es[..|es| - 1], key) + (if es[|es| - 1].key == key then es[|es| - 1].value else 0.0)
  }

  /** The sum of parseFloat(value) || 0 over the records with this key. */
  function RecordTotal(rs: seq<KilimoDataRecord>, commodity: bool, key: string): real {
    if rs == [] then 0.0
    else
      var last := rs[|rs| - 1];
      RecordTotal(rs[..|rs| - 1], commodity, key) + (if KeyOf(last, commodity) == key then NumOrZero(last.value) else 0.0)
  }

  lemma {:induction false} EntriesTotal(rs: seq<KilimoDataRecord>, commodity: bool, key: string)
    ensures KeyTotal(Entries(rs, commodity), key) == RecordTotal(rs, commodity, key)
  {
    if rs != [] {
      var es := Entries(rs, commodity);
      EntriesTotal(rs[..|rs| - 1], commodity, key);
      assert es[..|rs| - 1] == Entries(rs[..|rs| - 1], commodity);
      assert es[|rs| - 1] == EntryOf(rs[|rs| - 1], commodity);
    }
  }

  /** The first entry with this key, if any. */
  function FirstWith(es: seq<Agg>, key: string): Option<Agg> {
    if es == [] then None
    else
      var earlier := FirstWith(es[..|es| - 1], key);
      if earlier.Some? then earlier
      else if es[|es| - 1].key == key then Some(es[|es| - 1])
      else None
  }

  lemma {:induction false} FirstSeenMembers(s: seq<string>)
    ensures forall x :: x in FirstSeen(s) <==> x in s
    ensures forall i, j :: 0 <= i < j < |FirstSeen(s)| ==> FirstSeen(s)[i] != FirstSeen(s)[j]
  {
    if s != [] {
      FirstSeenMembers(s[..|s| - 1]);
      assert s == s[..|s| - 1] + [s[|s| - 1]];
    }
  }

  /** FirstWith finds the entry at the key's first position. */
  lemma {:induction false} FirstWithIsFirst(es: seq<Agg>, key: string)
    ensures var i := IndexOf(AggKeys(es), key);
      && (FirstWith(es, key).Some? <==> i >= 0)
      && (i >= 0 ==> FirstWith(es, key) == Some(es[i]))
  {
    if es != [] {
      var init := es[..|es| - 1];
      FirstWithIsFirst(init, key);
      assert AggKeys(es) == AggKeys(init) + [es[|es| - 1].key];
      IndexOfSnoc(AggKeys(init), es[|es| - 1].key, key);
    }
  }

  /** A key no entry carries totals zero. */
  lemma {:induction false} KeyTotalAbsent(es: seq<Agg>, key: string)
    requires key !in AggKeys(es)
    ensures KeyTotal(es, key) == 0.0
  {
    if es != [] {
      var init := es[..|es| - 1];
      assert AggKeys(es) == AggKeys(init) + [es[|es| - 1].key];
      KeyTotalAbsent(init, key);
    }
  }

  /** The map's keys are the entries' keys, each once, in first-seen
      order. */
  lemma {:induction false} FoldKeys(es: seq<Agg>)
    ensures AggKeys(Fold(es)) == FirstSeen(AggKeys(es))
  {
    if es != [] {
      var init := es[..|es| - 1];
      var e := es[|es| - 1];
      var prev := Fold(init);
      FoldKeys(init);
      assert AggKeys(es)[..|es| - 1] == AggKeys(init);
      var i := IndexOf(AggKeys(prev), e.key);
      if i >= 0 {
        assert AggKeys(AddEntry(prev, e)) == AggKeys(prev);
      } else {
        assert AggKeys(AddEntry(prev, e)) == AggKeys(prev) + [e.key];
      }
    }
  }

  /** No two entries of the map share a key. */
  lemma FoldDistinct(es: seq<Agg>)
    ensures var aggs := Fold(es);
      forall i, j :: 0 <= i < j < |aggs| ==> aggs[i].key != aggs[j].key
  {
    var aggs := Fold(es);
    FoldKeys(es);
    FirstSeenMembers(AggKeys(es));
    assert forall i :: 0 <= i < |aggs| ==> aggs[i].key == AggKeys(aggs)[i];
  }

  /** Each map entry holds its key's total. */
  lemma {:induction false} FoldTotals(es: seq<Agg>)
    ensures var aggs := Fold(es);
      forall i :: 0 <= i < |aggs| ==> aggs[i].value == KeyTotal(es, aggs[i].key)
  {
    if es != [] {
      var init := es[..|es| - 1];
      var e := es[|es| - 1];
      var prev := Fold(init);
      FoldTotals(init);
      FoldDistinct(init);
      var i := IndexOf(AggKeys(prev), e.key);
      var aggs := Fold(es);
      assert aggs == AddEntry(prev, e);
      assert forall k :: KeyTotal(es, k) == KeyTotal(init, k) + (if e.key == k then e.value else 0.0);
      if i >= 0 {
        assert prev[i].key == e.key by { assert AggKeys(prev)[i] == e.key; }
        forall j | 0 <= j < |aggs|
          ensures aggs[j].value == KeyTotal(es, aggs[j].key)
        {
          if j != i {
            assert |aggs| == |prev| && aggs[j] == prev[j];
            if j < i {
              assert prev[j].key != prev[i].key;
            } else {
              assert prev[i].key != prev[j].key;
            }
          }
        }
      } else {
        FoldKeys(init);
        FirstSeenMembers(AggKeys(init));
        KeyTotalAbsent(init, e.key);
        forall j | 0 <= j < |aggs|
          ensures aggs[j].value == KeyTotal(es, aggs[j].key)
        {
          if j < |prev| {
            assert aggs[j] == prev[j];
            assert AggKeys(prev)[j] == prev[j].key;
          }
        }
      }
    }
  }

  /** The entry's unit, flag and item are those of `f`. */
  predicate CopiedFrom(a: Agg, f: Option<Agg>) {
    f.Some? && a.unit == f.value.unit && a.flag == f.value.flag && a.item == f.value.item
  }

  /** Each map entry's unit, flag and item are those of the first entry
      with its key. */
  lemma {:induction false} FoldFirst(es: seq<Agg>)
    ensures forall i :: 0 <= i < |Fold(es)| ==> CopiedFrom(Fold(es)[i], FirstWith(es, Fold(es)[i].key))
  {
    if es != [] {
      var init := es[..|es| - 1];
      var e := es[|es| - 1];
      var prev := Fold(init);
      FoldFirst(init);
      var i := IndexOf(AggKeys(prev), e.key);
      var aggs := Fold(es);
      assert aggs == AddEntry(prev, e);
      FirstWithIsFirst(init, e.key);
      if i >= 0 {
        forall j | 0 <= j < |aggs|
          ensures CopiedFrom(aggs[j], FirstWith(es, aggs[j].key))
        {
          assert |aggs| == |prev|;
          var f := FirstWith(init, prev[j].key);
          assert CopiedFrom(Fold(init)[j], f);
          assert FirstWith(es, aggs[j].key) == f;
        }
      } else {
        FoldKeys(init);
        FirstSeenMembers(AggKeys(init));
        assert e.key !in AggKeys(init);
        assert FirstWith(es, e.key) == Some(e);
        forall j | 0 <= j < |aggs|
          ensures CopiedFrom(aggs[j], FirstWith(es, aggs[j].key))
        {
          if j < |prev| {
            assert aggs[j] == prev[j];
            assert CopiedFrom(prev[j], FirstWith(init, prev[j].key));
          } else {
            assert aggs[j] == e;
          }
        }
      }
    }
  }

  // ---------------------------------------------------------------------
  // Ranking

  /** The comparator `b.value - a.value`: larger totals first. */
  predicate RankLe(a: Agg, b: Agg) {
    b.value <= a.value
  }

  lemma RankLeTotal()
    ensures TotalPreorder(RankLe)
  {
  }

  /** The row for the entry at position `rank - 1` of the sorted map. */
  function RowOf(a: Agg, rank: int, commodity: bool, selectedName: string, year: string): RankingRow {
    RankingRow(rank, if commodity then selectedName else a.key, if commodity then a.key else selectedName,
               year, a.value, a.unit, a.flag)
  }

  /** The row's grouping key: its item in commodity mode, else its county. */
  function RowKey(row: RankingRow, commodity: bool): string {
    if commodity then row.item else row.county
  }

  /** `rankings` over the records' entries: no records give no rows;
      otherwise the map sorted by descending total, numbered from 1.
      `selectedName` is the selected item's name, or "" when there is none;
      `year` is the selected year as text. */
  function Ranked(es: seq<Agg>, commodity: bool, selectedName: string, year: string): seq<RankingRow> {
    if es == [] then [] else Number(SortBy(Fold(es), RankLe), commodity, selectedName, year)
  }

  /** The rows for the sorted entries, ranked 1, 2, ... in order. */
  function Number(sorted: seq<Agg>, commodity: bool, selectedName: string, year: string): (rows: seq<RankingRow>)
    ensures |rows| == |sorted|
    ensures forall i :: 0 <= i < |rows| ==> rows[i] == RowOf(sorted[i], i + 1, commodity, selectedName, year)
  {
    seq(|sorted|, i requires 0 <= i < |sorted| => RowOf(sorted[i], i + 1, commodity, selectedName, year))
  }

  lemma NumberStep(sorted: seq<Agg>, i: nat, commodity: bool, selectedName: string, year: string)
    requires i < |sorted|
    ensures Number(sorted[..i + 1], commodity, selectedName, year)
         == Number(sorted[..i], commodity, selectedName, year) + [RowOf(sorted[i], i + 1, commodity, selectedName, year)]
  {
  }

  /** `rankings` computed as the component does it: the loop, the sort of
      the map's entries, the numbering. */
  method ComputeRankings(rs: seq<KilimoDataRecord>, commodity: bool, selectedName: string, year: int)
    returns (rows: seq<RankingRow>)
    ensures rows == Ranked(Entries(rs, commodity), commodity, selectedName, IntToString(year))
  {
    var yearText := IntToString(year);
    if |rs| == 0 {
      return [];
    }
    var aggs := AggregateRecords(rs, commodity);
    var sorted := SortBy(aggs, RankLe);
    rows := [];
    for i := 0 to |sorted|
      invariant rows == Number(sorted[..i], commodity, selectedName, yearText)
    {
      NumberStep(sorted, i, commodity, selectedName, yearText);
      rows := rows + [RowOf(sorted[i], i + 1, commodity, selectedName, yearText)];
    }
    assert sorted[..|sorted|] == sorted;
    ghost var es := Entries(rs, commodity);
    assert es != [] && aggs == Fold(es);
  }

  /** Ranks run 1..n, totals do not increase down the list, and there is
      one row per distinct key. */
  lemma RankedOrder(es: seq<Agg>, commodity: bool, selectedName: string, year: string)
    ensures var rows := Ranked(es, commodity, selectedName, year);
      && |rows| == |FirstSeen(AggKeys(es))|
      && (forall i :: 0 <= i < |rows| ==> rows[i].rank == i + 1)
      && (forall i, j :: 0 <= i < j < |rows| ==> rows[i].value >= rows[j].value)
  {
    FoldKeys(es);
    if es != [] {
      RankLeTotal();
      SortBySorted(Fold(es), RankLe);
    }
  }

  /** A sequence without repeated elements holds each once. */
  lemma {:induction false} DistinctOnce<T>(s: seq<T>, x: T)
    requires forall i, j :: 0 <= i < j < |s| ==> s[i] != s[j]
    ensures multiset(s)[x] <= 1
  {
    if s != [] {
      DistinctOnce(s[1..], x);
      assert s == [s[0]] + s[1..];
      assert s[0] == x ==> x !in s[1..];
    }
  }

  /** An element at two positions is held at least twice. */
  lemma Twice<T>(s: seq<T>, i: nat, j: nat)
    requires i < j < |s|
    ensures s[i] == s[j] ==> multiset(s)[s[i]] >= 2
  {
    assert s == s[..j] + s[j..];
    assert s[i] in s[..j];
    assert s[j..][0] == s[j];
  }

  /** The sorted entries have distinct keys too. */
  lemma SortedDistinct(aggs: seq<Agg>)
    requires forall i, j :: 0 <= i < j < |aggs| ==> aggs[i].key != aggs[j].key
    ensures var sorted := SortBy(aggs, RankLe);
      forall i, j :: 0 <= i < j < |sorted| ==> sorted[i].key != sorted[j].key
  {
    var sorted := SortBy(aggs, RankLe);
    forall i, j | 0 <= i < j < |sorted|
      ensures sorted[i].key != sorted[j].key
    {
      assert sorted[i] in multiset(aggs) && sorted[j] in multiset(aggs);
      var a :| 0 <= a < |aggs| && aggs[a] == sorted[i];
      var b :| 0 <= b < |aggs| && aggs[b] == sorted[j];
      assert aggs[a].key == aggs[b].key ==> a == b;
      Twice(sorted, i, j);
      DistinctOnce(aggs, sorted[i]);
    }
  }

  /** The rows' keys are the sorted map's keys, position by position. */
  lemma RankedKeys(es: seq<Agg>, commodity: bool, selectedName: string, year: string)
    requires es != []
    ensures var rows := Ranked(es, commodity, selectedName, year);
      var sorted := SortBy(Fold(es), RankLe);
      && |rows| == |sorted|
      && forall i :: 0 <= i < |rows| ==>
           && RowKey(rows[i], commodity) == sorted[i].key && rows[i].value == sorted[i].value
           && rows[i].unit == sorted[i].unit && rows[i].flag == sorted[i].flag
  {
  }

  /** No key has two rows. */
  lemma RankedDistinct(es: seq<Agg>, commodity: bool, selectedName: string, year: string)
    ensures var rows := Ranked(es, commodity, selectedName, year);
      forall i, j :: 0 <= i < j < |rows| ==> RowKey(rows[i], commodity) != RowKey(rows[j], commodity)
  {
    if es != [] {
      RankedKeys(es, commodity, selectedName, year);
      FoldDistinct(es);
      SortedDistinct(Fold(es));
    }
  }

  /** Every row is a key of the entries, with that key's total and the
      unit and flag of the first entry carrying it. */
  lemma RankedValues(es: seq<Agg>, commodity: bool, selectedName: string, year: string)
    ensures var rows := Ranked(es, commodity, selectedName, year);
      forall i :: 0 <= i < |rows| ==>
        var key := RowKey(rows[i], commodity);
        var first := IndexOf(AggKeys(es), key);
        && key in AggKeys(es)
        && rows[i].value == KeyTotal(es, key)
        && first >= 0 && rows[i].unit == es[first].unit && rows[i].flag == es[first].flag
  {
    var rows := Ranked(es, commodity, selectedName, year);
    if es != [] {
      var aggs := Fold(es);
      var sorted := SortBy(aggs, RankLe);
      RankedKeys(es, commodity, selectedName, year);
      FoldKeys(es);
      FirstSeenMembers(AggKeys(es));
      FoldTotals(es);
      FoldFirst(es);
      forall i | 0 <= i < |rows|
        ensures var key := RowKey(rows[i], commodity);
          var first := IndexOf(AggKeys(es), key);
          && key in AggKeys(es)
          && rows[i].value == KeyTotal(es, key)
          && first >= 0 && rows[i].unit == es[first].unit && rows[i].flag == es[first].flag
      {
        assert sorted[i] in multiset(aggs);
        var a :| 0 <= a < |aggs| && aggs[a] == sorted[i];
        assert AggKeys(aggs)[a] == sorted[i].key;
        FirstWithIsFirst(es, sorted[i].key);
      }
    }
  }

  /** Every key of the entries has a row. */
  lemma RankedCovers(es: seq<Agg>, commodity: bool, selectedName: string, year: string)
    ensures var rows := Ranked(es, commodity, selectedName, year);
      forall key :: key in AggKeys(es) ==> exists i :: 0 <= i < |rows| && RowKey(rows[i], commodity) == key
  {
    var rows := Ranked(es, commodity, selectedName, year);
    if es != [] {
      var aggs := Fold(es);
      var sorted := SortBy(aggs, RankLe);
      RankedKeys(es, commodity, selectedName, year);
      FoldKeys(es);
      FirstSeenMembers(AggKeys(es));
      forall key | key in AggKeys(es)
        ensures exists i :: 0 <= i < |rows| && RowKey(rows[i], commodity) == key
      {
        assert key in AggKeys(aggs);
        var i := SortedHasKey(aggs, key);
        assert RowKey(rows[i], commodity) == key;
      }
    }
  }

  /** Sorting keeps every key: the position of `key` after the sort. */
  lemma SortedHasKey(aggs: seq<Agg>, key: string) returns (i: nat)
    requires key in AggKeys(aggs)
    ensures i < |SortBy(aggs, RankLe)| && SortBy(aggs, RankLe)[i].key == key
  {
    var sorted := SortBy(aggs, RankLe);
    var a := IndexOf(AggKeys(aggs), key);
    assert aggs[a] in multiset(sorted);
    i :| 0 <= i < |sorted| && sorted[i] == aggs[a];
  }

  /** The same for the page's records: each row's total is the sum of
      parseFloat(value) || 0 over its key's records, and its unit and flag
      are those of the first record with its key. */
  lemma RankedRecords(rs: seq<KilimoDataRecord>, commodity: bool, selectedName: string, year: string)
    ensures var rows := Ranked(Entries(rs, commodity), commodity, selectedName, year);
      && (forall i :: 0 <= i < |rows| ==>
            var key := RowKey(rows[i], commodity);
            var first := IndexOf(RecordKeys(rs, commodity), key);
            && key in RecordKeys(rs, commodity)
            && rows[i].value == RecordTotal(rs, commodity, key)
            && first >= 0 && rows[i].unit == rs[first].unit && rows[i].flag == rs[first].flag)
      && (forall key :: key in RecordKeys(rs, commodity) ==>
            exists i :: 0 <= i < |rows| && RowKey(rows[i], commodity) == key)
  {
    var es := Entries(rs, commodity);
    var rows := Ranked(es, commodity, selectedName, year);
    RankedValues(es, commodity, selectedName, year);
    RankedCovers(es, commodity, selectedName, year);
    EntriesKeys(rs, commodity);
    forall i | 0 <= i < |rows|
      ensures var key := RowKey(rows[i], commodity);
        var first := IndexOf(RecordKeys(rs, commodity), key);
        && rows[i].value == RecordTotal(rs, commodity, key)
        && first >= 0 && rows[i].unit == rs[first].unit && rows[i].flag == rs[first].flag
    {
      var key := RowKey(rows[i], commodity);
      EntriesTotal(rs, commodity, key);
      var first := IndexOf(RecordKeys(rs, commodity), key);
      assert es[first] == EntryOf(rs[first], commodity);
    }
  }

  /** Equal totals keep the order in which their keys were first seen:
      for every entry `y`, the entries tied with it come out of the sort
      in map order. */
  lemma RankedTiesKeepOrder(es: seq<Agg>, y: Agg)
    ensures var aggs := Fold(es);
      Equivs(SortBy(aggs, RankLe), y, RankLe) == Equivs(aggs, y, RankLe)
  {
    RankLeTotal();
    SortByStable(Fold(es), y, RankLe);
  }

  /** `rankings.slice(0, topN)`. */
  function Top(rows: seq<RankingRow>, topN: nat): (r: seq<RankingRow>)
    ensures |r| == Min(topN, |rows|)
    ensures r == rows[..|r|]
  {
    rows[..Min(topN, |rows|)]
  }

  /** The top rows are the largest: none left out has a larger total. */
  lemma TopIsLargest(es: seq<Agg>, commodity: bool, selectedName: string, year: string, topN: nat)
    ensures var rows := Ranked(es, commodity, selectedName, year);
      var top := Top(rows, topN);
      forall i, j :: 0 <= i < |top| <= j < |rows| ==> top[i].value >= rows[j].value
  {
    RankedOrder(es, commodity, selectedName, year);
  }

  // ---------------------------------------------------------------------
  // The table: search and column sort

  /** The search test: county or item contains the query, ignoring case. */
  predicate RowMatches(r: RankingRow, query: string) {
    ContainsIgnoreCase(r.county, query) || ContainsIgnoreCase(r.item, query)
  }

  function TableFilter(rows: seq<RankingRow>, query: string): seq<RankingRow> {
    Filter(rows, (r: RankingRow) => RowMatches(r, query))
  }

  /** The search keeps exactly the matching rows, and an empty query keeps
      them all. */
  lemma TableFilterExact(rows: seq<RankingRow>, query: string, row: RankingRow)
    ensures row in TableFilter(rows, query) <==> row in rows && RowMatches(row, query)
    ensures query == "" ==> TableFilter(rows, query) == rows
  {
    var r := TableFilter(rows, query);
    if row in r {
      var k :| 0 <= k < |r| && r[k] == row;
    }
    if row in rows && RowMatches(row, query) {
      var k :| 0 <= k < |rows| && rows[k] == row;
    }
    if query == "" {
      forall k | 0 <= k < |rows|
        ensures RowMatches(rows[k], query)
      {
        ContainsEmpty(Lower(rows[k].county));
      }
      FilterAll(rows, (r: RankingRow) => RowMatches(r, query));
    }
  }

  datatype SortKey = ByRank | ByCounty | ByValue | ByYear
  datatype SortDir = Asc | Desc

  /** The label the county column sorts by. */
  function Label(r: RankingRow, commodity: bool): string {
    if commodity then r.item else r.county
  }

  /** The column comparator is not positive. */
  predicate AscLe(key: SortKey, commodity: bool, a: RankingRow, b: RankingRow) {
    match key
    case ByRank => a.rank <= b.rank
    case ByCounty => StrLe(Label(a, commodity), Label(b, commodity))
    case ByValue => a.value <= b.value
    case ByYear => StrLe(a.year, b.year)
  }

  /** The comparator with the direction applied: descending negates it,
      which is the ascending test with the operands swapped. */
  function TableLe(key: SortKey, dir: SortDir, commodity: bool): (RankingRow, RankingRow) -> bool {
    (a: RankingRow, b: RankingRow) => if dir == Asc then AscLe(key, commodity, a, b) else AscLe(key, commodity, b, a)
  }

  lemma AscLeTotal(key: SortKey, commodity: bool, a: RankingRow, b: RankingRow)
    ensures AscLe(key, commodity, a, b) || AscLe(key, commodity, b, a)
  {
    if key == ByCounty {
      StrLeTotal(Label(a, commodity), Label(b, commodity));
    } else if key == ByYear {
      StrLeTotal(a.year, b.year);
    }
  }

  lemma AscLeTrans(key: SortKey, commodity: bool, a: RankingRow, b: RankingRow, c: RankingRow)
    requires AscLe(key, commodity, a, b) && AscLe(key, commodity, b, c)
    ensures AscLe(key, commodity, a, c)
  {
    if key == ByCounty {
      StrLeTrans(Label(a, commodity), Label(b, commodity), Label(c, commodity));
    } else if key == ByYear {
      StrLeTrans(a.year, b.year, c.year);
    }
  }

  lemma TableLeTotal(key: SortKey, dir: SortDir, commodity: bool)
    ensures TotalPreorder(TableLe(key, dir, commodity))
  {
    var le := TableLe(key, dir, commodity);
    forall a, b
      ensures le(a, b) || le(b, a)
    {
      AscLeTotal(key, commodity, a, b);
    }
    forall a, b, c | le(a, b) && le(b, c)
      ensures le(a, c)
    {
      if dir == Asc {
        AscLeTrans(key, commodity, a, b, c);
      } else {
        AscLeTrans(key, commodity, c, b, a);
      }
    }
  }

  /** `sortedFiltered`: the top rows that match the search, sorted by the
      chosen column and direction. */
  function SortedFiltered(top: seq<RankingRow>, query: string, key: SortKey, dir: SortDir, commodity: bool)
    : seq<RankingRow>
  {
    SortBy(TableFilter(top, query), TableLe(key, dir, commodity))
  }

  /** The table shows a permutation of the matching rows, in column
      order. */
  lemma SortedFilteredSpec(top: seq<RankingRow>, query: string, key: SortKey, dir: SortDir, commodity: bool)
    ensures var r := SortedFiltered(top, query, key, dir, commodity);
      multiset(r) == multiset(TableFilter(top, query)) && Sorted(r, TableLe(key, dir, commodity))
  {
    TableLeTotal(key, dir, commodity);
    SortBySorted(TableFilter(top, query), TableLe(key, dir, commodity));
  }

  /** With the initial sort (rank, ascending) the table keeps the ranking
      order. */
  lemma DefaultViewKeepsRanking(es: seq<Agg>, commodity: bool, selectedName: string, year: string,
                                topN: nat, query: string)
    ensures var top := Top(Ranked(es, commodity, selectedName, year), topN);
      SortedFiltered(top, query, ByRank, Asc, commodity) == TableFilter(top, query)
  {
    var top := Top(Ranked(es, commodity, selectedName, year), topN);
    var le := TableLe(ByRank, Asc, commodity);
    RankedOrder(es, commodity, selectedName, year);
    assert Sorted(top, le);
    FilterSorted(top, (r: RankingRow) => RowMatches(r, query), le);
    SortBySortedInput(TableFilter(top, query), le);
  }

  // ---------------------------------------------------------------------
  // Page state

  /** handleSort's transition: the same column flips the direction, a new
      column starts ascending. */
  function NextSort(cur: SortKey, dir: SortDir, key: SortKey): (r: (SortKey, SortDir))
    ensures r.0 == key
    ensures cur == key ==> r.1 != dir
    ensures cur != key ==> r.1 == Asc
  {
    if cur == key then (cur, if dir == Asc then Desc else Asc) else (key, Asc)
  }

  /** Two clicks on a column: back to the start for the current column,
      descending for a new one. */
  lemma NextSortTwice(cur: SortKey, dir: SortDir, key: SortKey)
    ensures var once := NextSort(cur, dir, key);
      NextSort(once.0, once.1, key) == (key, if cur == key then dir else Desc)
  {
  }

  class RankingsState {
    var sortKey: SortKey
    var sortDir: SortDir
    var expanded: set<string>

    constructor ()
      ensures sortKey == ByRank && sortDir == Asc && expanded == {"crops", "livestock"}
    {
      sortKey := ByRank;
      sortDir := Asc;
      expanded := {"crops", "livestock"};
    }

    method HandleSort(key: SortKey)
      modifies this
      ensures (sortKey, sortDir) == NextSort(old(sortKey), old(sortDir), key)
      ensures expanded == old(expanded)
    {
      if sortKey == key {
        sortDir := if sortDir == Asc then Desc else Asc;
      } else {
        sortKey := key;
        sortDir := Asc;
      }
    }

    /** toggleCategory: copy the set, add or delete the id, store it. */
    method ToggleCategory(id: string)
      modifies this
      ensures expanded == DefinitionsStandards.Toggle(old(expanded), id)
      ensures sortKey == old(sortKey) && sortDir == old(sortDir)
    {
      var next := expanded;
      if id in next {
        next := next - {id};
      } else {
        next := next + {id};
      }
      expanded := next;
    }
  }

  // ---------------------------------------------------------------------
  // Shares

  /** `rows.reduce((s, r) => s + r.value, 0)`. */
  function Total(rows: seq<RankingRow>): real {
    if rows == [] then 0.0 else Total(rows[..|rows| - 1]) + rows[|rows| - 1].value
  }

  /** A row's share of the total, in percent; 0 when the total is not
      positive. */
  function Share(value: real, total: real): real {
    if total > 0.0 then value / total * 100.0 else 0.0
  }

  function Shares(rows: seq<RankingRow>): (r: seq<real>)
    ensures |r| == |rows|
  {
    seq(|rows|, i requires 0 <= i < |rows| => Share(rows[i].value, Total(rows)))
  }

  /** The shares of the first `k` rows add up to their part of the total. */
  lemma {:induction false} SharesPrefix(rows: seq<RankingRow>, t: real, k: nat)
    requires t > 0.0 && k <= |rows|
    ensures Sum(seq(k, i requires 0 <= i < k => Share(rows[i].value, t))) == Total(rows[..k]) / t * 100.0
  {
    if k > 0 {
      SharesPrefix(rows, t, k - 1);
      var s := seq(k, i requires 0 <= i < k => Share(rows[i].value, t));
      assert s[..k - 1] == seq(k - 1, i requires 0 <= i < k - 1 => Share(rows[i].value, t));
      assert rows[..k][..k - 1] == rows[..k - 1];
      var a := Total(rows[..k - 1]);
      var v := rows[k - 1].value;
      assert (a + v) / t * 100.0 == a / t * 100.0 + v / t * 100.0;
    }
  }

  /** With a positive total the shares add up to 100; otherwise every
      share is 0. */
  lemma SharesSum(rows: seq<RankingRow>)
    ensures Total(rows) > 0.0 ==> Sum(Shares(rows)) == 100.0
    ensures Total(rows) <= 0.0 ==> forall i :: 0 <= i < |rows| ==> Shares(rows)[i] == 0.0
  {
    var t := Total(rows);
    if t > 0.0 {
      SharesPrefix(rows, t, |rows|);
      assert rows[..|rows|] == rows;
      assert Shares(rows) == seq(|rows|, i requires 0 <= i < |rows| => Share(rows[i].value, t));
    }
  }
}
