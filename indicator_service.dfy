/** The indicator summaries of src/services/indicatorService.ts: a value
    table with one series per queried element, filled from fact records
    cell by cell (the last record for a cell wins), and the per-year totals,
    trailing window, two-element comparison and latest-year distribution
    read off it. The API calls are functions from their argument to an
    outcome; any failed call yields the empty data. */
module IndicatorService {
  import opened Base
  import opened ApiService

  const StartYear := 1990

  datatype ElementInfo = ElementInfo(id: int, name: string, code: string)
  datatype ItemInfo = ItemInfo(id: int, name: string)

  /** `valuesByElement`: one series per element id. The source's object has
      integer-like keys, which JavaScript enumerates in ascending numeric
      order; the model keeps the ids in the order they were first set,
      and nothing read from the table depends on that order (lookups go
      by key, and column sums add reals). */
  type Table = seq<(int, seq<real>)>

  datatype IndicatorData = IndicatorData(years: seq<int>, values: Table,
                                         elements: seq<ElementInfo>, items: seq<ItemInfo>)

  /** getEmptyIndicatorData. */
  const Empty := IndicatorData([], [], [], [])

  /** The fact-table query: `county` is None when parseInt of the county id
      gives NaN. */
  datatype IndicatorQuery = IndicatorQuery(county: Option<int>, elements: seq<int>, years: seq<int>,
                                           subdomain: int)

  /** 1990 .. currentYear; empty when the current year is before 1990
      (Array.from clamps a negative length to 0). */
  function Years(currentYear: int): (r: seq<int>)
    ensures |r| == Max(currentYear - StartYear + 1, 0)
  {
    var n := Max(currentYear - StartYear + 1, 0);
    seq(n, i requires 0 <= i < n => StartYear + i)
  }

  // ---------------------------------------------------------------------
  // The value table

  /** The series of `id`'s entry, as `valuesByElement[id]`. */
  function KeyIndex(t: Table, id: int): (r: int)
    ensures -1 <= r < |t|
    ensures r >= 0 ==> t[r].0 == id
    ensures r == -1 ==> forall k :: 0 <= k < |t| ==> t[k].0 != id
  {
    if t == [] then -1
    else
      var r := KeyIndex(t[..|t| - 1], id);
      if r >= 0 then r else if t[|t| - 1].0 == id then |t| - 1 else -1
  }

  /** The entry a record's `element` text names as a property key: the id
      whose decimal text it is. */
  function EntryIndex(t: Table, key: string): (r: int)
    ensures -1 <= r < |t|
    ensures r >= 0 ==> IntToString(t[r].0) == key
    ensures r == -1 ==> forall k :: 0 <= k < |t| ==> IntToString(t[k].0) != key
  {
    var texts := IdTexts(t);
    var r := IndexOf(texts, key);
    assert r == -1 ==> forall k :: 0 <= k < |t| ==> texts[k] != key;
    r
  }

  /** The ids' decimal texts, in table order. */
  function IdTexts(t: Table): (r: seq<string>)
    ensures |r| == |t| && forall k :: 0 <= k < |t| ==> r[k] == IntToString(t[k].0)
  {
    seq(|t|, k requires 0 <= k < |t| => IntToString(t[k].0))
  }

  /** `valuesByElement[id] = v`: an existing key keeps its place. */
  function Put(t: Table, id: int, v: seq<real>): Table {
    var k := KeyIndex(t, id);
    if k >= 0 then t[k := (id, v)] else t + [(id, v)]
  }

  function Zeros(n: nat): (r: seq<real>)
    ensures |r| == n && forall i :: 0 <= i < n ==> r[i] == 0.0
  {
    seq(n, _ => 0.0)
  }

  /** The zero-filled table: `elementIds.forEach(id => valuesByElement[id] = ...)`. */
  function InitTable(ids: seq<int>, n: nat): Table {
    if ids == [] then [] else Put(InitTable(ids[..|ids| - 1], n), ids[|ids| - 1], Zeros(n))
  }

  /** `years.indexOf(parseInt(record.refyear))`; NaN is found nowhere. */
  function YearIndex(years: seq<int>, rec: KilimoDataRecord): (r: int)
    ensures -1 <= r < |years|
  {
    match ParseInt(rec.refyear)
    case None => -1
    case Some(y) => IndexOf(years, y)
  }

  predicate Shaped(t: Table, n: nat) {
    forall k :: 0 <= k < |t| ==> |t[k].1| == n
  }

  predicate DistinctIds(t: Table) {
    forall i, j :: 0 <= i < j < |t| ==> t[i].0 != t[j].0
  }

  predicate SameKeys(a: Table, b: Table) {
    |a| == |b| && forall k :: 0 <= k < |a| ==> a[k].0 == b[k].0
  }

  /** One record of the forEach: it writes its value to the cell of its
      element and year when both exist. */
  function Apply(t: Table, years: seq<int>, rec: KilimoDataRecord): (r: Table)
    requires Shaped(t, |years|)
    ensures Shaped(r, |years|) && SameKeys(r, t)
  {
    var yi := YearIndex(years, rec);
    var ei := EntryIndex(t, rec.element);
    if yi >= 0 && ei >= 0 then SetCell(t, |years|, ei, yi, NumOrZero(rec.value)) else t
  }

  /** `valuesByElement[id][yearIndex] = v`. */
  function SetCell(t: Table, n: nat, ei: nat, yi: nat, v: real): (r: Table)
    requires Shaped(t, n) && ei < |t| && yi < n
    ensures Shaped(r, n) && SameKeys(r, t)
  {
    t[ei := (t[ei].0, t[ei].1[yi := v])]
  }

  /** The table after the records, in order. */
  function Fill(t: Table, years: seq<int>, records: seq<KilimoDataRecord>): (r: Table)
    requires Shaped(t, |years|)
    ensures Shaped(r, |years|) && SameKeys(r, t)
  {
    if records == [] then t
    else Apply(Fill(t, years, records[..|records| - 1]), years, records[|records| - 1])
  }

  function ValuesTable(ids: seq<int>, years: seq<int>, records: seq<KilimoDataRecord>): Table {
    InitShape(ids, |years|);
    ZeroedShaped(InitTable(ids, |years|), |years|);
    Fill(InitTable(ids, |years|), years, records)
  }

  /** Every series is all zeros. */
  predicate Zeroed(t: Table, n: nat) {
    forall k :: 0 <= k < |t| ==> t[k].1 == Zeros(n)
  }

  lemma PutShape(t: Table, id: int, n: nat)
    requires Zeroed(t, n) && DistinctIds(t)
    ensures Zeroed(Put(t, id, Zeros(n)), n) && DistinctIds(Put(t, id, Zeros(n)))
    ensures forall k :: 0 <= k < |Put(t, id, Zeros(n))| ==> Put(t, id, Zeros(n))[k].0 == id || Put(t, id, Zeros(n))[k] in t
  {
    var r := Put(t, id, Zeros(n));
    var m := KeyIndex(t, id);
    if m >= 0 {
      assert r[m].0 == id;
      assert SameKeys(r, t);
    } else {
      assert r[|t|].0 == id;
    }
  }

  /** The zero-filled table holds one all-zero series per distinct id. */
  lemma InitShape(ids: seq<int>, n: nat)
    ensures Zeroed(InitTable(ids, n), n) && DistinctIds(InitTable(ids, n))
    ensures forall k :: 0 <= k < |InitTable(ids, n)| ==> InitTable(ids, n)[k].0 in ids
    ensures forall j :: 0 <= j < |ids| ==> KeyIndex(InitTable(ids, n), ids[j]) >= 0
  {
    InitZeroed(ids, n);
    InitIds(ids, n);
    InitCovers(ids, n);
  }

  lemma {:induction false} InitZeroed(ids: seq<int>, n: nat)
    ensures Zeroed(InitTable(ids, n), n) && DistinctIds(InitTable(ids, n))
  {
    if ids != [] {
      InitZeroed(ids[..|ids| - 1], n);
      PutShape(InitTable(ids[..|ids| - 1], n), ids[|ids| - 1], n);
    }
  }

  lemma {:induction false} InitIds(ids: seq<int>, n: nat)
    ensures forall k :: 0 <= k < |InitTable(ids, n)| ==> InitTable(ids, n)[k].0 in ids
  {
    if ids != [] {
      var init := ids[..|ids| - 1];
      var id := ids[|ids| - 1];
      InitIds(init, n);
      InitZeroed(init, n);
      var t := InitTable(init, n);
      var r := InitTable(ids, n);
      PutShape(t, id, n);
      forall k | 0 <= k < |r|
        ensures r[k].0 in ids
      {
        if r[k].0 != id {
          var m :| 0 <= m < |t| && t[m] == r[k];
          var i :| 0 <= i < |init| && init[i] == t[m].0;
          assert ids[i] == init[i];
        }
      }
    }
  }

  lemma {:induction false} InitCovers(ids: seq<int>, n: nat)
    ensures forall j :: 0 <= j < |ids| ==> KeyIndex(InitTable(ids, n), ids[j]) >= 0
  {
    if ids != [] {
      var init := ids[..|ids| - 1];
      var t := InitTable(init, n);
      InitCovers(init, n);
      PutCovers(t, ids[|ids| - 1], Zeros(n));
      forall j | 0 <= j < |ids| - 1
        ensures KeyIndex(t, ids[j]) >= 0
      {
        assert ids[j] == init[j];
      }
    }
  }

  /** A put key is present afterwards, and so is every key present before. */
  lemma PutCovers(t: Table, id: int, v: seq<real>)
    ensures KeyIndex(Put(t, id, v), id) >= 0
    ensures forall x :: KeyIndex(t, x) >= 0 ==> KeyIndex(Put(t, id, v), x) >= 0
  {
    var r := Put(t, id, v);
    if KeyIndex(t, id) < 0 {
      assert r[|t|].0 == id;
    }
    forall x | KeyIndex(t, x) >= 0
      ensures KeyIndex(r, x) >= 0
    {
      assert r[KeyIndex(t, x)].0 == x;
    }
  }

  lemma ZeroedShaped(t: Table, n: nat)
    requires Zeroed(t, n)
    ensures Shaped(t, n)
    ensures forall k, i :: 0 <= k < |t| && 0 <= i < n ==> t[k].1[i] == 0.0
  {
    forall k | 0 <= k < |t|
      ensures |t[k].1| == n
    {
      assert t[k].1 == Zeros(n);
    }
  }

  lemma IntToStringInjective(a: int, b: int)
    requires IntToString(a) == IntToString(b)
    ensures a == b
  {
    ParseIntToString(a);
    ParseIntToString(b);
  }

  /** A record writes cell (`id`, `i`). */
  predicate Hits(rec: KilimoDataRecord, years: seq<int>, id: int, i: int) {
    rec.element == IntToString(id) && YearIndex(years, rec) == i
  }

  /** The value of the last record that writes cell (`id`, `i`), if any. */
  function LastValue(records: seq<KilimoDataRecord>, years: seq<int>, id: int, i: int): Option<real> {
    if records == [] then None
    else if Hits(records[|records| - 1], years, id, i) then Some(NumOrZero(records[|records| - 1].value))
    else LastValue(records[..|records| - 1], years, id, i)
  }

  lemma ApplyCell(t: Table, years: seq<int>, rec: KilimoDataRecord, k: nat, i: nat)
    requires Shaped(t, |years|) && DistinctIds(t)
    requires k < |t| && i < |years|
    ensures Apply(t, years, rec)[k].1[i] == if Hits(rec, years, t[k].0, i) then NumOrZero(rec.value) else t[k].1[i]
  {
    var ei := EntryIndex(t, rec.element);
    if ei >= 0 && rec.element == IntToString(t[k].0) {
      IntToStringInjective(t[ei].0, t[k].0);
      assert ei == k;
    }
  }

  /** Last write wins: each cell holds the value of the last record for
      its element and year, and keeps its initial value when none exists. */
  lemma {:induction false} FillCell(t: Table, years: seq<int>, records: seq<KilimoDataRecord>, k: nat, i: nat)
    requires Shaped(t, |years|) && DistinctIds(t)
    requires k < |t| && i < |years|
    ensures Fill(t, years, records)[k].1[i] ==
      match LastValue(records, years, t[k].0, i)
      case Some(v) => v
      case None => t[k].1[i]
  {
    if records != [] {
      var init := records[..|records| - 1];
      FillCell(t, years, init, k, i);
      var f := Fill(t, years, init);
      assert DistinctIds(f) by {
        assert SameKeys(f, t);
      }
      ApplyCell(f, years, records[|records| - 1], k, i);
    }
  }

  /** BuildValues: the zero-filled table, then the records' forEach. */
  method BuildValues(ids: seq<int>, years: seq<int>, records: seq<KilimoDataRecord>) returns (t: Table)
    ensures t == ValuesTable(ids, years, records)
  {
    t := ZeroTable(ids, |years|);
    InitShape(ids, |years|);
    ZeroedShaped(t, |years|);
    t := FillRecords(t, years, records);
  }

  /** `elementIds.forEach(id => valuesByElement[id] = new Array(n).fill(0))`. */
  method ZeroTable(ids: seq<int>, n: nat) returns (t: Table)
    ensures t == InitTable(ids, n)
  {
    t := [];
    for j := 0 to |ids|
      invariant t == InitTable(ids[..j], n)
    {
      assert ids[..j + 1][..j] == ids[..j];
      t := Put(t, ids[j], Zeros(n));
    }
    assert ids[..|ids|] == ids;
  }

  lemma FillStep(t0: Table, years: seq<int>, records: seq<KilimoDataRecord>, j: nat)
    requires Shaped(t0, |years|) && j < |records|
    ensures Fill(t0, years, records[..j + 1]) == Apply(Fill(t0, years, records[..j]), years, records[j])
  {
    assert records[..j + 1][..j] == records[..j];
  }

  /** `kilimoData.forEach(...)`: each record sets its cell. */
  method FillRecords(t0: Table, years: seq<int>, records: seq<KilimoDataRecord>) returns (t: Table)
    requires Shaped(t0, |years|)
    ensures t == Fill(t0, years, records)
  {
    t := t0;
    for j := 0 to |records|
      invariant Shaped(t, |years|)
      invariant t == Fill(t0, years, records[..j])
    {
      ghost var before := t;
      var rec := records[j];
      var yearIndex := YearIndex(years, rec);
      var e := EntryIndex(t, rec.element);
      if yearIndex >= 0 && e >= 0 {
        t := t[e := (t[e].0, t[e].1[yearIndex := NumOrZero(rec.value)])];
      }
      assert t == Apply(before, years, rec);
      FillStep(t0, years, records, j);
    }
    assert records[..|records|] == records;
  }

  /** The table of the queried ids: one series of one cell per year for
      every distinct id, and each cell the value of the last record for
      that element and year, 0 when there is none. */
  lemma ValuesTableSpec(ids: seq<int>, years: seq<int>, records: seq<KilimoDataRecord>)
    ensures var t := ValuesTable(ids, years, records);
      && Shaped(t, |years|) && DistinctIds(t)
      && (forall k :: 0 <= k < |t| ==> t[k].0 in ids)
      && (forall j :: 0 <= j < |ids| ==> KeyIndex(t, ids[j]) >= 0)
      && (forall k, i :: 0 <= k < |t| && 0 <= i < |years| ==>
            t[k].1[i] == match LastValue(records, years, t[k].0, i) case Some(v) => v case None => 0.0)
  {
    var t0 := InitTable(ids, |years|);
    InitShape(ids, |years|);
    ZeroedShaped(t0, |years|);
    var t := ValuesTable(ids, years, records);
    assert SameKeys(t, t0);
    forall j | 0 <= j < |ids|
      ensures KeyIndex(t, ids[j]) >= 0
    {
      var k := KeyIndex(t0, ids[j]);
      assert t[k].0 == ids[j];
    }
    forall k, i | 0 <= k < |t| && 0 <= i < |years|
      ensures t[k].1[i] == match LastValue(records, years, t[k].0, i) case Some(v) => v case None => 0.0
    {
      FillCell(t0, years, records, k, i);
    }
  }

  /** With the service's own year axis a record lands in the column of its
      parsed year when that year is between 1990 and the current year, and
      in no column otherwise. */
  lemma YearColumn(currentYear: int, rec: KilimoDataRecord, y: int)
    requires ParseInt(rec.refyear) == Some(y)
    ensures StartYear <= y <= currentYear ==> YearIndex(Years(currentYear), rec) == y - StartYear
    ensures !(StartYear <= y <= currentYear) ==> YearIndex(Years(currentYear), rec) == -1
  {
    var ys := Years(currentYear);
    if StartYear <= y <= currentYear {
      assert ys[y - StartYear] == y;
    } else {
      assert y !in ys;
    }
  }

  // ---------------------------------------------------------------------
  // getIndicatorDataForCountyAndDomain

  /** The indicator data: the first subdomain of the domain, its first three
      elements, their records for the county over 1990..currentYear, and the
      first five items of the subdomain. */
  function IndicatorDataOf(countyId: string, domainId: int, currentYear: int,
                           subdomainsOf: int -> Outcome<seq<SubDomain>>,
                           elementsOf: int -> Outcome<seq<Element>>,
                           kilimoData: IndicatorQuery -> Outcome<seq<KilimoDataRecord>>,
                           itemsOf: int -> Outcome<seq<Item>>): IndicatorData
  {
    var years := Years(currentYear);
    var subdomains := subdomainsOf(domainId);
    if !subdomains.Ok? || subdomains.value == [] then Empty
    else
      var subdomain := subdomains.value[0];
      var elements := elementsOf(subdomain.id);
      if !elements.Ok? || elements.value == [] then Empty
      else
        var top := elements.value[..Min(3, |elements.value|)];
        var ids := seq(|top|, k requires 0 <= k < |top| => top[k].id);
        var kilimo := kilimoData(IndicatorQuery(ParseInt(countyId), ids, years, subdomain.id));
        var items := itemsOf(subdomain.id);
        if !kilimo.Ok? || !items.Ok? then Empty
        else
          var first := items.value[..Min(5, |items.value|)];
          IndicatorData(years, ValuesTable(ids, years, kilimo.value),
                        seq(|top|, k requires 0 <= k < |top| => ElementInfo(top[k].id, top[k].name, top[k].code)),
                        seq(|first|, k requires 0 <= k < |first| => ItemInfo(first[k].id, first[k].name)))
  }

  method GetIndicatorData(countyId: string, domainId: int, currentYear: int,
                          subdomainsOf: int -> Outcome<seq<SubDomain>>,
                          elementsOf: int -> Outcome<seq<Element>>,
                          kilimoData: IndicatorQuery -> Outcome<seq<KilimoDataRecord>>,
                          itemsOf: int -> Outcome<seq<Item>>)
    returns (d: IndicatorData)
    ensures d == IndicatorDataOf(countyId, domainId, currentYear, subdomainsOf, elementsOf, kilimoData, itemsOf)
  {
    var years := Years(currentYear);
    var subdomains := subdomainsOf(domainId);
    if !subdomains.Ok? || subdomains.value == [] {
      return Empty;
    }
    var subdomain := subdomains.value[0];
    var elements := elementsOf(subdomain.id);
    if !elements.Ok? || elements.value == [] {
      return Empty;
    }
    var top := elements.value[..Min(3, |elements.value|)];
    var ids := seq(|top|, k requires 0 <= k < |top| => top[k].id);
    var kilimo := kilimoData(IndicatorQuery(ParseInt(countyId), ids, years, subdomain.id));
    if !kilimo.Ok? {
      return Empty;
    }
    var values := BuildValues(ids, years, kilimo.value);
    var items := itemsOf(subdomain.id);
    if !items.Ok? {
      return Empty;
    }
    var first := items.value[..Min(5, |items.value|)];
    d := IndicatorData(years, values,
                       seq(|top|, k requires 0 <= k < |top| => ElementInfo(top[k].id, top[k].name, top[k].code)),
                       seq(|first|, k requires 0 <= k < |first| => ItemInfo(first[k].id, first[k].name)));
  }

  /** Data as the service assembles it: the element list names the table's
      ids, and every series has one cell per year. */
  predicate WellFormed(d: IndicatorData) {
    && Shaped(d.values, |d.years|)
    && DistinctIds(d.values)
    && (forall k :: 0 <= k < |d.elements| ==> KeyIndex(d.values, d.elements[k].id) >= 0)
  }

  /** The assembled data is the empty data or well formed, queries at most
      three elements and keeps at most five items, and the query asks for
      the first subdomain's first elements over 1990..currentYear. */
  lemma IndicatorDataSpec(countyId: string, domainId: int, currentYear: int,
                          subdomainsOf: int -> Outcome<seq<SubDomain>>,
                          elementsOf: int -> Outcome<seq<Element>>,
                          kilimoData: IndicatorQuery -> Outcome<seq<KilimoDataRecord>>,
                          itemsOf: int -> Outcome<seq<Item>>)
    ensures var d := IndicatorDataOf(countyId, domainId, currentYear, subdomainsOf, elementsOf, kilimoData, itemsOf);
      && WellFormed(d)
      && |d.elements| <= 3 && |d.items| <= 5
      && (d != Empty ==> d.years == Years(currentYear) && d.elements != [])
  {
    var d := IndicatorDataOf(countyId, domainId, currentYear, subdomainsOf, elementsOf, kilimoData, itemsOf);
    if d != Empty {
      var subdomain := subdomainsOf(domainId).value[0];
      var elements := elementsOf(subdomain.id).value;
      var top := elements[..Min(3, |elements|)];
      var ids := seq(|top|, k requires 0 <= k < |top| => top[k].id);
      var years := Years(currentYear);
      var records := kilimoData(IndicatorQuery(ParseInt(countyId), ids, years, subdomain.id)).value;
      ValuesTableSpec(ids, years, records);
      assert d.values == ValuesTable(ids, years, records);
      forall k | 0 <= k < |d.elements|
        ensures KeyIndex(d.values, d.elements[k].id) >= 0
      {
        assert d.elements[k].id == ids[k];
      }
    }
  }

  /** No subdomain, or no element in the first one, gives the empty data. */
  lemma EmptyWithoutElements(countyId: string, domainId: int, currentYear: int,
                             subdomainsOf: int -> Outcome<seq<SubDomain>>,
                             elementsOf: int -> Outcome<seq<Element>>,
                             kilimoData: IndicatorQuery -> Outcome<seq<KilimoDataRecord>>,
                             itemsOf: int -> Outcome<seq<Item>>)
    requires subdomainsOf(domainId) == Ok([])
          || (subdomainsOf(domainId).Ok? && subdomainsOf(domainId).value != []
              && elementsOf(subdomainsOf(domainId).value[0].id) == Ok([]))
    ensures IndicatorDataOf(countyId, domainId, currentYear, subdomainsOf, elementsOf, kilimoData, itemsOf) == Empty
  {
  }

  // ---------------------------------------------------------------------
  // Summaries

  /** `elementValues[index] || 0`. */
  function At(xs: seq<real>, i: int): real {
    if 0 <= i < |xs| then xs[i] else 0.0
  }

  /** The reduce over Object.values at one index. */
  function ColumnSum(t: Table, i: int): real {
    if t == [] then 0.0 else ColumnSum(t[..|t| - 1], i) + At(t[|t| - 1].1, i)
  }

  datatype Series = Series(years: seq<int>, values: seq<real>)

  /** aggregateDataByYear. */
  function AggregateByYear(d: IndicatorData): (r: Series)
    ensures r.years == d.years && |r.values| == |d.years|
  {
    Series(d.years, seq(|d.years|, i requires 0 <= i < |d.years| => ColumnSum(d.values, i)))
  }

  /** The total of the last-written values of the entries at one year. */
  function LastTotal(t: Table, records: seq<KilimoDataRecord>, years: seq<int>, i: int): real {
    if t == [] then 0.0
    else
      LastTotal(t[..|t| - 1], records, years, i)
        + match LastValue(records, years, t[|t| - 1].0, i) case Some(v) => v case None => 0.0
  }

  lemma {:induction false} ColumnSumLast(t: Table, records: seq<KilimoDataRecord>, years: seq<int>, i: int)
    requires Shaped(t, |years|) && 0 <= i < |years|
    requires forall k :: 0 <= k < |t| ==>
      t[k].1[i] == match LastValue(records, years, t[k].0, i) case Some(v) => v case None => 0.0
    ensures ColumnSum(t, i) == LastTotal(t, records, years, i)
  {
    if t != [] {
      ColumnSumLast(t[..|t| - 1], records, years, i);
    }
  }

  /** The per-year totals of the service's data: at every year, the sum
      over the queried elements of the last value recorded for that
      element and year. */
  lemma AggregateTotals(ids: seq<int>, years: seq<int>, records: seq<KilimoDataRecord>,
                        elements: seq<ElementInfo>, items: seq<ItemInfo>, i: nat)
    requires i < |years|
    ensures AggregateByYear(IndicatorData(years, ValuesTable(ids, years, records), elements, items)).values[i]
         == LastTotal(ValuesTable(ids, years, records), records, years, i)
  {
    ValuesTableSpec(ids, years, records);
    ColumnSumLast(ValuesTable(ids, years, records), records, years, i);
  }

  /** getRecentYears: the years `slice(-count)` keeps, each with its total
      looked up by indexOf. */
  function RecentYears(d: IndicatorData, count: int): (r: Series)
    ensures |r.values| == |r.years|
  {
    var recent := d.years[SliceStart(|d.years|, -count)..];
    Series(recent, seq(|recent|, j requires 0 <= j < |recent| => ColumnSum(d.values, IndexOf(d.years, recent[j]))))
  }

  /** The window is the last min(count, n) years for a positive count, and
      all years for count 0, since slice(-0) is slice(0). */
  lemma RecentYearsWindow(d: IndicatorData, count: int)
    ensures count > 0 ==> RecentYears(d, count).years == d.years[|d.years| - Min(count, |d.years|)..]
    ensures count == 0 ==> RecentYears(d, count).years == d.years
  {
  }

  /** On a year axis without repeats the window's totals are the
      aggregateDataByYear totals of the same years. */
  lemma RecentMatchesAggregate(d: IndicatorData, count: int, j: nat)
    requires forall a, b :: 0 <= a < b < |d.years| ==> d.years[a] != d.years[b]
    requires j < |RecentYears(d, count).years|
    ensures RecentYears(d, count).values[j]
         == AggregateByYear(d).values[SliceStart(|d.years|, -count) + j]
  {
    var s := SliceStart(|d.years|, -count);
    var y := d.years[s + j];
    assert RecentYears(d, count).years[j] == y;
    var r := IndexOf(d.years, y);
    assert y in d.years;
    assert d.years[r] == y;
    assert r == s + j;
  }

  /** `data.values[id] || []`. */
  function SeriesOf(t: Table, id: int): seq<real> {
    var k := KeyIndex(t, id);
    if k >= 0 then t[k].1 else []
  }

  datatype Comparison = Comparison(years: seq<int>, element1: seq<real>, element2: seq<real>,
                                   element1Name: string, element2Name: string)

  /** getTwoElementComparison. */
  function TwoElementComparison(d: IndicatorData): (r: Comparison)
    ensures |d.elements| < 2 ==> r == Comparison([], [], [], "", "")
    ensures |d.elements| >= 2 ==>
      r.years == d.years && r.element1Name == d.elements[0].name && r.element2Name == d.elements[1].name
  {
    if |d.elements| < 2 then Comparison([], [], [], "", "")
    else Comparison(d.years, SeriesOf(d.values, d.elements[0].id), SeriesOf(d.values, d.elements[1].id),
                    d.elements[0].name, d.elements[1].name)
  }

  /** On well-formed data the two series are whole: one value per year. */
  lemma ComparisonSeriesFull(d: IndicatorData)
    requires WellFormed(d) && |d.elements| >= 2
    ensures |TwoElementComparison(d).element1| == |d.years| == |TwoElementComparison(d).element2|
  {
    assert KeyIndex(d.values, d.elements[0].id) >= 0;
    assert KeyIndex(d.values, d.elements[1].id) >= 0;
  }

  /** On the service's data the two series hold, year by year, the last
      value recorded for each of the first two elements, 0 when none. */
  lemma ComparisonIsLastRecord(ids: seq<int>, years: seq<int>, records: seq<KilimoDataRecord>,
                               elements: seq<ElementInfo>, items: seq<ItemInfo>, y: nat)
    requires |elements| >= 2 && y < |years|
    requires elements[0].id in ids && elements[1].id in ids
    ensures var c := TwoElementComparison(IndicatorData(years, ValuesTable(ids, years, records), elements, items));
      && |c.element1| == |years| == |c.element2|
      && c.element1[y] == (match LastValue(records, years, elements[0].id, y) case Some(v) => v case None => 0.0)
      && c.element2[y] == (match LastValue(records, years, elements[1].id, y) case Some(v) => v case None => 0.0)
  {
    var t := ValuesTable(ids, years, records);
    ValuesTableSpec(ids, years, records);
    var j0 := IndexOf(ids, elements[0].id);
    var j1 := IndexOf(ids, elements[1].id);
    assert KeyIndex(t, ids[j0]) >= 0 && KeyIndex(t, ids[j1]) >= 0;
  }

  datatype Distribution = Distribution(element1Value: real, element2Value: real,
                                       element1Name: string, element2Name: string)

  /** getLatestDistribution. */
  function LatestDistribution(d: IndicatorData): (r: Distribution)
    ensures |d.elements| < 2 || d.years == [] ==> r == Distribution(0.0, 0.0, "", "")
  {
    if |d.elements| < 2 || d.years == [] then Distribution(0.0, 0.0, "", "")
    else
      var latest := |d.years| - 1;
      Distribution(At(SeriesOf(d.values, d.elements[0].id), latest),
                   At(SeriesOf(d.values, d.elements[1].id), latest),
                   d.elements[0].name, d.elements[1].name)
  }

  /** On the service's data the distribution is the last value recorded for
      each of the first two elements in the latest year, 0 when none. */
  lemma LatestIsLastRecord(ids: seq<int>, years: seq<int>, records: seq<KilimoDataRecord>,
                           elements: seq<ElementInfo>, items: seq<ItemInfo>)
    requires |elements| >= 2 && years != []
    requires elements[0].id in ids && elements[1].id in ids
    ensures var d := IndicatorData(years, ValuesTable(ids, years, records), elements, items);
      && LatestDistribution(d).element1Value
           == (match LastValue(records, years, elements[0].id, |years| - 1) case Some(v) => v case None => 0.0)
      && LatestDistribution(d).element2Value
           == (match LastValue(records, years, elements[1].id, |years| - 1) case Some(v) => v case None => 0.0)
  {
    var t := ValuesTable(ids, years, records);
    ValuesTableSpec(ids, years, records);
    var j0 := IndexOf(ids, elements[0].id);
    var j1 := IndexOf(ids, elements[1].id);
    assert KeyIndex(t, ids[j0]) >= 0 && KeyIndex(t, ids[j1]) >= 0;
  }
}
