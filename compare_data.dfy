/** The county comparison page: up to five selected counties, one value
    per county and year over an inclusive year range, each value the sum
    of the matching records' amounts; the summary cards over the strictly
    positive values; and the CSV of the series. Numbers are exact reals;
    floating-point rounding is not modelled. */
module CompareData {
  import opened Base
  import opened Sorting
  import ApiService
  import CountyService

  type County = CountyService.County
  type Record = ApiService.KilimoDataRecord

  /** The series colours, taken in turn. */
  const Palette: seq<string> := ["#2563eb", "#dc2626", "#16a34a", "#d97706", "#7c3aed"]

  // ---------------------------------------------------------------------
  // The query

  /** `Array.from({ length: yearTo - yearFrom + 1 }, (_, i) => yearFrom + i)`;
      a negative length counts as zero. */
  function YearRange(yearFrom: int, yearTo: int): (r: seq<int>)
    ensures |r| == if yearFrom <= yearTo then yearTo - yearFrom + 1 else 0
  {
    if yearTo < yearFrom then [] else seq(yearTo - yearFrom + 1, i => yearFrom + i)
  }

  /** The axis holds exactly the years from `yearFrom` to `yearTo`, each
      once, in increasing order. */
  lemma YearRangeMembers(yearFrom: int, yearTo: int)
    ensures forall y :: y in YearRange(yearFrom, yearTo) <==> yearFrom <= y <= yearTo
    ensures var r := YearRange(yearFrom, yearTo);
      forall i, j :: 0 <= i < j < |r| ==> r[i] < r[j]
  {
    var r := YearRange(yearFrom, yearTo);
    forall y | yearFrom <= y <= yearTo
      ensures y in r
    {
      assert r[y - yearFrom] == y;
    }
  }

  /** `selectedCounties.map(c => parseInt(c.id)).filter(n => !isNaN(n))`. */
  function CountyIds(selected: seq<County>): seq<int> {
    if selected == [] then []
    else
      (match ParseInt(selected[0].id)
       case Some(n) => [n]
       case None => []) + CountyIds(selected[1..])
  }

  /** The query names every selected county whose id parses, and nothing
      else. */
  lemma {:induction false} CountyIdsMembers(selected: seq<County>)
    ensures forall n :: n in CountyIds(selected) <==>
      exists c :: c in selected && ParseInt(c.id) == Some(n)
  {
    if selected != [] {
      CountyIdsMembers(selected[1..]);
      assert forall c :: c in selected <==> c == selected[0] || c in selected[1..];
    }
  }

  /** The parameters of the data request: the selected counties, the year
      axis and the chosen subdomain. */
  function ComparisonParams(selected: seq<County>, years: seq<int>, subdomainId: int): ApiService.KilimoDataParams {
    ApiService.KilimoDataParams(Some(CountyIds(selected)), None, None, Some(years), Some(subdomainId))
  }

  /** The names of the items that belong to a category. */
  function CategoryItemNames(items: seq<ApiService.Item>, categoryId: int): set<string> {
    set it | it in items && it.itemcategory == categoryId :: it.name
  }

  /** With a category chosen, only the records whose item is named by an
      item of that category. */
  function CategoryFiltered(records: seq<Record>, items: seq<ApiService.Item>,
                            category: Option<ApiService.ItemCategory>): seq<Record> {
    match category
    case None => records
    case Some(cat) => Filter(records, (rec: Record) => rec.item in CategoryItemNames(items, cat.id))
  }

  lemma CategoryFilteredExact(records: seq<Record>, items: seq<ApiService.Item>,
                              category: Option<ApiService.ItemCategory>)
    ensures category.None? ==> CategoryFiltered(records, items, category) == records
    ensures category.Some? ==> forall rec ::
      rec in CategoryFiltered(records, items, category) <==>
        rec in records && exists it :: it in items && it.itemcategory == category.value.id && it.name == rec.item
  {
    if category.Some? {
      var names := CategoryItemNames(items, category.value.id);
      var r := CategoryFiltered(records, items, category);
      forall rec | rec in records && rec.item in names
        ensures rec in r
      {
        var k :| 0 <= k < |records| && records[k] == rec;
      }
    }
  }

  // ---------------------------------------------------------------------
  // Aggregation

  /** What one record contributes: its lower-cased county,
      `parseInt(refyear)` (None for NaN) and `parseFloat(value) || 0`. */
  datatype Reading = Reading(county: string, year: Option<int>, amount: real)

  function ReadingOf(rec: Record): Reading {
    Reading(Lower(rec.county), ParseInt(rec.refyear), NumOrZero(rec.value))
  }

  function Readings(rs: seq<Record>): (r: seq<Reading>)
    ensures |r| == |rs|
  {
    seq(|rs|, i requires 0 <= i < |rs| => ReadingOf(rs[i]))
  }

  /** `aggregated`: lower-cased county name to a map from year to total. */
  type Table = map<string, map<Option<int>, real>>

  /** `yearMap.get(yr) || 0`. */
  function Get(m: map<Option<int>, real>, y: Option<int>): real {
    if y in m then m[y] else 0.0
  }

  /** The lower-cased names of the selected counties. */
  function SelectedKeys(selected: seq<County>): set<string> {
    set c | c in selected :: Lower(c.name)
  }

  /** The table before the records are read: an empty year map per
      selected county. */
  function EmptyTable(selected: seq<County>): Table {
    map key | key in SelectedKeys(selected) :: map[]
  }

  /** One pass of the loop: a reading for a county not in the table is
      skipped, otherwise its amount is added to that county's year. */
  function Step(t: Table, rd: Reading): Table {
    if rd.county !in t then t
    else t[rd.county := t[rd.county][rd.year := Get(t[rd.county], rd.year) + rd.amount]]
  }

  function Fold(t: Table, rds: seq<Reading>): Table {
    if rds == [] then t else Step(Fold(t, rds[..|rds| - 1]), rds[|rds| - 1])
  }

  /** The sum of the amounts read for this county and year. */
  function CellTotal(rds: seq<Reading>, county: string, year: Option<int>): real {
    if rds == [] then 0.0
    else
      var last := rds[|rds| - 1];
      CellTotal(rds[..|rds| - 1], county, year) + (if last.county == county && last.year == year then last.amount else 0.0)
  }

  /** The sum of `parseFloat(value) || 0` over the records whose lower-cased
      county is `county` and whose `parseInt(refyear)` is `year`. */
  function RecordCellTotal(rs: seq<Record>, county: string, year: Option<int>): real {
    if rs == [] then 0.0
    else
      var last := rs[|rs| - 1];
      RecordCellTotal(rs[..|rs| - 1], county, year)
        + (if Lower(last.county) == county && ParseInt(last.refyear) == year then NumOrZero(last.value) else 0.0)
  }

  lemma {:induction false} ReadingsTotal(rs: seq<Record>, county: string, year: Option<int>)
    ensures CellTotal(Readings(rs), county, year) == RecordCellTotal(rs, county, year)
  {
    if rs != [] {
      var init := rs[..|rs| - 1];
      ReadingsTotal(init, county, year);
      assert Readings(rs)[..|rs| - 1] == Readings(init);
      assert Readings(rs)[|rs| - 1] == ReadingOf(rs[|rs| - 1]);
    }
  }

  /** No matching reading gives 0. */
  lemma {:induction false} CellTotalNone(rds: seq<Reading>, county: string, year: Option<int>)
    requires forall k :: 0 <= k < |rds| ==> rds[k].county != county || rds[k].year != year
    ensures CellTotal(rds, county, year) == 0.0
  {
    if rds != [] {
      CellTotalNone(rds[..|rds| - 1], county, year);
    }
  }

  /** The loop never adds or drops a county. */
  lemma {:induction false} FoldKeys(t: Table, rds: seq<Reading>)
    ensures Fold(t, rds).Keys == t.Keys
  {
    if rds != [] {
      FoldKeys(t, rds[..|rds| - 1]);
    }
  }

  /** The loop adds each county's readings to its year totals. */
  lemma {:induction false} FoldTotals(t: Table, rds: seq<Reading>)
    ensures forall key, y :: key in t ==>
      key in Fold(t, rds) && Get(Fold(t, rds)[key], y) == Get(t[key], y) + CellTotal(rds, key, y)
  {
    FoldKeys(t, rds);
    if rds != [] {
      var init := rds[..|rds| - 1];
      var rd := rds[|rds| - 1];
      FoldTotals(t, init);
      FoldKeys(t, init);
      var prev := Fold(t, init);
      forall key, y | key in t
        ensures key in Fold(t, rds) && Get(Fold(t, rds)[key], y) == Get(t[key], y) + CellTotal(rds, key, y)
      {
        assert CellTotal(rds, key, y) == CellTotal(init, key, y) + (if rd.county == key && rd.year == y then rd.amount else 0.0);
        if rd.county == key && rd.year == y {
          assert Fold(t, rds)[key] == prev[key][y := Get(prev[key], y) + rd.amount];
        } else if rd.county == key {
          assert Fold(t, rds)[key] == prev[key][rd.year := Get(prev[key], rd.year) + rd.amount];
        } else {
          assert Fold(t, rds)[key] == prev[key];
        }
      }
    }
  }

  /** `for (const c of selectedCounties) aggregated.set(c.name.toLowerCase(), new Map())`. */
  method InitTable(selected: seq<County>) returns (t: Table)
    ensures t == EmptyTable(selected)
  {
    t := map[];
    for i := 0 to |selected|
      invariant t.Keys == SelectedKeys(selected[..i])
      invariant forall key :: key in t ==> t[key] == map[]
    {
      assert selected[..i + 1] == selected[..i] + [selected[i]];
      t := t[Lower(selected[i].name) := map[]];
    }
    assert selected[..|selected|] == selected;
  }

  /** The body of the records loop for one reading. */
  method AddReading(t: Table, rd: Reading) returns (r: Table)
    ensures r == Step(t, rd)
  {
    if rd.county !in t {
      return t;
    }
    var yearMap := t[rd.county];
    var prior := if rd.year in yearMap then yearMap[rd.year] else 0.0;
    r := t[rd.county := yearMap[rd.year := prior + rd.amount]];
  }

  lemma FoldStep(t: Table, rds: seq<Reading>, k: nat)
    requires k < |rds|
    ensures Fold(t, rds[..k + 1]) == Step(Fold(t, rds[..k]), rds[k])
  {
    assert rds[..k + 1][..k] == rds[..k];
  }

  /** `aggregated` after both loops. */
  method Aggregate(selected: seq<County>, records: seq<Record>) returns (t: Table)
    ensures t == Fold(EmptyTable(selected), Readings(records))
  {
    ghost var rds := Readings(records);
    t := InitTable(selected);
    ghost var start := t;
    for k := 0 to |records|
      invariant t == Fold(start, rds[..k])
    {
      var rec := records[k];
      var rd := Reading(Lower(rec.county), ParseInt(rec.refyear), NumOrZero(rec.value));
      assert rd == rds[k];
      t := AddReading(t, rd);
      FoldStep(start, rds, k);
    }
    assert rds[..|records|] == rds;
  }

  // ---------------------------------------------------------------------
  // The series

  datatype Series = Series(county: County, color: string, values: seq<real>)

  /** `aggregated.get(county.name.toLowerCase())?.get(yr) || 0`. */
  function Lookup(t: Table, key: string, year: int): real {
    if key in t then Get(t[key], Some(year)) else 0.0
  }

  function ValuesOf(t: Table, key: string, years: seq<int>): (r: seq<real>)
    ensures |r| == |years|
  {
    seq(|years|, j requires 0 <= j < |years| => Lookup(t, key, years[j]))
  }

  /** One series per selected county, in selection order. */
  function SeriesOf(selected: seq<County>, years: seq<int>, t: Table): (r: seq<Series>)
    ensures |r| == |selected|
  {
    seq(|selected|, i requires 0 <= i < |selected| =>
      Series(selected[i], Palette[i % |Palette|], ValuesOf(t, Lower(selected[i].name), years)))
  }

  /** What the page shows after a fetch: the year axis and the series. */
  datatype Comparison = Comparison(years: seq<int>, series: seq<Series>)

  /** The whole computation on the records the request returned. */
  function Compared(selected: seq<County>, yearFrom: int, yearTo: int, records: seq<Record>,
                    items: seq<ApiService.Item>, category: Option<ApiService.ItemCategory>): Comparison {
    var years := YearRange(yearFrom, yearTo);
    var kept := CategoryFiltered(records, items, category);
    Comparison(years, SeriesOf(selected, years, Fold(EmptyTable(selected), Readings(kept))))
  }

  /** The message the page shows when a request of `fetchComparison` fails. */
  const LoadFailed := "Failed to load comparison data. Please try again."

  /** The page after a fetch: the year axis and series on show, and the
      error message, if any. */
  datatype Fetched = Fetched(view: Comparison, error: Option<string>)

  /** A request of `fetchComparison` threw: the data request, or the item
      request, which is made only when a category is chosen. */
  predicate RequestFailed(records: Option<seq<Record>>, items: Option<seq<ApiService.Item>>,
                          category: Option<ApiService.ItemCategory>) {
    records.None? || (category.Some? && items.None?)
  }

  /** `fetchComparison`: nothing happens without a domain, a subdomain and
      a county. Otherwise the error is cleared and the year axis is set
      before any request is made; then the records are filtered by
      category and summed per county and year. `records` and `items` are
      what the two requests returned, `None` when one threw; the `catch`
      then sets the error message and leaves `prior`, the series already
      on show, next to the new axis. */
  method FetchComparison(selected: seq<County>, hasDomain: bool, hasSubdomain: bool,
                         yearFrom: int, yearTo: int, prior: seq<Series>,
                         records: Option<seq<Record>>, items: Option<seq<ApiService.Item>>,
                         category: Option<ApiService.ItemCategory>)
    returns (result: Option<Fetched>)
    ensures result.None? <==> !hasDomain || selected == [] || !hasSubdomain
    ensures result.Some? && !RequestFailed(records, items, category) ==>
      result.value == Fetched(Compared(selected, yearFrom, yearTo, records.value,
                                       if items.Some? then items.value else [], category), None)
    ensures result.Some? && RequestFailed(records, items, category) ==>
      result.value == Fetched(Comparison(YearRange(yearFrom, yearTo), prior), Some(LoadFailed))
  {
    if !hasDomain || |selected| == 0 || !hasSubdomain {
      return None;
    }
    var years := YearRange(yearFrom, yearTo);
    if records.None? {
      return Some(Fetched(Comparison(years, prior), Some(LoadFailed)));
    }
    var kept := records.value;
    if category.Some? {
      if items.None? {
        return Some(Fetched(Comparison(years, prior), Some(LoadFailed)));
      }
      var names := CategoryItemNames(items.value, category.value.id);
      kept := Filter(records.value, (rec: Record) => rec.item in names);
    }
    var t := Aggregate(selected, kept);
    result := Some(Fetched(Comparison(years, SeriesOf(selected, years, t)), None));
  }

  /** One series per selected county in selection order, coloured in turn
      from the palette, with one value per axis year: the sum of
      `parseFloat(value) || 0` over the kept records of that county (names
      compared lower-cased) and year, 0 when none matches. */
  lemma ComparedValues(selected: seq<County>, yearFrom: int, yearTo: int, records: seq<Record>,
                       items: seq<ApiService.Item>, category: Option<ApiService.ItemCategory>)
    ensures var c := Compared(selected, yearFrom, yearTo, records, items, category);
      var kept := CategoryFiltered(records, items, category);
      && c.years == YearRange(yearFrom, yearTo)
      && |c.series| == |selected|
      && forall i :: 0 <= i < |selected| ==>
           && c.series[i].county == selected[i]
           && c.series[i].color == Palette[i % 5]
           && |c.series[i].values| == |c.years|
           && forall j :: 0 <= j < |c.years| ==>
                c.series[i].values[j] == RecordCellTotal(kept, Lower(selected[i].name), Some(c.years[j]))
  {
    var years := YearRange(yearFrom, yearTo);
    var kept := CategoryFiltered(records, items, category);
    var t := Fold(EmptyTable(selected), Readings(kept));
    SeriesLayout(selected, years, t);
    forall i, j | 0 <= i < |selected| && 0 <= j < |years|
      ensures Lookup(t, Lower(selected[i].name), years[j]) == RecordCellTotal(kept, Lower(selected[i].name), Some(years[j]))
    {
      assert Lower(selected[i].name) in SelectedKeys(selected);
      FoldedCell(selected, kept, Lower(selected[i].name), years[j]);
    }
  }

  /** Series `i` belongs to the i-th selected county, takes the i-th
      palette colour in turn and reads that county's row of `t` year by
      year. */
  lemma SeriesLayout(selected: seq<County>, years: seq<int>, t: Table)
    ensures var r := SeriesOf(selected, years, t);
      forall i :: 0 <= i < |selected| ==>
        && r[i].county == selected[i]
        && r[i].color == Palette[i % 5]
        && |r[i].values| == |years|
        && forall j :: 0 <= j < |years| ==> r[i].values[j] == Lookup(t, Lower(selected[i].name), years[j])
  {
  }

  /** A selected county's cell after the loop is the total of its records
      for that year. */
  lemma FoldedCell(selected: seq<County>, kept: seq<Record>, key: string, year: int)
    requires key in SelectedKeys(selected)
    ensures Lookup(Fold(EmptyTable(selected), Readings(kept)), key, year) == RecordCellTotal(kept, key, Some(year))
  {
    var start := EmptyTable(selected);
    FoldTotals(start, Readings(kept));
    ReadingsTotal(kept, key, Some(year));
    assert start[key] == map[];
  }

  /** A record whose county is not selected leaves the table, and so the
      series, as they were. */
  lemma UnselectedIgnored(selected: seq<County>, rs: seq<Record>, rec: Record)
    requires Lower(rec.county) !in SelectedKeys(selected)
    ensures Fold(EmptyTable(selected), Readings(rs + [rec])) == Fold(EmptyTable(selected), Readings(rs))
  {
    var start := EmptyTable(selected);
    var rds := Readings(rs + [rec]);
    FoldKeys(start, Readings(rs));
    assert rds[..|rs|] == Readings(rs);
    assert rds[|rs|] == ReadingOf(rec);
  }

  // ---------------------------------------------------------------------
  // The county picker

  /** The selection never holds a county twice and never more than five. */
  predicate SelectionOk(sel: seq<County>) {
    && |sel| <= 5
    && forall i, j :: 0 <= i < j < |sel| ==> sel[i].id != sel[j].id
  }

  /** `addCounty`'s guard: an already-selected id, or five selected. */
  predicate AddRefused(sel: seq<County>, c: County) {
    Find(sel, (s: County) => s.id == c.id).Some? || |sel| >= 5
  }

  function Added(sel: seq<County>, c: County): seq<County> {
    if AddRefused(sel, c) then sel else sel + [c]
  }

  function Removed(sel: seq<County>, id: string): seq<County> {
    Filter(sel, (s: County) => s.id != id)
  }

  /** Adding refuses exactly a duplicate id or a sixth county, appends
      otherwise, and keeps the selection well formed. */
  lemma AddedSpec(sel: seq<County>, c: County)
    ensures AddRefused(sel, c) <==> (exists k :: 0 <= k < |sel| && sel[k].id == c.id) || |sel| >= 5
    ensures SelectionOk(sel) ==> SelectionOk(Added(sel, c))
  {
  }

  /** Distinct ids, as a pairwise relation. */
  predicate IdsDiffer(a: County, b: County) {
    a.id != b.id
  }

  /** Removing drops exactly the counties with that id, keeps the rest in
      order, and keeps the selection well formed. */
  lemma RemovedSpec(sel: seq<County>, id: string)
    ensures forall c :: c in Removed(sel, id) <==> c in sel && c.id != id
    ensures SelectionOk(sel) ==> SelectionOk(Removed(sel, id))
    ensures (forall k :: 0 <= k < |sel| ==> sel[k].id != id) ==> Removed(sel, id) == sel
  {
    var p := (s: County) => s.id != id;
    forall c | c in sel && c.id != id
      ensures c in Removed(sel, id)
    {
      var m :| 0 <= m < |sel| && sel[m] == c;
    }
    if SelectionOk(sel) {
      assert Sorted(sel, IdsDiffer);
      FilterSorted(sel, p, IdsDiffer);
    }
    if forall k :: 0 <= k < |sel| ==> sel[k].id != id {
      FilterAll(sel, p);
    }
  }

  /** The county picker: the selection, the search text and whether the
      dropdown is open. */
  class CountySelection {
    var selected: seq<County>
    var search: string
    var dropdownOpen: bool

    ghost predicate Valid()
      reads this
    {
      SelectionOk(selected)
    }

    constructor ()
      ensures Valid() && selected == [] && search == "" && !dropdownOpen
    {
      selected := [];
      search := "";
      dropdownOpen := false;
    }

    /** `addCounty`: a refused county changes nothing; otherwise it is
        appended, the search is cleared and the dropdown closed. */
    method AddCounty(c: County)
      requires Valid()
      modifies this
      ensures Valid()
      ensures selected == Added(old(selected), c)
      ensures AddRefused(old(selected), c) ==> search == old(search) && dropdownOpen == old(dropdownOpen)
      ensures !AddRefused(old(selected), c) ==> search == "" && !dropdownOpen
    {
      AddedSpec(selected, c);
      if Find(selected, (s: County) => s.id == c.id).Some? {
        return;
      }
      if |selected| >= 5 {
        return;
      }
      selected := selected + [c];
      search := "";
      dropdownOpen := false;
    }

    /** `removeCounty`. */
    method RemoveCounty(id: string)
      requires Valid()
      modifies this
      ensures Valid()
      ensures selected == Removed(old(selected), id)
      ensures search == old(search) && dropdownOpen == old(dropdownOpen)
    {
      RemovedSpec(selected, id);
      selected := Removed(selected, id);
    }
  }

  /** `filteredCounties`: the counties whose name contains the search,
      ignoring case, that are not selected yet. */
  function Available(all: seq<County>, search: string, sel: seq<County>): seq<County> {
    Filter(all, (c: County) => ContainsIgnoreCase(c.name, search) && Find(sel, (s: County) => s.id == c.id).None?)
  }

  lemma AvailableExact(all: seq<County>, search: string, sel: seq<County>)
    ensures forall c :: c in Available(all, search, sel) <==>
      && c in all && ContainsIgnoreCase(c.name, search)
      && forall k :: 0 <= k < |sel| ==> sel[k].id != c.id
  {
    forall c | c in all && ContainsIgnoreCase(c.name, search) && forall k :: 0 <= k < |sel| ==> sel[k].id != c.id
      ensures c in Available(all, search, sel)
    {
      var m :| 0 <= m < |all| && all[m] == c;
    }
  }

  // ---------------------------------------------------------------------
  // Summary cards

  /** The values above zero. */
  function Positives(values: seq<real>): seq<real> {
    Filter(values, (v: real) => v > 0.0)
  }

  /** `s.values[s.values.length - 1] || 0`. */
  function Latest(values: seq<real>): real {
    if values == [] then 0.0 else values[|values| - 1]
  }

  /** `s.values.find(v => v > 0) || 0`. */
  function Earliest(values: seq<real>): real {
    match Find(values, (v: real) => v > 0.0)
    case Some(v) => v
    case None => 0.0
  }

  /** `Math.max(...xs)` of a non-empty list. */
  function MaxOf(xs: seq<real>): real
    requires xs != []
  {
    if |xs| == 1 then xs[0]
    else
      var m := MaxOf(xs[..|xs| - 1]);
      if xs[|xs| - 1] > m then xs[|xs| - 1] else m
  }

  function Average(values: seq<real>): real {
    var p := Positives(values);
    if |p| > 0 then Sum(p) / (|p| as real) else 0.0
  }

  function Peak(values: seq<real>): real {
    var p := Positives(values);
    if |p| > 0 then MaxOf(p) else 0.0
  }

  function Trend(values: seq<real>): real {
    var e := Earliest(values);
    if e > 0.0 then Change(Latest(values), e) else 0.0
  }

  /** The relative change from `base` to `latest`, in percent. */
  function Change(latest: real, base: real): real
    requires base > 0.0
  {
    (latest - base) / base * 100.0
  }

  datatype Card = Card(county: County, color: string, latest: real, average: real, peak: real,
                       trend: real, points: nat)

  function CardOf(s: Series): Card {
    Card(s.county, s.color, Latest(s.values), Average(s.values), Peak(s.values), Trend(s.values),
         |Positives(s.values)|)
  }

  /** `SummaryCards`: nothing without series or years, else one card per
      series. */
  function SummaryCards(series: seq<Series>, years: seq<int>): (r: Option<seq<Card>>)
    ensures r.None? <==> series == [] || years == []
    ensures r.Some? ==> |r.value| == |series| && forall i :: 0 <= i < |series| ==> r.value[i] == CardOf(series[i])
  {
    if series == [] || years == [] then None
    else Some(seq(|series|, i requires 0 <= i < |series| => CardOf(series[i])))
  }

  lemma {:induction false} MaxOfIsMax(xs: seq<real>)
    requires xs != []
    ensures MaxOf(xs) in xs
    ensures forall k :: 0 <= k < |xs| ==> xs[k] <= MaxOf(xs)
  {
    if |xs| > 1 {
      MaxOfIsMax(xs[..|xs| - 1]);
    }
  }

  /** The peak is the largest value when some value is positive, and 0
      (above every value) when none is. */
  lemma PeakIsLargest(values: seq<real>)
    ensures forall k :: 0 <= k < |values| ==> values[k] <= Peak(values)
    ensures Peak(values) == 0.0 || (Peak(values) > 0.0 && Peak(values) in values)
  {
    var p := Positives(values);
    if |p| > 0 {
      MaxOfIsMax(p);
      assert p[0] > 0.0;
    }
  }

  lemma {:induction false} SumBounds(xs: seq<real>, hi: real)
    requires forall k :: 0 <= k < |xs| ==> 0.0 < xs[k] <= hi
    ensures 0.0 <= Sum(xs) <= (|xs| as real) * hi
    ensures xs != [] ==> Sum(xs) > 0.0
  {
    if xs != [] {
      SumBounds(xs[..|xs| - 1], hi);
    }
  }

  /** A quotient by a positive count stays under a bound the total
      respects on average. */
  lemma QuotientBound(total: real, n: real, m: real)
    requires n > 0.0 && total <= n * m
    ensures total / n <= m
  {
    assert total / n * n == total;
  }

  /** The mean of positive values is positive and at most their maximum. */
  lemma MeanBounds(p: seq<real>)
    requires p != [] && forall k :: 0 <= k < |p| ==> p[k] > 0.0
    ensures 0.0 < Sum(p) / (|p| as real) <= MaxOf(p)
  {
    var m := MaxOf(p);
    MaxOfIsMax(p);
    SumBounds(p, m);
    QuotientBound(Sum(p), |p| as real, m);
  }

  /** The average lies between 0 and the peak, above 0 exactly when some
      value is positive. */
  lemma AverageBounds(values: seq<real>)
    ensures 0.0 <= Average(values) <= Peak(values)
    ensures Average(values) > 0.0 <==> exists k :: 0 <= k < |values| && values[k] > 0.0
  {
    var p := Positives(values);
    if |p| > 0 {
      MeanBounds(p);
      assert p[0] in values;
    } else {
      forall k | 0 <= k < |values|
        ensures values[k] <= 0.0
      {
        if values[k] > 0.0 {
          assert values[k] in p;
        }
      }
    }
  }

  /** The first positive value, or 0 exactly when no value is positive. */
  lemma EarliestSpec(values: seq<real>)
    ensures Earliest(values) == 0.0 <==> forall k :: 0 <= k < |values| ==> values[k] <= 0.0
    ensures Earliest(values) != 0.0 ==>
      exists k :: 0 <= k < |values| && values[k] == Earliest(values) > 0.0 && forall j :: 0 <= j < k ==> values[j] <= 0.0
  {
  }

  /** The sign of a relative change over a positive base is the sign of
      the difference. */
  lemma ChangeSign(latest: real, base: real)
    requires base > 0.0
    ensures Change(latest, base) > 0.0 <==> latest > base
    ensures Change(latest, base) == 0.0 <==> latest == base
  {
    var d := latest - base;
    assert d / base * base == d;
  }

  /** The trend is 0 without a positive value; otherwise it is positive,
      zero or negative as the latest value is above, at or below the first
      positive one. */
  lemma TrendSign(values: seq<real>)
    ensures Earliest(values) == 0.0 ==> Trend(values) == 0.0
    ensures Earliest(values) > 0.0 ==>
      && (Trend(values) > 0.0 <==> Latest(values) > Earliest(values))
      && (Trend(values) == 0.0 <==> Latest(values) == Earliest(values))
  {
    var e := Earliest(values);
    if e > 0.0 {
      ChangeSign(Latest(values), e);
    }
  }

  // ---------------------------------------------------------------------
  // CSV export

  function YearTexts(years: seq<int>): (r: seq<string>)
    ensures |r| == |years|
  {
    seq(|years|, j requires 0 <= j < |years| => IntToString(years[j]))
  }

  /** The header: 'County' and the years. */
  function HeaderLine(years: seq<int>): string {
    Join(["County"] + YearTexts(years), ",")
  }

  /** `String(v)` for each value, as the number formatting gives it. */
  function ValueTexts(values: seq<real>, numText: real -> string): (r: seq<string>)
    ensures |r| == |values|
  {
    seq(|values|, j requires 0 <= j < |values| => numText(values[j]))
  }

  /** A data line: the quoted county name, then the values. */
  function SeriesLine(s: Series, numText: real -> string): string {
    Join([Quote(s.county.name)] + ValueTexts(s.values, numText), ",")
  }

  function SeriesLines(series: seq<Series>, numText: real -> string): (r: seq<string>)
    ensures |r| == |series|
  {
    seq(|series|, i requires 0 <= i < |series| => SeriesLine(series[i], numText))
  }

  /** `doExportCSV`'s text. */
  function ComparisonCsv(series: seq<Series>, years: seq<int>, numText: real -> string): string {
    Join([HeaderLine(years)] + SeriesLines(series, numText), "\n")
  }

  /** The header's cells are 'County' and the years in axis order. */
  lemma HeaderFields(years: seq<int>)
    ensures Split(HeaderLine(years), ',') == ["County"] + YearTexts(years)
  {
    var parts := ["County"] + YearTexts(years);
    forall k | 0 <= k < |parts|
      ensures ',' !in parts[k]
    {
      if k > 0 {
        IntToStringChars(years[k - 1], ',');
      }
    }
    SplitJoin(parts, ',');
  }

  /** A character in neither the name nor any number's text is in no
      cell of the line. */
  lemma SeriesPartsAvoid(s: Series, numText: real -> string, c: char)
    requires c != '"' && c !in s.county.name
    requires forall v :: c !in numText(v)
    ensures var parts := [Quote(s.county.name)] + ValueTexts(s.values, numText);
      forall k :: 0 <= k < |parts| ==> c !in parts[k]
  {
    var parts := [Quote(s.county.name)] + ValueTexts(s.values, numText);
    forall k | 0 <= k < |parts|
      ensures c !in parts[k]
    {
      if k == 0 {
        var open := ['"'] + s.county.name;
        assert c !in open;
        assert parts[0] == open + ['"'];
      } else {
        var x := s.values[k - 1];
        assert parts[k] == numText(x);
      }
    }
  }

  /** A line's cells are the quoted name and the values, when neither the
      name nor a number's text holds a comma. */
  lemma SeriesFields(s: Series, numText: real -> string)
    requires ',' !in s.county.name
    requires forall v :: ',' !in numText(v)
    ensures Split(SeriesLine(s, numText), ',') == [Quote(s.county.name)] + ValueTexts(s.values, numText)
  {
    SeriesPartsAvoid(s, numText, ',');
    SplitJoin([Quote(s.county.name)] + ValueTexts(s.values, numText), ',');
  }

  /** The CSV is the header followed by one line per series, when no name
      or number text holds a line break. */
  lemma CsvLines(series: seq<Series>, years: seq<int>, numText: real -> string)
    requires forall i :: 0 <= i < |series| ==> '\n' !in series[i].county.name
    requires forall v :: '\n' !in numText(v)
    ensures Split(ComparisonCsv(series, years, numText), '\n') == [HeaderLine(years)] + SeriesLines(series, numText)
  {
    var header := ["County"] + YearTexts(years);
    forall k | 0 <= k < |header|
      ensures '\n' !in header[k]
    {
      if k > 0 {
        IntToStringChars(years[k - 1], '\n');
      }
    }
    JoinAvoids(header, ",", '\n');
    var rows := SeriesLines(series, numText);
    forall i | 0 <= i < |rows|
      ensures '\n' !in rows[i]
    {
      SeriesPartsAvoid(series[i], numText, '\n');
      JoinAvoids([Quote(series[i].county.name)] + ValueTexts(series[i].values, numText), ",", '\n');
    }
    LinesSplit(HeaderLine(years), rows);
  }
}
