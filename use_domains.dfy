/** The domains hook: the nine fixture domains narrowed by the search
    filters and sorted by name or code, the filter merge, and the CSV of
    the domains chosen for export. */
module UseDomains {
  import opened Base
  import opened Sorting

  /** The hook's domain shape: `subsector` is text. */
  datatype HookDomain = HookDomain(id: int, name: string, code: string, subsector: string)

  datatype Filters = Filters(query: string, subsector: string, sortBy: string)

  const InitialFilters := Filters("", "", "name")

  const MockDomains: seq<HookDomain> := [
    HookDomain(1, "Crops", "CR", "Crops"),
    HookDomain(2, "Livestock", "LS", "Livestock"),
    HookDomain(3, "Fisheries", "FS", "Fisheries"),
    HookDomain(4, "Land, Inputs and Sustainability", "LIS", "Land, Inputs and Sustainability"),
    HookDomain(5, "Investments and Financing", "IF", "Investments and Financing"),
    HookDomain(6, "Trade", "TR", "Trade"),
    HookDomain(7, "Prices", "PR", "Prices"),
    HookDomain(8, "Early Warning, Nutrition and Food Security", "EWNFS", "Early Warning, Nutrition and Food Security"),
    HookDomain(9, "Population and Employment", "PE", "Population and Employment")]

  /** The query test: name or code contains the query, ignoring case. */
  predicate QueryMatch(d: HookDomain, query: string) {
    ContainsIgnoreCase(d.name, query) || ContainsIgnoreCase(d.code, query)
  }

  /** Both filters of fetchDomains; an empty filter keeps everything. */
  predicate Kept(d: HookDomain, f: Filters) {
    (f.query == "" || QueryMatch(d, f.query)) && (f.subsector == "" || d.subsector == f.subsector)
  }

  predicate NameLe(a: HookDomain, b: HookDomain) {
    StrLe(a.name, b.name)
  }

  predicate CodeLe(a: HookDomain, b: HookDomain) {
    StrLe(a.code, b.code)
  }

  function Narrowed(domains: seq<HookDomain>, f: Filters): seq<HookDomain> {
    var byQuery := if f.query != "" then Filter(domains, (d: HookDomain) => QueryMatch(d, f.query)) else domains;
    if f.subsector != "" then Filter(byQuery, (d: HookDomain) => d.subsector == f.subsector) else byQuery
  }

  /** The list fetchDomains stores for the given filters, starting from
      the fixture list `all`. */
  function Fetched(all: seq<HookDomain>, f: Filters): seq<HookDomain> {
    var narrowed := Narrowed(all, f);
    if f.sortBy == "name" then SortBy(narrowed, NameLe)
    else if f.sortBy == "code" then SortBy(narrowed, CodeLe)
    else narrowed
  }

  /** A filter result holds each element at most as often as its input. */
  lemma {:induction false} FilterCounts<T>(s: seq<T>, p: T -> bool, x: T)
    ensures multiset(Filter(s, p))[x] <= multiset(s)[x]
    ensures p(x) ==> multiset(Filter(s, p))[x] == multiset(s)[x]
  {
    if s != [] {
      var h := if p(s[0]) then [s[0]] else [];
      FilterCounts(s[1..], p, x);
      assert Filter(s, p) == h + Filter(s[1..], p);
      assert s == [s[0]] + s[1..];
      assert multiset(Filter(s, p)) == multiset(h) + multiset(Filter(s[1..], p));
      assert multiset(s) == multiset([s[0]]) + multiset(s[1..]);
    }
  }

  lemma NarrowedCounts(domains: seq<HookDomain>, f: Filters, d: HookDomain)
    ensures multiset(Narrowed(domains, f))[d] == if Kept(d, f) then multiset(domains)[d] else 0
  {
    var byQuery := if f.query != "" then Filter(domains, (d: HookDomain) => QueryMatch(d, f.query)) else domains;
    if f.query != "" {
      FilterCounts(domains, (d: HookDomain) => QueryMatch(d, f.query), d);
      if !QueryMatch(d, f.query) {
        NotKeptAbsent(domains, (d: HookDomain) => QueryMatch(d, f.query), d);
      }
    }
    if f.subsector != "" {
      FilterCounts(byQuery, (d: HookDomain) => d.subsector == f.subsector, d);
      if d.subsector != f.subsector {
        NotKeptAbsent(byQuery, (d: HookDomain) => d.subsector == f.subsector, d);
      }
    }
  }

  lemma NotKeptAbsent<T>(s: seq<T>, p: T -> bool, x: T)
    requires !p(x)
    ensures multiset(Filter(s, p))[x] == 0
  {
    var r := Filter(s, p);
    assert x !in r;
  }

  /** The fixture ids run 1, 2, ..., 9. */
  lemma MockDomainsIds()
    ensures forall i :: 0 <= i < |MockDomains| ==> MockDomains[i].id == i + 1
  {
  }

  /** A sequence whose ids count up from `first` holds each value at most
      once. */
  lemma {:induction false} DistinctCount(s: seq<HookDomain>, first: int, d: HookDomain)
    requires forall i :: 0 <= i < |s| ==> s[i].id == first + i
    ensures multiset(s)[d] <= 1
  {
    if s != [] {
      DistinctCount(s[1..], first + 1, d);
      assert s == [s[0]] + s[1..];
      if s[0] == d {
        assert forall i :: 0 <= i < |s[1..]| ==> s[1..][i].id > d.id;
      }
    }
  }

  /** fetchDomains keeps exactly the fixture domains that pass both
      filters, each once. */
  lemma FetchedMembers(all: seq<HookDomain>, f: Filters, d: HookDomain)
    requires forall i :: 0 <= i < |all| ==> all[i].id == i + 1
    ensures multiset(Fetched(all, f))[d] == if Kept(d, f) then multiset(all)[d] else 0
    ensures multiset(Fetched(all, f))[d] <= 1
    ensures d in Fetched(all, f) <==> d in all && Kept(d, f)
  {
    NarrowedCounts(all, f, d);
    DistinctCount(all, 1, d);
    FetchedCounts(all, f);
    var n := multiset(Fetched(all, f))[d];
    assert d in Fetched(all, f) <==> n > 0;
    assert d in all <==> multiset(all)[d] > 0;
  }

  /** Sorting moves domains but neither adds nor drops one. */
  lemma FetchedCounts(all: seq<HookDomain>, f: Filters)
    ensures multiset(Fetched(all, f)) == multiset(Narrowed(all, f))
  {
  }

  /** Sorting by name or code orders by that field; any other key keeps
      the fixture order. */
  lemma FetchedOrder(all: seq<HookDomain>, f: Filters)
    ensures f.sortBy == "name" ==> Sorted(Fetched(all, f), NameLe)
    ensures f.sortBy == "code" ==> Sorted(Fetched(all, f), CodeLe)
    ensures f.sortBy != "name" && f.sortBy != "code" ==> Fetched(all, f) == Narrowed(all, f)
  {
    var narrowed := Narrowed(all, f);
    if f.sortBy == "name" {
      StrLeByKey((d: HookDomain) => d.name, NameLe);
      SortBySorted(narrowed, NameLe);
    } else if f.sortBy == "code" {
      StrLeByKey((d: HookDomain) => d.code, CodeLe);
      SortBySorted(narrowed, CodeLe);
    }
  }

  /** The fields updateFilters was given; absent ones keep their value. */
  datatype FilterUpdate = FilterUpdate(query: Option<string>, subsector: Option<string>, sortBy: Option<string>)

  /** `{...prev, ...newFilters}`. */
  function Merge(prev: Filters, upd: FilterUpdate): (r: Filters)
    ensures upd.query.Some? ==> r.query == upd.query.value
    ensures upd.query.None? ==> r.query == prev.query
    ensures upd.subsector.Some? ==> r.subsector == upd.subsector.value
    ensures upd.subsector.None? ==> r.subsector == prev.subsector
    ensures upd.sortBy.Some? ==> r.sortBy == upd.sortBy.value
    ensures upd.sortBy.None? ==> r.sortBy == prev.sortBy
  {
    Filters(if upd.query.Some? then upd.query.value else prev.query,
            if upd.subsector.Some? then upd.subsector.value else prev.subsector,
            if upd.sortBy.Some? then upd.sortBy.value else prev.sortBy)
  }

  /** An empty update changes nothing; a second update of the same field
      wins over the first. */
  lemma MergeLaws(prev: Filters, a: FilterUpdate, b: FilterUpdate)
    ensures Merge(prev, FilterUpdate(None, None, None)) == prev
    ensures b.query.Some? && b.subsector.Some? && b.sortBy.Some? ==> Merge(Merge(prev, a), b) == Merge(prev, b)
  {
  }

  /** The domains chosen for export: all when no ids are given, otherwise
      those whose id is listed, in list order. */
  function ToExport(domains: seq<HookDomain>, ids: Option<seq<int>>): (r: seq<HookDomain>)
    ensures ids.None? ==> r == domains
    ensures ids == Some([]) ==> r == []
  {
    match ids
    case None => domains
    case Some(xs) =>
      var r := Filter(domains, (d: HookDomain) => d.id in xs);
      if xs == [] then
        FilterNone(domains, (d: HookDomain) => d.id in xs);
        r
      else r
  }

  /** Given ids, the chosen domains keep the loaded list's order. */
  lemma ToExportAppend(a: seq<HookDomain>, b: seq<HookDomain>, ids: Option<seq<int>>)
    ensures ToExport(a + b, ids) == ToExport(a, ids) + ToExport(b, ids)
    ensures ids.Some? && |a| == 1 ==> ToExport(a, ids) == (if a[0].id in ids.value then a else [])
  {
    if ids.Some? {
      FilterAppend(a, b, (d: HookDomain) => d.id in ids.value);
    }
  }

  lemma ToExportExact(domains: seq<HookDomain>, xs: seq<int>, d: HookDomain)
    ensures d in ToExport(domains, Some(xs)) <==> d in domains && d.id in xs
  {
    var r := ToExport(domains, Some(xs));
    if d in r {
      var k :| 0 <= k < |r| && r[k] == d;
    }
    if d in domains && d.id in xs {
      var k :| 0 <= k < |domains| && domains[k] == d;
    }
  }

  const ExportHeader := "ID,Name,Code,Subsector"

  /** One exported line: the id unquoted, the three texts quoted. */
  function ExportLine(d: HookDomain): string {
    IntToString(d.id) + "," + Quote(d.name) + "," + Quote(d.code) + "," + Quote(d.subsector)
  }

  function ExportLines(domains: seq<HookDomain>): (r: seq<string>)
    ensures |r| == |domains|
  {
    seq(|domains|, i requires 0 <= i < |domains| => ExportLine(domains[i]))
  }

  function ExportCsv(domains: seq<HookDomain>, ids: Option<seq<int>>): string {
    Join([ExportHeader] + ExportLines(ToExport(domains, ids)), "\n")
  }

  /** The id leads its line and reads back from it. */
  lemma ExportLineId(d: HookDomain)
    ensures var t := IntToString(d.id);
      && ExportLine(d)[..|t|] == t && ExportLine(d)[|t|] == ','
      && ParseInt(ExportLine(d)[..|t|]) == Some(d.id)
  {
    var t := IntToString(d.id);
    assert ExportLine(d)[..|t|] == t;
    ParseIntToString(d.id);
  }

  lemma ExportLineSingle(d: HookDomain)
    requires '\n' !in d.name && '\n' !in d.code && '\n' !in d.subsector
    ensures '\n' !in ExportLine(d)
  {
    IntToStringChars(d.id, '\n');
  }

  /** Exported lines of domains without line breaks hold none either. */
  lemma {:induction false} ExportLinesSingle(chosen: seq<HookDomain>)
    requires forall d :: d in chosen ==> '\n' !in d.name && '\n' !in d.code && '\n' !in d.subsector
    ensures forall j :: 0 <= j < |chosen| ==> '\n' !in ExportLines(chosen)[j]
  {
    forall j | 0 <= j < |chosen|
      ensures '\n' !in ExportLines(chosen)[j]
    {
      ExportLineSingle(chosen[j]);
    }
  }

  /** The exported domains come from the list. */
  lemma ToExportFrom(domains: seq<HookDomain>, ids: Option<seq<int>>)
    ensures forall d :: d in ToExport(domains, ids) ==> d in domains
  {
  }

  /** With no line break in the exported texts, the CSV splits back into
      the header and one line per exported domain. */
  lemma ExportCsvLines(domains: seq<HookDomain>, ids: Option<seq<int>>)
    requires forall d :: d in domains ==> '\n' !in d.name && '\n' !in d.code && '\n' !in d.subsector
    ensures Split(ExportCsv(domains, ids), '\n') == [ExportHeader] + ExportLines(ToExport(domains, ids))
    ensures |Split(ExportCsv(domains, ids), '\n')| == |ToExport(domains, ids)| + 1
  {
    var chosen := ToExport(domains, ids);
    ToExportFrom(domains, ids);
    ExportLinesSingle(chosen);
    LinesSplit(ExportHeader, ExportLines(chosen));
  }

  /** The hook's state: the current filters and the fetched list. */
  class DomainsHook {
    var filters: Filters
    var domains: seq<HookDomain>
    /** What getMockDomains returns. */
    const mock: seq<HookDomain>

    constructor ()
      ensures filters == InitialFilters && domains == [] && mock == MockDomains
    {
      filters := InitialFilters;
      domains := [];
      mock := MockDomains;
    }

    /** fetchDomains: narrow the fixture list step by step, then sort. */
    method FetchDomains()
      modifies this
      ensures domains == Fetched(mock, filters)
      ensures filters == old(filters)
    {
      var f := filters;
      var filtered := mock;
      if f.query != "" {
        filtered := Filter(filtered, (d: HookDomain) => QueryMatch(d, f.query));
      }
      if f.subsector != "" {
        filtered := Filter(filtered, (d: HookDomain) => d.subsector == f.subsector);
      }
      assert filtered == Narrowed(mock, f);
      if f.sortBy == "name" {
        filtered := SortBy(filtered, NameLe);
      } else if f.sortBy == "code" {
        filtered := SortBy(filtered, CodeLe);
      }
      domains := filtered;
    }

    /** updateFilters. */
    method UpdateFilters(upd: FilterUpdate)
      modifies this
      ensures filters == Merge(old(filters), upd)
      ensures domains == old(domains)
    {
      filters := Merge(filters, upd);
    }

    /** exportDomains over the current list. */
    method ExportDomains(ids: Option<seq<int>>) returns (csv: string)
      ensures csv == ExportCsv(domains, ids)
    {
      var chosen := ToExport(domains, ids);
      var lines := ExportLines(chosen);
      csv := Join([ExportHeader] + lines, "\n");
    }
  }
}
