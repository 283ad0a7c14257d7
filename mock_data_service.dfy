/** The mock data service: fixed reference lists, the by-parent lookups
    over them, a generator of fact-table records covering every
    (county, element, item, year) combination requested, and the CSV
    export of those records. Delays, dates and Math.random are not
    modelled as such: the random draws are parameters indexed by the
    record id. */
module MockDataService {
  import opened Base
  import opened ApiService

  /** The lists a service instance holds. */
  datatype Fixtures = Fixtures(
    counties: seq<County>, subsectors: seq<Subsector>, domains: seq<Domain>, subdomains: seq<SubDomain>,
    elements: seq<Element>, categories: seq<ItemCategory>, items: seq<Item>, units: seq<Unit>)

  // ---------------------------------------------------------------------
  // Reference lookups: the same parent-id filters as the REST client's,
  // over the service's own lists

  /** getSubdomainsByDomain: exactly the subdomains of that domain. */
  lemma SubdomainsOfDomain(svc: Fixtures, domainId: int, s: SubDomain, k: nat)
    ensures s in SubdomainsByDomain(svc.subdomains, domainId) <==> s in svc.subdomains && s.domain == domainId
    ensures k <= |svc.subdomains| ==>
      SubdomainsByDomain(svc.subdomains, domainId)
      == SubdomainsByDomain(svc.subdomains[..k], domainId) + SubdomainsByDomain(svc.subdomains[k..], domainId)
  {
    if k <= |svc.subdomains| {
      assert svc.subdomains == svc.subdomains[..k] + svc.subdomains[k..];
      SubdomainsByDomainAppend(svc.subdomains[..k], svc.subdomains[k..], domainId);
    }
    var r := SubdomainsByDomain(svc.subdomains, domainId);
    if s in r {
      var k :| 0 <= k < |r| && r[k] == s;
    }
    if s in svc.subdomains {
      var k :| 0 <= k < |svc.subdomains| && svc.subdomains[k] == s;
    }
  }

  /** getItemsBySubdomain: exactly the items whose element belongs to the
      subdomain. */
  lemma ItemsOfSubdomain(svc: Fixtures, subdomainId: int, i: Item, k: nat)
    ensures i in ItemsBySubdomain(svc.items, svc.elements, subdomainId) <==>
      i in svc.items && exists e :: e in svc.elements && e.subdomain == subdomainId && e.id == i.element
    ensures k <= |svc.items| ==>
      ItemsBySubdomain(svc.items, svc.elements, subdomainId)
      == ItemsBySubdomain(svc.items[..k], svc.elements, subdomainId)
         + ItemsBySubdomain(svc.items[k..], svc.elements, subdomainId)
  {
    if k <= |svc.items| {
      assert svc.items == svc.items[..k] + svc.items[k..];
      ItemsBySubdomainAppend(svc.items[..k], svc.items[k..], svc.elements, subdomainId);
    }
    var r := ItemsBySubdomain(svc.items, svc.elements, subdomainId);
    if i in r {
      var k :| 0 <= k < |r| && r[k] == i;
    }
    if i in svc.items {
      var k :| 0 <= k < |svc.items| && svc.items[k] == i;
    }
  }

  /** getItemCategoriesBySubdomain: exactly the categories used by an item
      of the subdomain. */
  lemma CategoriesOfSubdomain(svc: Fixtures, subdomainId: int, c: ItemCategory, k: nat)
    ensures c in ItemCategoriesBySubdomain(svc.items, svc.elements, svc.categories, subdomainId) <==>
      c in svc.categories &&
      exists i :: i in ItemsBySubdomain(svc.items, svc.elements, subdomainId) && i.itemcategory == c.id
    ensures k <= |svc.categories| ==>
      ItemCategoriesBySubdomain(svc.items, svc.elements, svc.categories, subdomainId)
      == ItemCategoriesBySubdomain(svc.items, svc.elements, svc.categories[..k], subdomainId)
         + ItemCategoriesBySubdomain(svc.items, svc.elements, svc.categories[k..], subdomainId)
  {
    if k <= |svc.categories| {
      assert svc.categories == svc.categories[..k] + svc.categories[k..];
      ItemCategoriesBySubdomainAppend(svc.items, svc.elements, svc.categories[..k], svc.categories[k..], subdomainId);
    }
    var r := ItemCategoriesBySubdomain(svc.items, svc.elements, svc.categories, subdomainId);
    if c in r {
      var k :| 0 <= k < |r| && r[k] == c;
    }
    if c in svc.categories {
      var k :| 0 <= k < |svc.categories| && svc.categories[k] == c;
    }
  }

  /** No name or unit abbreviation of the service's lists holds a line
      break. */
  predicate SingleLine(svc: Fixtures) {
    && (forall k :: 0 <= k < |svc.counties| ==> '\n' !in svc.counties[k].name)
    && (forall k :: 0 <= k < |svc.elements| ==> '\n' !in svc.elements[k].name)
    && (forall k :: 0 <= k < |svc.items| ==> '\n' !in svc.items[k].name)
    && (forall k :: 0 <= k < |svc.units| ==> '\n' !in svc.units[k].abbreviation)
  }

  // ---------------------------------------------------------------------
  // Element-dependent choices

  function ElementById(elements: seq<Element>, id: int): (r: Option<Element>)
    ensures r.Some? ==> r.value in elements && r.value.id == id
    ensures r.None? <==> forall k :: 0 <= k < |elements| ==> elements[k].id != id
    ensures forall k :: 0 <= k < |elements| && elements[k].id == id && (forall j :: 0 <= j < k ==> elements[j].id != id)
              ==> r == Some(elements[k])
  {
    Find(elements, (e: Element) => e.id == id)
  }

  /** Math.random() * scale + offset, written with `decimals` fraction
      digits by toFixed. */
  datatype ValueRange = ValueRange(scale: int, offset: int, decimals: nat)

  const ValueRanges: seq<(string, ValueRange)> := [
    ("Area", ValueRange(50000, 1000, 0)),
    ("Production", ValueRange(100000, 5000, 0)),
    ("Yield", ValueRange(5, 1, 2)),
    ("Population", ValueRange(1000000, 10000, 0))
  ]

  const OtherRange := ValueRange(10000, 0, 2)

  /** The range a generated value is drawn from: the first keyword the
      element's name contains; an unknown element takes the last branch. */
  function RangeFor(elements: seq<Element>, elementId: int): (r: ValueRange)
    ensures ElementById(elements, elementId).None? ==> r == OtherRange
    ensures r == OtherRange || exists k :: 0 <= k < |ValueRanges| && r == ValueRanges[k].1
  {
    match ElementById(elements, elementId)
    case None => OtherRange
    case Some(e) => FirstMatch(ValueRanges, (k: string) => Contains(e.name, k), OtherRange)
  }

  const UnitKeywords: seq<(string, int)> := [
    ("Area", 1), ("Production", 5), ("Yield", 7), ("Population", 6), ("Price", 3)
  ]

  /** getUnitForElement: 1 for an unknown element, else the unit of the
      first keyword its name contains, else 2. */
  function UnitForElement(elements: seq<Element>, elementId: int): (r: int)
    ensures ElementById(elements, elementId).None? ==> r == 1
  {
    match ElementById(elements, elementId)
    case None => 1
    case Some(e) => FirstMatch(UnitKeywords, (k: string) => Contains(e.name, k), 2)
  }

  /** Every unit getUnitForElement returns is one of the six it names. */
  lemma UnitRange(elements: seq<Element>, elementId: int)
    ensures UnitForElement(elements, elementId) in {1, 2, 3, 5, 6, 7}
  {
    var t := UnitKeywords;
    assert t[0].1 == 1 && t[1].1 == 5 && t[2].1 == 7 && t[3].1 == 6 && t[4].1 == 3;
  }

  /** The unit of the element at position `i`, the first with its id,
      whose name first contains keyword `k`. */
  lemma UnitAt(elements: seq<Element>, i: nat, k: nat)
    requires i < |elements| && forall j :: 0 <= j < i ==> elements[j].id != elements[i].id
    requires k < |UnitKeywords| && Contains(elements[i].name, UnitKeywords[k].0)
    requires forall j :: 0 <= j < k ==> !Contains(elements[i].name, UnitKeywords[j].0)
    ensures UnitForElement(elements, elements[i].id) == UnitKeywords[k].1
  {
  }

  /** The unit of the element at position `i`, the first with its id,
      whose name contains no keyword. */
  lemma UnitAtDefault(elements: seq<Element>, i: nat)
    requires i < |elements| && forall j :: 0 <= j < i ==> elements[j].id != elements[i].id
    requires forall j :: 0 <= j < |UnitKeywords| ==> !Contains(elements[i].name, UnitKeywords[j].0)
    ensures UnitForElement(elements, elements[i].id) == 2
  {
  }

  // ---------------------------------------------------------------------
  // Generated records

  /** The fields the generator sets; the two creation dates are left out. */
  datatype MockRecord = MockRecord(
    id: int, region: string, refyear: string, value: string, note: string,
    county: int, subsector: int, domain: int, subdomain: int,
    element: int, item: int, unit: int, flag: int, source: int)

  /** The random draws, by record id: the value text for a range, and the
      number compared with 0.8 for the flag. */
  datatype Draws = Draws(value: (nat, ValueRange) -> string, flag: nat -> real)

  /** (county, element, item, year) */
  type Combo = (int, int, int, int)

  /** `list || default` on an array: only an absent list falls back; an
      empty array is truthy and is kept. */
  function OrDefault(list: Option<seq<int>>, default: seq<int>): (r: seq<int>)
    ensures list.None? ==> r == default
    ensures list.Some? ==> r == list.value
  {
    if list.Some? then list.value else default
  }

  /** `params.subdomain || 1`: absent and 0 both become 1. */
  function SubdomainOr1(subdomain: Option<int>): (r: int)
    ensures r != 0
    ensures subdomain.Some? && subdomain.value != 0 ==> r == subdomain.value
    ensures subdomain.None? || subdomain.value == 0 ==> r == 1
  {
    if subdomain.Some? && subdomain.value != 0 then subdomain.value else 1
  }

  /** The items used for every element: an empty list is replaced. */
  function Relevant(items: seq<int>): (r: seq<int>)
    ensures r != []
    ensures items != [] ==> r == items
    ensures items == [] ==> r == [1, 2, 3]
  {
    if |items| > 0 then items else [1, 2, 3]
  }

  function Note(year: int): string {
    "Generated data for " + IntToString(year)
  }

  function MakeRecord(elements: seq<Element>, id: nat, t: Combo, subdomain: int, draws: Draws): MockRecord {
    MockRecord(id, "Kenya", IntToString(t.3), draws.value(id, RangeFor(elements, t.1)), Note(t.3),
               t.0, subdomain, 1, subdomain, t.1, t.2, UnitForElement(elements, t.1),
               if draws.flag(id) > 0.8 then 1 else 0, 1)
  }

  /** Records numbered from 1 in combination order. */
  function Records(elements: seq<Element>, ts: seq<Combo>, subdomain: int, draws: Draws): (r: seq<MockRecord>)
    ensures |r| == |ts|
    ensures forall k :: 0 <= k < |ts| ==> r[k] == MakeRecord(elements, k + 1, ts[k], subdomain, draws)
  {
    Numbered(ts, Maker(elements, subdomain, draws))
  }

  function Maker(elements: seq<Element>, subdomain: int, draws: Draws): (nat, Combo) -> MockRecord {
    (id: nat, t: Combo) => MakeRecord(elements, id, t, subdomain, draws)
  }

  /** `f(1, s[0]), f(2, s[1]), ...`: the image of each element under its
      1-based position. */
  function Numbered<A, B>(s: seq<A>, f: (nat, A) -> B): (r: seq<B>)
    ensures |r| == |s| && forall k :: 0 <= k < |s| ==> r[k] == f(k + 1, s[k])
  {
    seq(|s|, k requires 0 <= k < |s| => f(k + 1, s[k]))
  }

  lemma NumberedSnoc<A, B>(s: seq<A>, x: A, f: (nat, A) -> B)
    ensures Numbered(s + [x], f) == Numbered(s, f) + [f(|s| + 1, x)]
  {
    var a, b := Numbered(s + [x], f), Numbered(s, f);
    assert forall k :: 0 <= k < |s| ==> a[k] == b[k];
    assert (s + [x])[|s|] == x;
  }

  lemma RecordsSnoc(elements: seq<Element>, ts: seq<Combo>, t: Combo, subdomain: int, draws: Draws)
    ensures Records(elements, ts + [t], subdomain, draws)
         == Records(elements, ts, subdomain, draws) + [MakeRecord(elements, |ts| + 1, t, subdomain, draws)]
  {
    NumberedSnoc(ts, t, Maker(elements, subdomain, draws));
  }

  function YearRow(c: int, e: int, i: int, ys: seq<int>): (r: seq<Combo>)
    ensures |r| == |ys|
    ensures forall d :: 0 <= d < |ys| ==> r[d] == (c, e, i, ys[d])
  {
    seq(|ys|, d requires 0 <= d < |ys| => (c, e, i, ys[d]))
  }

  /** The blocks one after the other. */
  function Flat<T>(blocks: seq<seq<T>>): seq<T> {
    if blocks == [] then [] else Flat(blocks[..|blocks| - 1]) + blocks[|blocks| - 1]
  }

  /** The combinations for one county and element: a block of years per item. */
  function ItemRows(c: int, e: int, its: seq<int>, ys: seq<int>): seq<Combo> {
    Flat(seq(|its|, i requires 0 <= i < |its| => YearRow(c, e, its[i], ys)))
  }

  /** The combinations for one county: a block per element. */
  function ElementRows(c: int, es: seq<int>, its: seq<int>, ys: seq<int>): seq<Combo> {
    Flat(seq(|es|, b requires 0 <= b < |es| => ItemRows(c, es[b], its, ys)))
  }

  /** All combinations: a block per county. */
  function CountyRows(cs: seq<int>, es: seq<int>, its: seq<int>, ys: seq<int>): seq<Combo> {
    Flat(seq(|cs|, a requires 0 <= a < |cs| => ElementRows(cs[a], es, its, ys)))
  }

  /** The four lists the generator walks, defaults applied. */
  function Lists(params: KilimoDataParams): (seq<int>, seq<int>, seq<int>, seq<int>) {
    (OrDefault(params.counties, [1, 2, 3]), OrDefault(params.elements, [1, 2, 3]),
     Relevant(OrDefault(params.items, [1, 2, 3])), OrDefault(params.years, [2023, 2024]))
  }

  /** What getKilimoData returns for the parameters and the draws. */
  function KilimoData(svc: Fixtures, params: KilimoDataParams, draws: Draws): seq<MockRecord> {
    var (cs, es, its, ys) := Lists(params);
    Records(svc.elements, CountyRows(cs, es, its, ys), SubdomainOr1(params.subdomain), draws)
  }

  /** getKilimoData: nested walks over counties, elements, items and
      years, numbering the records with a running counter. Each nested
      callback of the source is one method below. */
  method GetKilimoData(svc: Fixtures, params: KilimoDataParams, draws: Draws) returns (data: seq<MockRecord>)
    ensures data == KilimoData(svc, params, draws)
  {
    var counties := if params.counties.Some? then params.counties.value else [1, 2, 3];
    var elements := if params.elements.Some? then params.elements.value else [1, 2, 3];
    var items := if params.items.Some? then params.items.value else [1, 2, 3];
    var years := if params.years.Some? then params.years.value else [2023, 2024];
    var subdomain := if params.subdomain.Some? && params.subdomain.value != 0 then params.subdomain.value else 1;
    data := [];
    var idCounter := 1;
    ghost var done: seq<Combo> := [];
    for a := 0 to |counties|
      invariant done == CountyRows(counties[..a], elements, Relevant(items), years)
      invariant data == Records(svc.elements, done, subdomain, draws) && idCounter == |data| + 1
    {
      data, idCounter := PushElements(svc, data, idCounter, done, counties[a], elements, items, years, subdomain, draws);
      CountyRowsStep(counties, a, elements, Relevant(items), years);
      done := done + ElementRows(counties[a], elements, Relevant(items), years);
    }
    assert counties[..|counties|] == counties;
    assert (counties, elements, Relevant(items), years) == Lists(params);
  }

  lemma CountyRowsStep(cs: seq<int>, a: nat, es: seq<int>, its: seq<int>, ys: seq<int>)
    requires a < |cs|
    ensures CountyRows(cs[..a + 1], es, its, ys) == CountyRows(cs[..a], es, its, ys) + ElementRows(cs[a], es, its, ys)
  {
    var blocks := seq(a + 1, k requires 0 <= k < a + 1 => ElementRows(cs[..a + 1][k], es, its, ys));
    assert blocks[..a] == seq(a, k requires 0 <= k < a => ElementRows(cs[..a][k], es, its, ys));
  }

  lemma ElementRowsStep(pre: seq<Combo>, c: int, es: seq<int>, b: nat, its: seq<int>, ys: seq<int>)
    requires b < |es|
    ensures pre + ElementRows(c, es[..b + 1], its, ys)
         == (pre + ElementRows(c, es[..b], its, ys)) + ItemRows(c, es[b], its, ys)
  {
    var blocks := seq(b + 1, k requires 0 <= k < b + 1 => ItemRows(c, es[..b + 1][k], its, ys));
    assert blocks[..b] == seq(b, k requires 0 <= k < b => ItemRows(c, es[..b][k], its, ys));
  }

  lemma ItemRowsStep(pre: seq<Combo>, c: int, e: int, its: seq<int>, i: nat, ys: seq<int>)
    requires i < |its|
    ensures pre + ItemRows(c, e, its[..i + 1], ys) == (pre + ItemRows(c, e, its[..i], ys)) + YearRow(c, e, its[i], ys)
  {
    var blocks := seq(i + 1, k requires 0 <= k < i + 1 => YearRow(c, e, its[..i + 1][k], ys));
    assert blocks[..i] == seq(i, k requires 0 <= k < i => YearRow(c, e, its[..i][k], ys));
  }

  lemma YearRowStep(pre: seq<Combo>, c: int, e: int, i: int, ys: seq<int>, d: nat)
    requires d < |ys|
    ensures pre + YearRow(c, e, i, ys[..d + 1]) == (pre + YearRow(c, e, i, ys[..d])) + [(c, e, i, ys[d])]
  {
    assert YearRow(c, e, i, ys[..d + 1]) == YearRow(c, e, i, ys[..d]) + [(c, e, i, ys[d])];
  }

  method PushElements(svc: Fixtures, data: seq<MockRecord>, idCounter: int, ghost done: seq<Combo>,
                      countyId: int, elements: seq<int>, items: seq<int>, years: seq<int>,
                      subdomain: int, draws: Draws)
    returns (data': seq<MockRecord>, idCounter': int)
    requires data == Records(svc.elements, done, subdomain, draws) && idCounter == |data| + 1
    ensures data' == Records(svc.elements, done + ElementRows(countyId, elements, Relevant(items), years), subdomain, draws)
    ensures idCounter' == |data'| + 1
  {
    data', idCounter' := data, idCounter;
    ghost var now := done;
    for b := 0 to |elements|
      invariant now == done + ElementRows(countyId, elements[..b], Relevant(items), years)
      invariant data' == Records(svc.elements, now, subdomain, draws) && idCounter' == |data'| + 1
    {
      var relevantItems := if |items| > 0 then items else [1, 2, 3];
      data', idCounter' := PushItems(svc, data', idCounter', now, countyId, elements[b], relevantItems, years,
                                     subdomain, draws);
      ElementRowsStep(done, countyId, elements, b, relevantItems, years);
      now := now + ItemRows(countyId, elements[b], relevantItems, years);
    }
    assert elements[..|elements|] == elements;
  }

  method PushItems(svc: Fixtures, data: seq<MockRecord>, idCounter: int, ghost done: seq<Combo>,
                   countyId: int, elementId: int, items: seq<int>, years: seq<int>,
                   subdomain: int, draws: Draws)
    returns (data': seq<MockRecord>, idCounter': int)
    requires data == Records(svc.elements, done, subdomain, draws) && idCounter == |data| + 1
    ensures data' == Records(svc.elements, done + ItemRows(countyId, elementId, items, years), subdomain, draws)
    ensures idCounter' == |data'| + 1
  {
    data', idCounter' := data, idCounter;
    ghost var now := done;
    for i := 0 to |items|
      invariant now == done + ItemRows(countyId, elementId, items[..i], years)
      invariant data' == Records(svc.elements, now, subdomain, draws) && idCounter' == |data'| + 1
    {
      data', idCounter' := PushYears(svc, data', idCounter', now, countyId, elementId, items[i], years,
                                     subdomain, draws);
      ItemRowsStep(done, countyId, elementId, items, i, years);
      now := now + YearRow(countyId, elementId, items[i], years);
    }
    assert items[..|items|] == items;
  }

  method PushYears(svc: Fixtures, data: seq<MockRecord>, idCounter: int, ghost done: seq<Combo>,
                   countyId: int, elementId: int, itemId: int, years: seq<int>,
                   subdomain: int, draws: Draws)
    returns (data': seq<MockRecord>, idCounter': int)
    requires data == Records(svc.elements, done, subdomain, draws) && idCounter == |data| + 1
    ensures data' == Records(svc.elements, done + YearRow(countyId, elementId, itemId, years), subdomain, draws)
    ensures idCounter' == |data'| + 1
  {
    data', idCounter' := data, idCounter;
    ghost var now := done;
    for d := 0 to |years|
      invariant now == done + YearRow(countyId, elementId, itemId, years[..d])
      invariant data' == Records(svc.elements, now, subdomain, draws) && idCounter' == |data'| + 1
    {
      var year := years[d];
      var value := draws.value(idCounter', RangeFor(svc.elements, elementId));
      var flag := if draws.flag(idCounter') > 0.8 then 1 else 0;
      var rec := MockRecord(idCounter', "Kenya", IntToString(year), value, "Generated data for " + IntToString(year),
                            countyId, subdomain, 1, subdomain, elementId, itemId,
                            UnitForElement(svc.elements, elementId), flag, 1);
      RecordsSnoc(svc.elements, now, (countyId, elementId, itemId, year), subdomain, draws);
      data' := data' + [rec];
      now := now + [(countyId, elementId, itemId, year)];
      idCounter' := idCounter' + 1;
      YearRowStep(done, countyId, elementId, itemId, years, d);
    }
    assert years[..|years|] == years;
  }

  // ---------------------------------------------------------------------
  // Count and order of the generated records

  /** `x * y` by repeated addition; the lemmas below reason about it by
      unfolding rather than through nonlinear arithmetic. */
  function Times(x: nat, y: nat): nat {
    if x == 0 then 0 else Times(x - 1, y) + y
  }

  lemma {:induction false} TimesProduct(x: nat, y: nat)
    ensures Times(x, y) == x * y
  {
    if x > 0 {
      TimesProduct(x - 1, y);
    }
  }

  lemma {:induction false} TimesMono(x: nat, y: nat, m: nat)
    requires x <= y
    ensures Times(x, m) <= Times(y, m)
    decreases y - x
  {
    if x < y {
      TimesMono(x + 1, y, m);
    }
  }

  lemma {:induction false} TimesZero(x: nat)
    ensures Times(x, 0) == 0
  {
    if x > 0 {
      TimesZero(x - 1);
    }
  }

  /** Blocks of equal size `m` flatten to `Times(n, m)` elements, and
      element `x` of block `a` lands at `Times(a, m) + x`. */
  lemma {:induction false} FlatLength<T>(blocks: seq<seq<T>>, m: nat)
    requires forall k :: 0 <= k < |blocks| ==> |blocks[k]| == m
    ensures |Flat(blocks)| == Times(|blocks|, m)
  {
    if blocks != [] {
      FlatLength(blocks[..|blocks| - 1], m);
    }
  }

  lemma {:induction false} FlatAt<T>(blocks: seq<seq<T>>, m: nat, a: nat, x: nat)
    requires forall k :: 0 <= k < |blocks| ==> |blocks[k]| == m
    requires a < |blocks| && x < m
    ensures Times(a, m) + x < |Flat(blocks)|
    ensures Flat(blocks)[Times(a, m) + x] == blocks[a][x]
  {
    var n := |blocks| - 1;
    FlatLength(blocks[..n], m);
    if a < n {
      FlatAt(blocks[..n], m, a, x);
      TimesMono(a + 1, n, m);
    }
  }

  lemma ItemRowsLength(c: int, e: int, its: seq<int>, ys: seq<int>)
    ensures |ItemRows(c, e, its, ys)| == Times(|its|, |ys|)
  {
    FlatLength(seq(|its|, i requires 0 <= i < |its| => YearRow(c, e, its[i], ys)), |ys|);
  }

  lemma ElementRowsLength(c: int, es: seq<int>, its: seq<int>, ys: seq<int>)
    ensures |ElementRows(c, es, its, ys)| == Times(|es|, Times(|its|, |ys|))
  {
    var blocks := seq(|es|, b requires 0 <= b < |es| => ItemRows(c, es[b], its, ys));
    forall b | 0 <= b < |es|
      ensures |blocks[b]| == Times(|its|, |ys|)
    {
      ItemRowsLength(c, es[b], its, ys);
    }
    FlatLength(blocks, Times(|its|, |ys|));
  }

  lemma CountyRowsLength(cs: seq<int>, es: seq<int>, its: seq<int>, ys: seq<int>)
    ensures |CountyRows(cs, es, its, ys)| == Times(|cs|, Times(|es|, Times(|its|, |ys|)))
  {
    var blocks := seq(|cs|, a requires 0 <= a < |cs| => ElementRows(cs[a], es, its, ys));
    forall a | 0 <= a < |cs|
      ensures |blocks[a]| == Times(|es|, Times(|its|, |ys|))
    {
      ElementRowsLength(cs[a], es, its, ys);
    }
    FlatLength(blocks, Times(|es|, Times(|its|, |ys|)));
  }

  lemma ItemRowsAt(c: int, e: int, its: seq<int>, ys: seq<int>, i: nat, d: nat)
    requires i < |its| && d < |ys|
    ensures Times(i, |ys|) + d < |ItemRows(c, e, its, ys)|
    ensures ItemRows(c, e, its, ys)[Times(i, |ys|) + d] == (c, e, its[i], ys[d])
  {
    FlatAt(seq(|its|, k requires 0 <= k < |its| => YearRow(c, e, its[k], ys)), |ys|, i, d);
  }

  lemma ElementRowsAt(c: int, es: seq<int>, its: seq<int>, ys: seq<int>, b: nat, x: nat)
    requires b < |es| && x < Times(|its|, |ys|)
    ensures |ItemRows(c, es[b], its, ys)| == Times(|its|, |ys|)
    ensures Times(b, Times(|its|, |ys|)) + x < |ElementRows(c, es, its, ys)|
    ensures ElementRows(c, es, its, ys)[Times(b, Times(|its|, |ys|)) + x] == ItemRows(c, es[b], its, ys)[x]
  {
    var blocks := seq(|es|, k requires 0 <= k < |es| => ItemRows(c, es[k], its, ys));
    forall k | 0 <= k < |es|
      ensures |blocks[k]| == Times(|its|, |ys|)
    {
      ItemRowsLength(c, es[k], its, ys);
    }
    FlatAt(blocks, Times(|its|, |ys|), b, x);
  }

  lemma CountyRowsAt(cs: seq<int>, es: seq<int>, its: seq<int>, ys: seq<int>, a: nat, x: nat)
    requires a < |cs| && x < Times(|es|, Times(|its|, |ys|))
    ensures |ElementRows(cs[a], es, its, ys)| == Times(|es|, Times(|its|, |ys|))
    ensures Times(a, Times(|es|, Times(|its|, |ys|))) + x < |CountyRows(cs, es, its, ys)|
    ensures CountyRows(cs, es, its, ys)[Times(a, Times(|es|, Times(|its|, |ys|))) + x]
         == ElementRows(cs[a], es, its, ys)[x]
  {
    var blocks := seq(|cs|, k requires 0 <= k < |cs| => ElementRows(cs[k], es, its, ys));
    forall k | 0 <= k < |cs|
      ensures |blocks[k]| == Times(|es|, Times(|its|, |ys|))
    {
      ElementRowsLength(cs[k], es, its, ys);
    }
    FlatAt(blocks, Times(|es|, Times(|its|, |ys|)), a, x);
  }

  /** One record per combination: the product of the four list lengths,
      an empty item list counting as the three default items. */
  lemma KilimoDataCount(svc: Fixtures, params: KilimoDataParams, draws: Draws)
    ensures |KilimoData(svc, params, draws)|
         == |Lists(params).0| * (|Lists(params).1| * (|Lists(params).2| * |Lists(params).3|))
  {
    var (cs, es, its, ys) := Lists(params);
    CountyRowsLength(cs, es, its, ys);
    TimesProduct(|its|, |ys|);
    TimesProduct(|es|, |its| * |ys|);
    TimesProduct(|cs|, |es| * (|its| * |ys|));
  }

  /** With no parameters the generator makes 3 * 3 * 3 * 2 records. */
  lemma DefaultCount(svc: Fixtures, draws: Draws)
    ensures |KilimoData(svc, KilimoDataParams(None, None, None, None, None), draws)| == 54
  {
    CountyRowsLength([1, 2, 3], [1, 2, 3], [1, 2, 3], [2023, 2024]);
    TimesProduct(3, 2);
    TimesProduct(3, 6);
    TimesProduct(3, 18);
  }

  /** An explicitly empty county, element or year list yields no record,
      while an empty item list falls back to the three default items. */
  lemma EmptyLists(svc: Fixtures, params: KilimoDataParams, draws: Draws)
    ensures params.counties == Some([]) ==> KilimoData(svc, params, draws) == []
    ensures params.elements == Some([]) ==> KilimoData(svc, params, draws) == []
    ensures params.years == Some([]) ==> KilimoData(svc, params, draws) == []
    ensures params.items == Some([])
         ==> KilimoData(svc, params, draws) == KilimoData(svc, params.(items := Some([1, 2, 3])), draws)
  {
    var (cs, es, its, ys) := Lists(params);
    CountyRowsLength(cs, es, its, ys);
    TimesZero(|cs|);
    TimesZero(|es|);
    TimesZero(|its|);
  }

  /** Combination (b, i, d) of one county's element, item and year lists
      sits at its position in nested order. */
  lemma ElementItemAt(c: int, es: seq<int>, its: seq<int>, ys: seq<int>, b: nat, i: nat, d: nat)
    requires b < |es| && i < |its| && d < |ys|
    ensures var y := Times(b, Times(|its|, |ys|)) + Times(i, |ys|) + d;
      y < Times(|es|, Times(|its|, |ys|)) && y < |ElementRows(c, es, its, ys)|
      && ElementRows(c, es, its, ys)[y] == (c, es[b], its[i], ys[d])
  {
    ItemRowsAt(c, es[b], its, ys, i, d);
    ItemRowsLength(c, es[b], its, ys);
    var x := Times(i, |ys|) + d;
    TimesMono(i + 1, |its|, |ys|);
    ElementRowsAt(c, es, its, ys, b, x);
    TimesMono(b + 1, |es|, Times(|its|, |ys|));
  }

  /** Combination (a, b, i, d) of the four lists sits at its position in
      nested order. */
  lemma RowsAt(cs: seq<int>, es: seq<int>, its: seq<int>, ys: seq<int>, a: nat, b: nat, i: nat, d: nat)
    requires a < |cs| && b < |es| && i < |its| && d < |ys|
    ensures var k := Times(a, Times(|es|, Times(|its|, |ys|))) + Times(b, Times(|its|, |ys|)) + Times(i, |ys|) + d;
      k < |CountyRows(cs, es, its, ys)| && CountyRows(cs, es, its, ys)[k] == (cs[a], es[b], its[i], ys[d])
  {
    ElementItemAt(cs[a], es, its, ys, b, i, d);
    CountyRowsAt(cs, es, its, ys, a, Times(b, Times(|its|, |ys|)) + Times(i, |ys|) + d);
  }

  /** The record for county `a`, element `b`, item `i` and year `d` of the
      walked lists sits at the position of that combination in nested
      order (`Times` is the product, see TimesProduct), carries that
      position plus one as id, and the year as its text. */
  lemma KilimoDataAt(svc: Fixtures, params: KilimoDataParams, draws: Draws,
                     cs: seq<int>, es: seq<int>, its: seq<int>, ys: seq<int>, a: nat, b: nat, i: nat, d: nat)
    requires Lists(params) == (cs, es, its, ys)
    requires a < |cs| && b < |es| && i < |its| && d < |ys|
    ensures
      var k := Times(a, Times(|es|, Times(|its|, |ys|))) + Times(b, Times(|its|, |ys|)) + Times(i, |ys|) + d;
      var data := KilimoData(svc, params, draws);
      k < |data| && Carries(data[k], k + 1, (cs[a], es[b], its[i], ys[d]))
  {
    var k := Times(a, Times(|es|, Times(|its|, |ys|))) + Times(b, Times(|its|, |ys|)) + Times(i, |ys|) + d;
    RowsAt(cs, es, its, ys, a, b, i, d);
    KilimoDataRow(svc, params, draws, k, (cs[a], es[b], its[i], ys[d]));
  }

  /** The record made from the combination `t` at position `k`. */
  lemma KilimoDataRow(svc: Fixtures, params: KilimoDataParams, draws: Draws, k: nat, t: Combo)
    requires var (cs, es, its, ys) := Lists(params);
      k < |CountyRows(cs, es, its, ys)| && CountyRows(cs, es, its, ys)[k] == t
    ensures var data := KilimoData(svc, params, draws);
      k < |data| && Carries(data[k], k + 1, t)
  {
  }

  /** Record `r` has id `id` and was made from the combination `t`: its
      county, element and item, and the year as its text and in its note. */
  predicate Carries(r: MockRecord, id: int, t: Combo) {
    && r.id == id && r.county == t.0 && r.element == t.1 && r.item == t.2
    && r.refyear == IntToString(t.3) && r.note == Note(t.3)
  }

  /** The fields every generated record shares, and those that follow
      from its element: the year text reads back as a number, the flag is
      0 or 1, subsector and subdomain both take `params.subdomain || 1`. */
  lemma KilimoDataFields(svc: Fixtures, params: KilimoDataParams, draws: Draws, k: nat)
    requires k < |KilimoData(svc, params, draws)|
    ensures var r := KilimoData(svc, params, draws)[k];
      && r.region == "Kenya" && r.domain == 1 && r.source == 1
      && r.subsector == r.subdomain == SubdomainOr1(params.subdomain)
      && r.unit == UnitForElement(svc.elements, r.element)
      && r.value == draws.value(r.id, RangeFor(svc.elements, r.element))
      && (r.flag == 1 <==> draws.flag(r.id) > 0.8) && r.flag in {0, 1}
      && ParseInt(r.refyear).Some? && IntToString(ParseInt(r.refyear).value) == r.refyear
      && r.note == "Generated data for " + r.refyear
  {
    var (cs, es, its, ys) := Lists(params);
    ParseIntToString(CountyRows(cs, es, its, ys)[k].3);
  }

  // ---------------------------------------------------------------------
  // CSV download

  const CsvHeaders: seq<string> := ["County", "Element", "Item", "Year", "Value", "Unit", "Region", "Flag", "Note"]

  /** The county's name, or its id as text when no county has that id or
      the name is empty. */
  function CountyLabel(svc: Fixtures, id: int): (r: string)
    ensures r != []
    ensures (forall k :: 0 <= k < |svc.counties| ==> svc.counties[k].id != id) ==> r == IntToString(id)
    ensures forall k ::
              (0 <= k < |svc.counties| && svc.counties[k].id == id && svc.counties[k].name != "" &&
               (forall j :: 0 <= j < k ==> svc.counties[j].id != id)) ==> r == svc.counties[k].name
  {
    match Find(svc.counties, (c: County) => c.id == id)
    case Some(c) => if c.name != "" then c.name else IntToString(id)
    case None => IntToString(id)
  }

  function ElementLabel(svc: Fixtures, id: int): (r: string)
    ensures r != []
    ensures (forall k :: 0 <= k < |svc.elements| ==> svc.elements[k].id != id) ==> r == IntToString(id)
    ensures forall k ::
              (0 <= k < |svc.elements| && svc.elements[k].id == id && svc.elements[k].name != "" &&
               (forall j :: 0 <= j < k ==> svc.elements[j].id != id)) ==> r == svc.elements[k].name
  {
    match Find(svc.elements, (e: Element) => e.id == id)
    case Some(e) => if e.name != "" then e.name else IntToString(id)
    case None => IntToString(id)
  }

  function ItemLabel(svc: Fixtures, id: int): (r: string)
    ensures r != []
    ensures (forall k :: 0 <= k < |svc.items| ==> svc.items[k].id != id) ==> r == IntToString(id)
    ensures forall k ::
              (0 <= k < |svc.items| && svc.items[k].id == id && svc.items[k].name != "" &&
               (forall j :: 0 <= j < k ==> svc.items[j].id != id)) ==> r == svc.items[k].name
  {
    match Find(svc.items, (i: Item) => i.id == id)
    case Some(i) => if i.name != "" then i.name else IntToString(id)
    case None => IntToString(id)
  }

  /** The unit's abbreviation, or "" when no unit has that id. */
  function UnitLabel(svc: Fixtures, id: int): (r: string)
    ensures (forall k :: 0 <= k < |svc.units| ==> svc.units[k].id != id) ==> r == ""
    ensures forall k ::
              (0 <= k < |svc.units| && svc.units[k].id == id &&
               (forall j :: 0 <= j < k ==> svc.units[j].id != id)) ==> r == svc.units[k].abbreviation
  {
    match Find(svc.units, (u: Unit) => u.id == id)
    case Some(u) => u.abbreviation
    case None => ""
  }

  /** The nine cells of a record's row; text cells are quoted, the year,
      value and flag are not. */
  function CsvFields(svc: Fixtures, r: MockRecord): (f: seq<string>)
    ensures |f| == |CsvHeaders|
  {
    [Quote(CountyLabel(svc, r.county)), Quote(ElementLabel(svc, r.element)), Quote(ItemLabel(svc, r.item)),
     r.refyear, r.value, Quote(UnitLabel(svc, r.unit)), Quote(r.region), IntToString(r.flag), Quote(r.note)]
  }

  /** The record lines, in record order. */
  function CsvRows(svc: Fixtures, data: seq<MockRecord>): (rows: seq<string>)
    ensures |rows| == |data| && forall k :: 0 <= k < |data| ==> rows[k] == CsvRow(svc, data[k])
  {
    MapSeq(data, RowWriter(svc))
  }

  function RowWriter(svc: Fixtures): MockRecord -> string {
    r => CsvRow(svc, r)
  }

  /** One record's CSV line: its fields joined by commas. */
  function CsvRow(svc: Fixtures, r: MockRecord): string {
    Join(CsvFields(svc, r), ",")
  }

  /** The header line, then one line per record, joined by line breaks. */
  function KilimoCsv(svc: Fixtures, data: seq<MockRecord>): string {
    Join([Join(CsvHeaders, ",")] + CsvRows(svc, data), "\n")
  }

  lemma CsvRowsStep(svc: Fixtures, pre: seq<string>, data: seq<MockRecord>, k: nat)
    requires k < |data|
    ensures pre + CsvRows(svc, data[..k + 1]) == (pre + CsvRows(svc, data[..k])) + [CsvRow(svc, data[k])]
  {
    MapSeqNext(data, RowWriter(svc), k);
    AppendAssoc(pre, CsvRows(svc, data[..k]), [CsvRow(svc, data[k])]);
  }

  /** downloadKilimoData: generates the records and writes them as CSV. */
  method DownloadKilimoData(svc: Fixtures, params: KilimoDataParams, draws: Draws) returns (csv: string)
    ensures csv == KilimoCsv(svc, KilimoData(svc, params, draws))
  {
    var data := GetKilimoData(svc, params, draws);
    var header := Join(CsvHeaders, ",");
    var csvRows := [header];
    for k := 0 to |data|
      invariant csvRows == [header] + CsvRows(svc, data[..k])
    {
      CsvRowsStep(svc, [header], data, k);
      csvRows := csvRows + [CsvRow(svc, data[k])];
    }
    assert data[..|data|] == data;
    csv := Join(csvRows, "\n");
  }

  lemma HeaderSingleLine()
    ensures '\n' !in Join(CsvHeaders, ",")
  {
    JoinAvoids(CsvHeaders, ",", '\n');
  }

  lemma QuoteSingleLine(t: string)
    requires '\n' !in t
    ensures '\n' !in Quote(t)
  {
  }

  lemma LabelsSingleLine(svc: Fixtures, r: MockRecord)
    requires SingleLine(svc)
    ensures '\n' !in CountyLabel(svc, r.county) && '\n' !in ElementLabel(svc, r.element)
    ensures '\n' !in ItemLabel(svc, r.item) && '\n' !in UnitLabel(svc, r.unit)
  {
    IntToStringChars(r.county, '\n');
    IntToStringChars(r.element, '\n');
    IntToStringChars(r.item, '\n');
  }

  /** Nine cells laid out as a record's row avoid a line break when the
      texts they are made of do. */
  lemma CellsSingleLine(county: string, element: string, item: string, year: string, value: string,
                        unit: string, region: string, flag: string, note: string)
    requires '\n' !in county && '\n' !in element && '\n' !in item && '\n' !in year && '\n' !in value
    requires '\n' !in unit && '\n' !in region && '\n' !in flag && '\n' !in note
    ensures '\n' !in Join([Quote(county), Quote(element), Quote(item), year, value,
                           Quote(unit), Quote(region), flag, Quote(note)], ",")
  {
    var f := [Quote(county), Quote(element), Quote(item), year, value, Quote(unit), Quote(region), flag, Quote(note)];
    forall k | 0 <= k < |f|
      ensures '\n' !in f[k]
    {
    }
    JoinAvoids(f, ",", '\n');
  }

  /** A record's row holds no line break when neither the service's names
      nor the record's own texts do. */
  lemma RowSingleLine(svc: Fixtures, r: MockRecord)
    requires SingleLine(svc)
    requires '\n' !in r.refyear && '\n' !in r.value && '\n' !in r.region && '\n' !in r.note
    ensures '\n' !in CsvRow(svc, r)
  {
    LabelsSingleLine(svc, r);
    IntToStringChars(r.flag, '\n');
    CellsSingleLine(CountyLabel(svc, r.county), ElementLabel(svc, r.element), ItemLabel(svc, r.item),
                    r.refyear, r.value, UnitLabel(svc, r.unit), r.region, IntToString(r.flag), r.note);
  }

  lemma NoteSingleLine(year: string)
    requires '\n' !in year
    ensures '\n' !in "Generated data for " + year
  {
    var prefix := "Generated data for ";
    forall j | 0 <= j < |prefix|
      ensures prefix[j] != '\n'
    {
    }
  }

  /** A generated record's row holds no line break when the service's
      names and the drawn values hold none. */
  lemma RecordSingleLine(svc: Fixtures, params: KilimoDataParams, draws: Draws, k: nat)
    requires SingleLine(svc)
    requires forall id: nat, range: ValueRange :: '\n' !in draws.value(id, range)
    requires k < |KilimoData(svc, params, draws)|
    ensures '\n' !in CsvRow(svc, KilimoData(svc, params, draws)[k])
  {
    var r := KilimoData(svc, params, draws)[k];
    GeneratedTexts(svc, params, draws, k);
    RowSingleLine(svc, r);
  }

  /** The texts of a generated record hold no line break when the drawn
      values hold none. */
  lemma GeneratedTexts(svc: Fixtures, params: KilimoDataParams, draws: Draws, k: nat)
    requires forall id: nat, range: ValueRange :: '\n' !in draws.value(id, range)
    requires k < |KilimoData(svc, params, draws)|
    ensures var r := KilimoData(svc, params, draws)[k];
      '\n' !in r.refyear && '\n' !in r.value && '\n' !in r.region && '\n' !in r.note
  {
    var r := KilimoData(svc, params, draws)[k];
    KilimoDataFields(svc, params, draws, k);
    IntToStringChars(ParseInt(r.refyear).value, '\n');
    NoteSingleLine(r.refyear);
  }

  /** When the service's names and the drawn values hold no line break,
      the CSV splits back into its header and one line per record. */
  lemma CsvLines(svc: Fixtures, params: KilimoDataParams, draws: Draws)
    requires SingleLine(svc)
    requires forall id: nat, range: ValueRange :: '\n' !in draws.value(id, range)
    ensures var data := KilimoData(svc, params, draws);
      && Split(KilimoCsv(svc, data), '\n') == [Join(CsvHeaders, ",")] + CsvRows(svc, data)
      && |Split(KilimoCsv(svc, data), '\n')| == |data| + 1
  {
    var data := KilimoData(svc, params, draws);
    forall k | 0 <= k < |data|
      ensures '\n' !in CsvRow(svc, data[k])
    {
      RecordSingleLine(svc, params, draws, k);
    }
    HeaderSingleLine();
    var header, rows := Join(CsvHeaders, ","), CsvRows(svc, data);
    LinesSplit(header, rows);
  }
}
