/** The REST data-service layer (src/services/apiService.ts): proxy URL
    rewriting, memoised endpoint discovery, the paging walk over the three
    response shapes, the parent-id reference filters, the fact-table query
    and its CSV export. The network is a function from URL to response. */
module ApiService {
  import opened Base

  const ApiBaseUrl := "/kilimostat-api"
  const InternalOrigin := "https://10.101.100.251"
  const InternalPathPrefix := "/en/kilimostat-api"

  /** Origin and path prefix of the internal API, as one URL prefix. */
  const InternalApi := InternalOrigin + InternalPathPrefix

  // ---------------------------------------------------------------------
  // Reference entities

  datatype County = County(id: int, name: string, code: string)
  datatype Domain = Domain(id: int, name: string, code: string, description: string, subsector: int)
  datatype SubDomain = SubDomain(id: int, name: string, code: string, description: string, domain: int)
  datatype Element = Element(id: int, name: string, code: string, description: string, subdomain: int)
  datatype Item = Item(id: int, name: string, code: string, description: string,
                       element: int, itemcategory: int, periodicity: string)
  datatype ItemCategory = ItemCategory(id: int, name: string, code: string, description: string)
  datatype Unit = Unit(id: int, name: string, abbreviation: string, description: string)
  datatype Subsector = Subsector(id: int, name: string, code: string, description: string)

  /** A fact-table record, every field as the text the API sends. */
  datatype KilimoDataRecord = KilimoDataRecord(
    id: int, county: string, subsector: string, domain: string, subdomain: string,
    element: string, item: string, source: string, flag: string, unit: string,
    region: string, refyear: string, value: string, note: string,
    dateCreated: string, dateUpdated: string)

  // ---------------------------------------------------------------------
  // toProxyUrl

  /** Replaces the internal API prefix by the proxy path. The prefix is
      replaced where it first occurs, which is at position 0 once the
      startsWith test has passed. */
  function ToProxyUrl(url: string): (r: string)
    ensures InternalApi <= url ==> ApiBaseUrl <= r && r[|ApiBaseUrl|..] == url[|InternalApi|..]
    ensures !(InternalApi <= url) ==> r == url
    ensures !(InternalApi <= r)
  {
    if InternalApi <= url then
      var r := ApiBaseUrl + url[|InternalApi|..];
      assert r[0] != InternalApi[0];
      r
    else url
  }

  /** A URL that went through toProxyUrl is never rewritten again. */
  lemma ToProxyUrlIdempotent(url: string)
    ensures ToProxyUrl(ToProxyUrl(url)) == ToProxyUrl(url)
  {
  }

  // ---------------------------------------------------------------------
  // Responses and the paging walk

  /** What one fetch of a URL yields: a bare array, a paging envelope with
      an optional `next` link, any other JSON object, or a non-ok status. */
  datatype Response<T> =
    | Array(items: seq<T>)
    | Envelope(results: seq<T>, next: Option<string>)
    | Single(item: T)
    | HttpError(status: int)

  /** The outcome of a request chain: the value, the status of the first
      page that was not ok (the error thrown), or a walk that had not ended
      after the fuel bound. */
  datatype Outcome<T> = Ok(value: T) | Failed(status: int) | OutOfFuel

  /** The URL the walk continues with; "" (falsy) ends it. */
  function NextUrl(next: Option<string>): (r: string)
    ensures next.None? || next.value == "" <==> r == ""
  {
    match next
    case Some(u) => if u == "" then "" else ToProxyUrl(u)
    case None => ""
  }

  function Prepend<T>(xs: seq<T>, o: Outcome<seq<T>>): Outcome<seq<T>> {
    match o
    case Ok(ys) => Ok(xs + ys)
    case Failed(s) => Failed(s)
    case OutOfFuel => OutOfFuel
  }

  lemma PrependNil<T>(o: Outcome<seq<T>>)
    ensures Prepend([], o) == o
  {
    if o.Ok? {
      assert [] + o.value == o.value;
    }
  }

  lemma PrependPrepend<T>(a: seq<T>, b: seq<T>, o: Outcome<seq<T>>)
    ensures Prepend(a, Prepend(b, o)) == Prepend(a + b, o)
  {
    if o.Ok? {
      assert a + (b + o.value) == (a + b) + o.value;
    }
  }

  /** The items of the chain of pages starting at `url`, at most `fuel`
      fetches deep. */
  ghost function Walk<T>(fetch: string -> Response<T>, url: string, fuel: nat): Outcome<seq<T>>
    decreases fuel
  {
    if url == "" then Ok([])
    else if fuel == 0 then OutOfFuel
    else match fetch(url)
      case HttpError(status) => Failed(status)
      case Array(xs) => Ok(xs)
      case Single(x) => Ok([x])
      case Envelope(xs, next) => Prepend(xs, Walk(fetch, NextUrl(next), fuel - 1))
  }

  /** fetchAllPages: follows `next` links, collecting every page's items in
      fetch order; a page that is not ok aborts the whole walk. */
  method FetchAllPages<T>(fetch: string -> Response<T>, url: string, fuel: nat)
    returns (r: Outcome<seq<T>>)
    ensures r == Walk(fetch, url, fuel)
  {
    var results: seq<T> := [];
    var nextUrl := url;
    var left := fuel;
    PrependNil(Walk(fetch, url, fuel));
    while nextUrl != ""
      invariant Walk(fetch, url, fuel) == Prepend(results, Walk(fetch, nextUrl, left))
      decreases left
    {
      if left == 0 {
        return OutOfFuel;
      }
      match fetch(nextUrl) {
        case HttpError(status) =>
          return Failed(status);
        case Array(xs) =>
          assert Walk(fetch, nextUrl, left) == Ok(xs);
          assert results + xs + [] == results + xs;
          results := results + xs;
          nextUrl := "";
        case Envelope(xs, next) =>
          assert Walk(fetch, nextUrl, left) == Prepend(xs, Walk(fetch, NextUrl(next), left - 1));
          PrependPrepend(results, xs, Walk(fetch, NextUrl(next), left - 1));
          results := results + xs;
          nextUrl := NextUrl(next);
        case Single(x) =>
          assert Walk(fetch, nextUrl, left) == Ok([x]);
          assert results + [x] + [] == results + [x];
          results := results + [x];
          nextUrl := "";
      }
      left := left - 1;
    }
    assert results + [] == results;
    return Ok(results);
  }

  /** A walk that ended within `fuel` fetches ends the same way with more:
      the fuel bound only cuts off chains that never end. */
  lemma {:induction false} WalkFuelMonotone<T>(fetch: string -> Response<T>, url: string, fuel: nat, more: nat)
    requires Walk(fetch, url, fuel) != OutOfFuel
    requires fuel <= more
    ensures Walk(fetch, url, more) == Walk(fetch, url, fuel)
    decreases fuel
  {
    if url != "" {
      match fetch(url)
      case Envelope(xs, next) =>
        WalkFuelMonotone(fetch, NextUrl(next), fuel - 1, more - 1);
      case _ =>
    }
  }

  /** An envelope whose `next` leads back to the same URL never ends: the
      loop of the source runs for ever, the bounded walk runs out of fuel. */
  lemma {:induction false} WalkSelfLoop<T>(fetch: string -> Response<T>, url: string, xs: seq<T>, next: string, fuel: nat)
    requires url != "" && next != ""
    requires fetch(url) == Envelope(xs, Some(next)) && ToProxyUrl(next) == url
    ensures Walk(fetch, url, fuel) == OutOfFuel
    decreases fuel
  {
    if fuel > 0 {
      WalkSelfLoop(fetch, url, xs, next, fuel - 1);
    }
  }

  /** A page that is not ok after some good pages discards what was read. */
  lemma WalkErrorAfterPage<T>(fetch: string -> Response<T>, url: string, xs: seq<T>, next: string, status: int, fuel: nat)
    requires url != "" && next != "" && fuel >= 2
    requires fetch(url) == Envelope(xs, Some(next)) && fetch(ToProxyUrl(next)) == HttpError(status)
    ensures Walk(fetch, url, fuel) == Failed(status)
  {
    assert ToProxyUrl(next) != "";
  }

  // ---------------------------------------------------------------------
  // Endpoint discovery

  /** The response to the root request: the endpoint table or a status. */
  datatype RootResponse = RootOk(raw: map<string, string>) | RootError(status: int)

  /** The endpoint table after a getEndpoints call: kept when stored,
      stored after a successful root request, still absent after a failed
      one. */
  function TableAfter(stored: Option<map<string, string>>, root: RootResponse): (t: Option<map<string, string>>)
    ensures stored.Some? ==> t == stored
    ensures stored.None? ==> (t.Some? <==> root.RootOk?)
  {
    if stored.Some? then stored
    else match root
      case RootOk(raw) => Some(ProxyTable(raw))
      case RootError(_) => None
  }

  /** Every advertised URL passed through toProxyUrl. */
  function ProxyTable(raw: map<string, string>): (t: map<string, string>)
    ensures t.Keys == raw.Keys
    ensures forall k :: k in t ==> !(InternalApi <= t[k]) && ToProxyUrl(t[k]) == t[k]
  {
    map k | k in raw :: ToProxyUrl(raw[k])
  }

  /** The value of an endpoint field; an absent field is undefined, which
      a while test reads as false, hence "". */
  function EndpointUrl(table: map<string, string>, key: string): string {
    if key in table then table[key] else ""
  }

  /** The `?` query for the fact table in URLSearchParams order. */
  datatype KilimoDataParams = KilimoDataParams(
    counties: Option<seq<int>>, elements: Option<seq<int>>, items: Option<seq<int>>,
    years: Option<seq<int>>, subdomain: Option<int>)

  class Client {
    /** The memoised endpoint table, None until the first success. */
    var endpoints: Option<map<string, string>>
    /** Number of requests made for the root endpoint table. */
    ghost var rootFetches: nat

    constructor()
      ensures endpoints == None && rootFetches == 0
    {
      endpoints := None;
      rootFetches := 0;
    }

    /** getEndpoints: a stored table is returned without a request; else
        the root is fetched, and only a successful answer is stored. */
    method GetEndpoints(root: RootResponse) returns (r: Outcome<map<string, string>>)
      modifies this
      ensures old(endpoints).Some? ==>
        r == Ok(old(endpoints).value) && endpoints == old(endpoints) && rootFetches == old(rootFetches)
      ensures old(endpoints).None? ==> rootFetches == old(rootFetches) + 1
      ensures old(endpoints).None? && root.RootError? ==> r == Failed(root.status) && endpoints == None
      ensures old(endpoints).None? && root.RootOk? ==>
        r == Ok(ProxyTable(root.raw)) && endpoints == Some(ProxyTable(root.raw))
    {
      if endpoints.Some? {
        return Ok(endpoints.value);
      }
      rootFetches := rootFetches + 1;
      match root
      case RootError(status) =>
        return Failed(status);
      case RootOk(raw) =>
        var table := ProxyTable(raw);
        endpoints := Some(table);
        return Ok(table);
    }

    /** getCounties, getDomains, getSubdomains, getElements, getItems,
        getItemCategories, getUnits, getSubsectors: every page of the list
        named `key` in the endpoint table, fetched afresh each time. */
    method GetList<T>(root: RootResponse, fetch: string -> Response<T>, key: string, fuel: nat)
      returns (r: Outcome<seq<T>>)
      modifies this
      ensures endpoints == TableAfter(old(endpoints), root)
      ensures rootFetches == old(rootFetches) + (if old(endpoints).None? then 1 else 0)
      ensures old(endpoints).Some? ==> r == Walk(fetch, EndpointUrl(old(endpoints).value, key), fuel)
      ensures old(endpoints).None? && root.RootError? ==> r == Failed(root.status)
      ensures old(endpoints).None? && root.RootOk? ==>
        r == Walk(fetch, EndpointUrl(ProxyTable(root.raw), key), fuel)
    {
      var e := GetEndpoints(root);
      match e
      case Ok(table) =>
        r := FetchAllPages(fetch, EndpointUrl(table, key), fuel);
      case Failed(status) =>
        r := Failed(status);
      case OutOfFuel =>
        r := OutOfFuel;
    }

    /** getKilimoData: the fact-table pages for the query built from
        `params`. An absent endpoint field prints as "undefined". */
    method GetKilimoData(root: RootResponse, fetch: string -> Response<KilimoDataRecord>,
                         params: KilimoDataParams, fuel: nat)
      returns (r: Outcome<seq<KilimoDataRecord>>)
      modifies this
      ensures endpoints == TableAfter(old(endpoints), root)
      ensures rootFetches == old(rootFetches) + (if old(endpoints).None? then 1 else 0)
      ensures old(endpoints).Some? ==>
        r == Walk(fetch, KilimoDataUrl(old(endpoints).value, params), fuel)
      ensures old(endpoints).None? && root.RootError? ==> r == Failed(root.status)
      ensures old(endpoints).None? && root.RootOk? ==>
        r == Walk(fetch, KilimoDataUrl(ProxyTable(root.raw), params), fuel)
    {
      var e := GetEndpoints(root);
      match e
      case Ok(table) =>
        var pairs := BuildQuery(params);
        var base := if "kilimodata_pagination" in table then table["kilimodata_pagination"] else "undefined";
        r := FetchAllPages(fetch, base + "?" + QueryString(pairs), fuel);
      case Failed(status) =>
        r := Failed(status);
      case OutOfFuel =>
        r := OutOfFuel;
    }

    /** downloadKilimoData: the CSV text of the queried records, or None
        (the error "No data available for download") when there are none. */
    method DownloadKilimoData(root: RootResponse, fetch: string -> Response<KilimoDataRecord>,
                              params: KilimoDataParams, options: ExportOptions,
                              localeFormat: (string, Separator) -> string, fuel: nat)
      returns (r: Outcome<Option<string>>)
      modifies this
      ensures endpoints == TableAfter(old(endpoints), root)
      ensures rootFetches == old(rootFetches) + (if old(endpoints).None? then 1 else 0)
      ensures old(endpoints).None? && root.RootError? ==> r == Failed(root.status)
      ensures TableAfter(old(endpoints), root).Some? ==>
        r == Exported(Walk(fetch, KilimoDataUrl(TableAfter(old(endpoints), root).value, params), fuel), options, localeFormat)
    {
      var data := GetKilimoData(root, fetch, params, fuel);
      match data
      case Ok(records) =>
        var csv := ExportCsv(records, options, localeFormat);
        r := Ok(csv);
      case Failed(status) =>
        r := Failed(status);
      case OutOfFuel =>
        r := OutOfFuel;
    }
  }

  /** Two list requests: once a root request has succeeded, the second
      call makes none and walks the same URL. */
  method ListTwice<T>(c: Client, first: RootResponse, second: RootResponse, fetch: string -> Response<T>,
                      key: string, fuel: nat)
    returns (r1: Outcome<seq<T>>, r2: Outcome<seq<T>>)
    modifies c
    ensures old(c.endpoints).Some? || first.RootOk? ==> r2 == r1 && c.rootFetches <= old(c.rootFetches) + 1
    ensures old(c.endpoints).None? && first.RootError? ==> r1 == Failed(first.status) && c.rootFetches == old(c.rootFetches) + 2
  {
    r1 := c.GetList(first, fetch, key, fuel);
    r2 := c.GetList(second, fetch, key, fuel);
  }

  // ---------------------------------------------------------------------
  // Parent-id reference filters

  function SubdomainsByDomain(subdomains: seq<SubDomain>, domainId: int): (r: seq<SubDomain>)
    ensures forall k :: 0 <= k < |r| ==> r[k] in subdomains && r[k].domain == domainId
    ensures forall k :: 0 <= k < |subdomains| && subdomains[k].domain == domainId ==> subdomains[k] in r
    ensures |subdomains| == 1 ==> r == (if subdomains[0].domain == domainId then subdomains else [])
  {
    Filter(subdomains, (s: SubDomain) => s.domain == domainId)
  }

  /** The filter works piecewise: matches keep their list order and their
      multiplicity. */
  lemma SubdomainsByDomainAppend(a: seq<SubDomain>, b: seq<SubDomain>, domainId: int)
    ensures SubdomainsByDomain(a + b, domainId) == SubdomainsByDomain(a, domainId) + SubdomainsByDomain(b, domainId)
  {
    FilterAppend(a, b, (s: SubDomain) => s.domain == domainId);
  }

  function ElementsBySubdomain(elements: seq<Element>, subdomainId: int): (r: seq<Element>)
    ensures forall k :: 0 <= k < |r| ==> r[k] in elements && r[k].subdomain == subdomainId
    ensures forall k :: 0 <= k < |elements| && elements[k].subdomain == subdomainId ==> elements[k] in r
    ensures |elements| == 1 ==> r == (if elements[0].subdomain == subdomainId then elements else [])
  {
    Filter(elements, (e: Element) => e.subdomain == subdomainId)
  }

  lemma ElementsBySubdomainAppend(a: seq<Element>, b: seq<Element>, subdomainId: int)
    ensures ElementsBySubdomain(a + b, subdomainId) == ElementsBySubdomain(a, subdomainId) + ElementsBySubdomain(b, subdomainId)
  {
    FilterAppend(a, b, (e: Element) => e.subdomain == subdomainId);
  }

  function ItemsByCategory(items: seq<Item>, categoryId: int): (r: seq<Item>)
    ensures forall k :: 0 <= k < |r| ==> r[k] in items && r[k].itemcategory == categoryId
    ensures forall k :: 0 <= k < |items| && items[k].itemcategory == categoryId ==> items[k] in r
    ensures |items| == 1 ==> r == (if items[0].itemcategory == categoryId then items else [])
  {
    Filter(items, (i: Item) => i.itemcategory == categoryId)
  }

  lemma ItemsByCategoryAppend(a: seq<Item>, b: seq<Item>, categoryId: int)
    ensures ItemsByCategory(a + b, categoryId) == ItemsByCategory(a, categoryId) + ItemsByCategory(b, categoryId)
  {
    FilterAppend(a, b, (i: Item) => i.itemcategory == categoryId);
  }

  function Ids(elements: seq<Element>): (r: seq<int>)
    ensures |r| == |elements| && forall k :: 0 <= k < |r| ==> r[k] == elements[k].id
  {
    seq(|elements|, k requires 0 <= k < |elements| => elements[k].id)
  }

  /** The items whose element belongs to the subdomain. */
  function ItemsBySubdomain(items: seq<Item>, elements: seq<Element>, subdomainId: int): (r: seq<Item>)
    ensures forall k :: 0 <= k < |r| ==>
              r[k] in items && exists e :: e in elements && e.subdomain == subdomainId && e.id == r[k].element
    ensures forall k, e ::
              0 <= k < |items| && e in elements && e.subdomain == subdomainId && e.id == items[k].element
              ==> items[k] in r
    ensures |items| == 1 ==>
              r == (if exists e :: e in elements && e.subdomain == subdomainId && e.id == items[0].element
                    then items else [])
  {
    var ids := Ids(ElementsBySubdomain(elements, subdomainId));
    var r := Filter(items, (i: Item) => i.element in ids);
    assert forall k :: 0 <= k < |r| ==> r[k].element in ids;
    r
  }

  lemma ItemsBySubdomainAppend(a: seq<Item>, b: seq<Item>, elements: seq<Element>, subdomainId: int)
    ensures ItemsBySubdomain(a + b, elements, subdomainId)
            == ItemsBySubdomain(a, elements, subdomainId) + ItemsBySubdomain(b, elements, subdomainId)
  {
    var ids := Ids(ElementsBySubdomain(elements, subdomainId));
    FilterAppend(a, b, (i: Item) => i.element in ids);
  }

  function CategoryIds(items: seq<Item>): (r: set<int>)
    ensures forall c :: c in r <==> exists k :: 0 <= k < |items| && items[k].itemcategory == c
  {
    set k | 0 <= k < |items| :: items[k].itemcategory
  }

  /** The categories, in category-list order, used by some item of the
      subdomain. */
  function ItemCategoriesBySubdomain(items: seq<Item>, elements: seq<Element>, categories: seq<ItemCategory>,
                                     subdomainId: int): (r: seq<ItemCategory>)
    ensures forall k :: 0 <= k < |r| ==>
              r[k] in categories &&
              exists i :: i in ItemsBySubdomain(items, elements, subdomainId) && i.itemcategory == r[k].id
    ensures forall k, i ::
              0 <= k < |categories| && i in ItemsBySubdomain(items, elements, subdomainId)
              && i.itemcategory == categories[k].id
              ==> categories[k] in r
    ensures |categories| == 1 ==>
              r == (if exists i :: i in ItemsBySubdomain(items, elements, subdomainId) && i.itemcategory == categories[0].id
                    then categories else [])
  {
    var used := CategoryIds(ItemsBySubdomain(items, elements, subdomainId));
    Filter(categories, (c: ItemCategory) => c.id in used)
  }

  /** The categories keep the category list's order. */
  lemma ItemCategoriesBySubdomainAppend(items: seq<Item>, elements: seq<Element>,
                                        a: seq<ItemCategory>, b: seq<ItemCategory>, subdomainId: int)
    ensures ItemCategoriesBySubdomain(items, elements, a + b, subdomainId)
            == ItemCategoriesBySubdomain(items, elements, a, subdomainId)
               + ItemCategoriesBySubdomain(items, elements, b, subdomainId)
  {
    var used := CategoryIds(ItemsBySubdomain(items, elements, subdomainId));
    FilterAppend(a, b, (c: ItemCategory) => c.id in used);
  }

  // ---------------------------------------------------------------------
  // The fact-table query

  function Ints(p: Option<seq<int>>): seq<int> {
    match p
    case Some(xs) => xs
    case None => []
  }

  /** One `key=value` pair per entry, in input order. */
  function Pairs(key: string, xs: seq<int>): (r: seq<(string, string)>)
    ensures |r| == |xs|
    ensures forall k :: 0 <= k < |r| ==> r[k] == (key, IntToString(xs[k]))
  {
    seq(|xs|, k requires 0 <= k < |xs| => (key, IntToString(xs[k])))
  }

  function SubdomainPair(p: Option<int>): seq<(string, string)> {
    match p
    case Some(n) => if n != 0 then [("subdomain", IntToString(n))] else []
    case None => []
  }

  /** The parameters of the fact-table request, as URLSearchParams holds
      them after the appends. */
  function QueryPairs(params: KilimoDataParams): seq<(string, string)> {
    Pairs("county", Ints(params.counties)) + Pairs("element", Ints(params.elements))
      + Pairs("item", Ints(params.items)) + Pairs("refyear", Ints(params.years))
      + SubdomainPair(params.subdomain)
  }

  /** One forEach over an id array, appending a pair per entry. */
  method AppendPairs(pairs: seq<(string, string)>, key: string, xs: seq<int>)
    returns (r: seq<(string, string)>)
    ensures r == pairs + Pairs(key, xs)
  {
    r := pairs;
    for i := 0 to |xs|
      invariant r == pairs + Pairs(key, xs[..i])
    {
      assert Pairs(key, xs[..i + 1]) == Pairs(key, xs[..i]) + [(key, IntToString(xs[i]))];
      r := r + [(key, IntToString(xs[i]))];
    }
    assert xs[..|xs|] == xs;
  }

  /** The appends of getKilimoData, in the source's order. */
  method BuildQuery(params: KilimoDataParams) returns (pairs: seq<(string, string)>)
    ensures pairs == QueryPairs(params)
  {
    var c := Pairs("county", Ints(params.counties));
    var e := Pairs("element", Ints(params.elements));
    var i := Pairs("item", Ints(params.items));
    var y := Pairs("refyear", Ints(params.years));
    pairs := AppendPairs([], "county", Ints(params.counties));
    assert pairs == c;
    pairs := AppendPairs(pairs, "element", Ints(params.elements));
    assert pairs == c + e;
    pairs := AppendPairs(pairs, "item", Ints(params.items));
    assert pairs == c + e + i;
    pairs := AppendPairs(pairs, "refyear", Ints(params.years));
    assert pairs == c + e + i + y;
    if params.subdomain.Some? && params.subdomain.value != 0 {
      pairs := pairs + [("subdomain", IntToString(params.subdomain.value))];
    }
    assert pairs == c + e + i + y + SubdomainPair(params.subdomain);
  }

  /** The values sent under `key`, in query order. */
  function ValuesOf(pairs: seq<(string, string)>, key: string): seq<string> {
    if pairs == [] then []
    else
      var last := pairs[|pairs| - 1];
      ValuesOf(pairs[..|pairs| - 1], key) + (if last.0 == key then [last.1] else [])
  }

  lemma {:induction false} ValuesOfAppend(a: seq<(string, string)>, b: seq<(string, string)>, key: string)
    ensures ValuesOf(a + b, key) == ValuesOf(a, key) + ValuesOf(b, key)
    decreases |b|
  {
    if b == [] {
      assert a + b == a;
    } else {
      assert (a + b)[..|a + b| - 1] == a + b[..|b| - 1];
      ValuesOfAppend(a, b[..|b| - 1], key);
    }
  }

  lemma {:induction false} ValuesOfPairs(k1: string, xs: seq<int>, key: string)
    ensures ValuesOf(Pairs(k1, xs), key) == if k1 == key then Strings(xs) else []
  {
    if xs != [] {
      var n := |xs| - 1;
      var p := Pairs(k1, xs);
      ValuesOfPairs(k1, xs[..n], key);
      PairsSnoc(k1, xs);
      assert ValuesOf(p, key) == ValuesOf(p[..n], key) + (if k1 == key then [IntToString(xs[n])] else []);
      if k1 == key {
        StringsSnoc(xs);
      }
    }
  }

  lemma PairsSnoc(k1: string, xs: seq<int>)
    requires xs != []
    ensures Pairs(k1, xs)[..|xs| - 1] == Pairs(k1, xs[..|xs| - 1])
    ensures Pairs(k1, xs)[|xs| - 1] == (k1, IntToString(xs[|xs| - 1]))
  {
  }

  function Strings(xs: seq<int>): (r: seq<string>)
    ensures |r| == |xs|
  {
    seq(|xs|, k requires 0 <= k < |xs| => IntToString(xs[k]))
  }

  lemma StringsSnoc(xs: seq<int>)
    requires xs != []
    ensures Strings(xs) == Strings(xs[..|xs| - 1]) + [IntToString(xs[|xs| - 1])]
  {
  }

  /** The query carries exactly one pair per array entry, plus one for a
      non-zero subdomain. */
  lemma QueryPairsCount(params: KilimoDataParams)
    ensures |QueryPairs(params)| == |Ints(params.counties)| + |Ints(params.elements)|
      + |Ints(params.items)| + |Ints(params.years)|
      + (if params.subdomain.Some? && params.subdomain.value != 0 then 1 else 0)
  {
  }

  /** The values the query is meant to carry under `key`. */
  function Expected(params: KilimoDataParams, key: string): seq<string> {
    if key == "county" then Strings(Ints(params.counties))
    else if key == "element" then Strings(Ints(params.elements))
    else if key == "item" then Strings(Ints(params.items))
    else if key == "refyear" then Strings(Ints(params.years))
    else if key == "subdomain" && params.subdomain.Some? && params.subdomain.value != 0 then
      [IntToString(params.subdomain.value)]
    else []
  }

  lemma ValuesOfSubdomain(p: Option<int>, key: string)
    ensures ValuesOf(SubdomainPair(p), key)
         == if key == "subdomain" && p.Some? && p.value != 0 then [IntToString(p.value)] else []
  {
    var s := SubdomainPair(p);
    if s != [] {
      assert s[..0] == [];
    }
  }

  lemma ValuesOfQuery(params: KilimoDataParams, key: string)
    ensures ValuesOf(QueryPairs(params), key)
         == (if key == "county" then Strings(Ints(params.counties)) else [])
          + (if key == "element" then Strings(Ints(params.elements)) else [])
          + (if key == "item" then Strings(Ints(params.items)) else [])
          + (if key == "refyear" then Strings(Ints(params.years)) else [])
          + ValuesOf(SubdomainPair(params.subdomain), key)
  {
    var c := Pairs("county", Ints(params.counties));
    var e := Pairs("element", Ints(params.elements));
    var i := Pairs("item", Ints(params.items));
    var y := Pairs("refyear", Ints(params.years));
    var s := SubdomainPair(params.subdomain);
    ValuesOfAppend(c, e, key);
    ValuesOfAppend(c + e, i, key);
    ValuesOfAppend(c + e + i, y, key);
    ValuesOfAppend(c + e + i + y, s, key);
    assert QueryPairs(params) == c + e + i + y + s;
    ValuesOfPairs("county", Ints(params.counties), key);
    ValuesOfPairs("element", Ints(params.elements), key);
    ValuesOfPairs("item", Ints(params.items), key);
    ValuesOfPairs("refyear", Ints(params.years), key);
    var vc, ve, vi, vy := ValuesOf(c, key), ValuesOf(e, key), ValuesOf(i, key), ValuesOf(y, key);
    assert ValuesOf(QueryPairs(params), key) == vc + ve + vi + vy + ValuesOf(s, key);
  }

  lemma QueryValuesCounty(params: KilimoDataParams)
    ensures ValuesOf(QueryPairs(params), "county") == Strings(Ints(params.counties))
  {
    ValuesOfQuery(params, "county");
    ValuesOfSubdomain(params.subdomain, "county");
  }

  lemma QueryValuesElement(params: KilimoDataParams)
    ensures ValuesOf(QueryPairs(params), "element") == Strings(Ints(params.elements))
  {
    ValuesOfQuery(params, "element");
    ValuesOfSubdomain(params.subdomain, "element");
  }

  lemma QueryValuesItem(params: KilimoDataParams)
    ensures ValuesOf(QueryPairs(params), "item") == Strings(Ints(params.items))
  {
    ValuesOfQuery(params, "item");
    ValuesOfSubdomain(params.subdomain, "item");
  }

  lemma QueryValuesYear(params: KilimoDataParams)
    ensures ValuesOf(QueryPairs(params), "refyear") == Strings(Ints(params.years))
  {
    ValuesOfQuery(params, "refyear");
    ValuesOfSubdomain(params.subdomain, "refyear");
  }

  lemma QueryValuesOther(params: KilimoDataParams, key: string)
    requires key != "county" && key != "element" && key != "item" && key != "refyear"
    ensures ValuesOf(QueryPairs(params), key) == ValuesOf(SubdomainPair(params.subdomain), key)
  {
    ValuesOfQuery(params, key);
    var none: seq<string> := [];
    assert none + none + none + none + ValuesOf(SubdomainPair(params.subdomain), key)
        == ValuesOf(SubdomainPair(params.subdomain), key);
  }

  /** Reading back the values of each key gives the ids of that array, in
      input order; absent arrays read back as empty, and the subdomain is
      read back only when it is non-zero. */
  lemma QueryPairsValues(params: KilimoDataParams, key: string)
    ensures ValuesOf(QueryPairs(params), key) == Expected(params, key)
  {
    if key == "county" {
      QueryValuesCounty(params);
    } else if key == "element" {
      QueryValuesElement(params);
    } else if key == "item" {
      QueryValuesItem(params);
    } else if key == "refyear" {
      QueryValuesYear(params);
    } else {
      QueryValuesOther(params, key);
      ValuesOfSubdomain(params.subdomain, key);
    }
  }

  /** Rank of a key in the fixed append order. */
  function KeyRank(key: string): nat {
    if key == "county" then 0 else if key == "element" then 1
    else if key == "item" then 2 else if key == "refyear" then 3 else 4
  }

  /** Keys appear in the order county, element, item, refyear, subdomain. */
  lemma QueryPairsOrdered(params: KilimoDataParams)
    ensures forall a, b :: 0 <= a < b < |QueryPairs(params)| ==>
      KeyRank(QueryPairs(params)[a].0) <= KeyRank(QueryPairs(params)[b].0)
  {
    var q := QueryPairs(params);
    var n1 := |Ints(params.counties)|;
    var n2 := n1 + |Ints(params.elements)|;
    var n3 := n2 + |Ints(params.items)|;
    var n4 := n3 + |Ints(params.years)|;
    forall a | 0 <= a < |q|
      ensures KeyRank(q[a].0) == if a < n1 then 0 else if a < n2 then 1 else if a < n3 then 2 else if a < n4 then 3 else 4
    {
    }
  }

  /** URLSearchParams.toString over pairs whose keys are letters and
      whose values are decimal numbers, which need no percent-encoding. */
  function QueryString(pairs: seq<(string, string)>): string {
    Join(seq(|pairs|, k requires 0 <= k < |pairs| => pairs[k].0 + "=" + pairs[k].1), "&")
  }

  /** The fact-table URL: `?` is appended even when the query is empty. */
  function KilimoDataUrl(table: map<string, string>, params: KilimoDataParams): (r: string)
    ensures QueryPairs(params) == [] ==>
      r == (if "kilimodata_pagination" in table then table["kilimodata_pagination"] else "undefined") + "?"
  {
    var base := if "kilimodata_pagination" in table then table["kilimodata_pagination"] else "undefined";
    base + "?" + QueryString(QueryPairs(params))
  }

  // ---------------------------------------------------------------------
  // CSV export

  datatype Separator = NoSeparator | Comma | Period

  datatype ExportOptions = ExportOptions(
    thousandSeparator: Separator, includeFlags: bool, includeNotes: bool, includeUnits: bool)

  function Flag(b: bool): nat {
    if b then 1 else 0
  }

  /** Number of columns of the export. */
  function Width(o: ExportOptions): nat {
    9 + Flag(o.includeUnits) + Flag(o.includeFlags) + Flag(o.includeNotes)
  }

  function Headers(o: ExportOptions): (r: seq<string>)
    ensures |r| == Width(o)
  {
    ["County", "Subsector", "Domain", "Subdomain", "Element", "Item", "Year", "Value"]
      + (if o.includeUnits then ["Unit"] else [])
      + ["Region"]
      + (if o.includeFlags then ["Flag"] else [])
      + (if o.includeNotes then ["Note"] else [])
  }

  /** The value column: the record's text, or the locale rendering of
      parseFloat(value) when a thousand separator is chosen. */
  function ValueText(rec: KilimoDataRecord, o: ExportOptions, localeFormat: (string, Separator) -> string): string {
    if o.thousandSeparator == NoSeparator then rec.value else localeFormat(rec.value, o.thousandSeparator)
  }

  function RowFields(rec: KilimoDataRecord, o: ExportOptions, localeFormat: (string, Separator) -> string): (r: seq<string>)
    ensures |r| == Width(o)
  {
    [Quote(rec.county), Quote(rec.subsector), Quote(rec.domain), Quote(rec.subdomain),
     Quote(rec.element), Quote(rec.item), rec.refyear, ValueText(rec, o, localeFormat)]
      + (if o.includeUnits then [Quote(rec.unit)] else [])
      + [Quote(rec.region)]
      + (if o.includeFlags then [Quote(rec.flag)] else [])
      + (if o.includeNotes then [Quote(rec.note)] else [])
  }

  /** The cell a column heading stands for: text fields quoted, Year and
      Value as they are. */
  function Cell(rec: KilimoDataRecord, heading: string, o: ExportOptions,
                localeFormat: (string, Separator) -> string): string {
    match heading
    case "County" => Quote(rec.county)
    case "Subsector" => Quote(rec.subsector)
    case "Domain" => Quote(rec.domain)
    case "Subdomain" => Quote(rec.subdomain)
    case "Element" => Quote(rec.element)
    case "Item" => Quote(rec.item)
    case "Year" => rec.refyear
    case "Value" => ValueText(rec, o, localeFormat)
    case "Unit" => Quote(rec.unit)
    case "Region" => Quote(rec.region)
    case "Flag" => Quote(rec.flag)
    case "Note" => Quote(rec.note)
    case _ => ""
  }

  /** Every row has one cell per heading, and each cell is the field its
      heading names; every column but Year and Value is quoted. */
  lemma RowMatchesHeaders(rec: KilimoDataRecord, o: ExportOptions, localeFormat: (string, Separator) -> string)
    ensures |RowFields(rec, o, localeFormat)| == |Headers(o)|
    ensures forall k :: 0 <= k < |Headers(o)| ==>
      RowFields(rec, o, localeFormat)[k] == Cell(rec, Headers(o)[k], o, localeFormat)
    ensures forall k :: 0 <= k < |Headers(o)| && Headers(o)[k] != "Year" && Headers(o)[k] != "Value" ==>
      exists f :: RowFields(rec, o, localeFormat)[k] == Quote(f)
  {
    var h := Headers(o);
    var r := RowFields(rec, o, localeFormat);
    forall k | 0 <= k < |h|
      ensures r[k] == Cell(rec, h[k], o, localeFormat)
      ensures h[k] != "Year" && h[k] != "Value" ==> exists f :: r[k] == Quote(f)
    {
      if k >= 8 {
        var u := Flag(o.includeUnits);
        var f := Flag(o.includeFlags);
        if o.includeUnits && k == 8 {
          assert h[k] == "Unit" && r[k] == Quote(rec.unit);
        } else if k == 8 + u {
          assert h[k] == "Region" && r[k] == Quote(rec.region);
        } else if o.includeFlags && k == 9 + u {
          assert h[k] == "Flag" && r[k] == Quote(rec.flag);
        } else {
          assert h[k] == "Note" && r[k] == Quote(rec.note);
        }
      }
    }
  }

  function CsvLines(data: seq<KilimoDataRecord>, o: ExportOptions, localeFormat: (string, Separator) -> string)
    : (r: seq<string>)
    ensures |r| == |data| + 1
  {
    [Join(Headers(o), ",")]
      + seq(|data|, k requires 0 <= k < |data| => Join(RowFields(data[k], o, localeFormat), ","))
  }

  /** downloadKilimoData's answer for a finished page walk: the CSV text
      of the records, or the walk's own failure. */
  function Exported(w: Outcome<seq<KilimoDataRecord>>, o: ExportOptions, localeFormat: (string, Separator) -> string)
    : (r: Outcome<Option<string>>)
    ensures w.Ok? <==> r.Ok?
    ensures w.Ok? ==> r.value == CsvExport(w.value, o, localeFormat)
    ensures w.Failed? ==> r == Failed(w.status)
    ensures w.OutOfFuel? ==> r == OutOfFuel
  {
    match w
    case Ok(records) => Ok(CsvExport(records, o, localeFormat))
    case Failed(status) => Failed(status)
    case OutOfFuel => OutOfFuel
  }

  /** The export text: None for no records, else the header line and one
      line per record. */
  function CsvExport(data: seq<KilimoDataRecord>, o: ExportOptions, localeFormat: (string, Separator) -> string)
    : (r: Option<string>)
    ensures r.None? <==> data == []
  {
    if data == [] then None else Some(Join(CsvLines(data, o, localeFormat), "\n"))
  }

  /** Pushes one line per record after the header line. */
  method ExportCsv(data: seq<KilimoDataRecord>, o: ExportOptions, localeFormat: (string, Separator) -> string)
    returns (r: Option<string>)
    ensures r == CsvExport(data, o, localeFormat)
  {
    if |data| == 0 {
      return None;
    }
    var csvRows := [Join(Headers(o), ",")];
    for i := 0 to |data|
      invariant csvRows == CsvLines(data[..i], o, localeFormat)
    {
      csvRows := csvRows + [Join(RowFields(data[i], o, localeFormat), ",")];
    }
    assert data[..|data|] == data;
    return Some(Join(csvRows, "\n"));
  }

  /** When no field holds a line break, the export splits back into the
      header line and one line per record. */
  lemma CsvExportLines(data: seq<KilimoDataRecord>, o: ExportOptions, localeFormat: (string, Separator) -> string)
    requires data != []
    requires forall k :: 0 <= k < |CsvLines(data, o, localeFormat)| ==> '\n' !in CsvLines(data, o, localeFormat)[k]
    ensures |Split(CsvExport(data, o, localeFormat).value, '\n')| == |data| + 1
  {
    SplitJoin(CsvLines(data, o, localeFormat), '\n');
  }
}
