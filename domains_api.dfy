/** The domain endpoints of the REST client: the list query with its
    optional parameters, the export query and the single-domain paths.
    Requests themselves are not modelled; what is modelled is the endpoint
    string each call hands to the request wrapper. URLSearchParams'
    percent-encoding is an abstract `encode` parameter. */
module DomainsApi {
  import opened Base

  /** The optional arguments of getDomains. */
  datatype DomainsParams = DomainsParams(
    search: Option<string>, subsector: Option<string>, ordering: Option<string>,
    limit: Option<int>, offset: Option<int>)

  const NoParams := DomainsParams(None, None, None, None, None)

  /** A string argument is truthy when present and non-empty. */
  predicate TruthyText(p: Option<string>) {
    p.Some? && p.value != ""
  }

  /** A number argument is truthy when present and non-zero. */
  predicate TruthyNumber(p: Option<int>) {
    p.Some? && p.value != 0
  }

  function TextPair(key: string, p: Option<string>): (r: seq<(string, string)>)
    ensures |r| <= 1
    ensures r != [] <==> TruthyText(p)
    ensures r != [] ==> r[0] == (key, p.value)
  {
    if TruthyText(p) then [(key, p.value)] else []
  }

  function NumberPair(key: string, p: Option<int>): (r: seq<(string, string)>)
    ensures |r| <= 1
    ensures r != [] <==> TruthyNumber(p)
    ensures r != [] ==> r[0] == (key, IntToString(p.value))
  {
    if TruthyNumber(p) then [(key, IntToString(p.value))] else []
  }

  /** The parameters getDomains appends, in append order. */
  function DomainsPairs(params: DomainsParams): seq<(string, string)> {
    TextPair("search", params.search) + TextPair("subsector", params.subsector)
      + TextPair("ordering", params.ordering) + NumberPair("limit", params.limit)
      + NumberPair("offset", params.offset)
  }

  /** The conditional appends of getDomains, one `if` per parameter. */
  method BuildDomainsQuery(params: DomainsParams) returns (pairs: seq<(string, string)>)
    ensures pairs == DomainsPairs(params)
  {
    ghost var s, u, o := TextPair("search", params.search), TextPair("subsector", params.subsector),
                         TextPair("ordering", params.ordering);
    ghost var l, f := NumberPair("limit", params.limit), NumberPair("offset", params.offset);
    pairs := [];
    if params.search.Some? && params.search.value != "" {
      pairs := pairs + [("search", params.search.value)];
    }
    assert pairs == s;
    if params.subsector.Some? && params.subsector.value != "" {
      pairs := pairs + [("subsector", params.subsector.value)];
    }
    assert pairs == s + u;
    if params.ordering.Some? && params.ordering.value != "" {
      pairs := pairs + [("ordering", params.ordering.value)];
    }
    assert pairs == s + u + o;
    if params.limit.Some? && params.limit.value != 0 {
      pairs := pairs + [("limit", IntToString(params.limit.value))];
    }
    assert pairs == s + u + o + l;
    if params.offset.Some? && params.offset.value != 0 {
      pairs := pairs + [("offset", IntToString(params.offset.value))];
    }
  }

  /** URLSearchParams.toString: encoded `key=value` entries joined by `&`. */
  function QueryText(pairs: seq<(string, string)>, encode: string -> string): string {
    Join(seq(|pairs|, k requires 0 <= k < |pairs| => encode(pairs[k].0) + "=" + encode(pairs[k].1)), "&")
  }

  /** The query text is empty exactly when there is no pair. */
  lemma QueryTextEmpty(pairs: seq<(string, string)>, encode: string -> string)
    ensures QueryText(pairs, encode) == "" <==> pairs == []
  {
    var parts := seq(|pairs|, k requires 0 <= k < |pairs| => encode(pairs[k].0) + "=" + encode(pairs[k].1));
    if pairs != [] {
      var first := encode(pairs[0].0) + "=" + encode(pairs[0].1);
      assert parts[0] == first;
      if |parts| == 1 {
        assert Join(parts, "&") == first;
      } else {
        assert Join(parts, "&") == first + "&" + Join(parts[1..], "&");
      }
      assert |first| > 0;
    }
  }

  /** `base` followed by `?query` when the query is non-empty. */
  function WithQuery(base: string, pairs: seq<(string, string)>, encode: string -> string): string {
    var q := QueryText(pairs, encode);
    base + (if q != "" then "?" + q else "")
  }

  function DomainsEndpoint(params: DomainsParams, encode: string -> string): string {
    WithQuery("/domains/", DomainsPairs(params), encode)
  }

  function Keys(pairs: seq<(string, string)>): (r: seq<string>)
    ensures |r| == |pairs|
  {
    seq(|pairs|, k requires 0 <= k < |pairs| => pairs[k].0)
  }

  lemma KeysAppend(a: seq<(string, string)>, b: seq<(string, string)>)
    ensures Keys(a + b) == Keys(a) + Keys(b)
  {
  }

  /** Rank of a key in getDomains' append order. */
  function DomainsKeyRank(key: string): nat {
    if key == "search" then 0 else if key == "subsector" then 1
    else if key == "ordering" then 2 else if key == "limit" then 3 else 4
  }

  /** Keys come in the order search, subsector, ordering, limit, offset,
      each at most once. */
  lemma DomainsPairsOrdered(params: DomainsParams)
    ensures var q := DomainsPairs(params);
      forall a, b :: 0 <= a < b < |q| ==> DomainsKeyRank(q[a].0) < DomainsKeyRank(q[b].0)
  {
    var s, u, o := TextPair("search", params.search), TextPair("subsector", params.subsector),
                   TextPair("ordering", params.ordering);
    var l, f := NumberPair("limit", params.limit), NumberPair("offset", params.offset);
    var q := DomainsPairs(params);
    var n1 := |s|;
    var n2 := n1 + |u|;
    var n3 := n2 + |o|;
    var n4 := n3 + |l|;
    assert q == s + u + o + l + f;
    forall a | 0 <= a < |q|
      ensures DomainsKeyRank(q[a].0) == if a < n1 then 0 else if a < n2 then 1 else if a < n3 then 2
        else if a < n4 then 3 else 4
    {
    }
  }

  /** A pair is sent exactly when its argument is truthy, so limit 0 and
      offset 0 are never sent. */
  lemma DomainsPairsPresent(params: DomainsParams)
    ensures var q := DomainsPairs(params);
      && ("search" in Keys(q) <==> TruthyText(params.search))
      && ("subsector" in Keys(q) <==> TruthyText(params.subsector))
      && ("ordering" in Keys(q) <==> TruthyText(params.ordering))
      && ("limit" in Keys(q) <==> TruthyNumber(params.limit))
      && ("offset" in Keys(q) <==> TruthyNumber(params.offset))
  {
    KeySent(params, "search");
    KeySent(params, "subsector");
    KeySent(params, "ordering");
    KeySent(params, "limit");
    KeySent(params, "offset");
  }

  /** A key is sent exactly when it is one of the five and its argument is
      truthy. */
  lemma KeySent(params: DomainsParams, key: string)
    ensures key in Keys(DomainsPairs(params)) <==>
      || (key == "search" && TruthyText(params.search))
      || (key == "subsector" && TruthyText(params.subsector))
      || (key == "ordering" && TruthyText(params.ordering))
      || (key == "limit" && TruthyNumber(params.limit))
      || (key == "offset" && TruthyNumber(params.offset))
  {
    DomainsKeys(params);
    var a := if TruthyText(params.search) then ["search"] else [];
    var b := if TruthyText(params.subsector) then ["subsector"] else [];
    var c := if TruthyText(params.ordering) then ["ordering"] else [];
    var d := if TruthyNumber(params.limit) then ["limit"] else [];
    var e := if TruthyNumber(params.offset) then ["offset"] else [];
    InConcat(a, b, c, d, e);
  }

  /** Membership in five lists laid end to end. */
  lemma InConcat(a: seq<string>, b: seq<string>, c: seq<string>, d: seq<string>, e: seq<string>)
    ensures forall x :: x in a + b + c + d + e <==> x in a || x in b || x in c || x in d || x in e
  {
  }

  lemma DomainsKeys(params: DomainsParams)
    ensures Keys(DomainsPairs(params)) ==
      (if TruthyText(params.search) then ["search"] else [])
      + (if TruthyText(params.subsector) then ["subsector"] else [])
      + (if TruthyText(params.ordering) then ["ordering"] else [])
      + (if TruthyNumber(params.limit) then ["limit"] else [])
      + (if TruthyNumber(params.offset) then ["offset"] else [])
  {
    var s, u, o := TextPair("search", params.search), TextPair("subsector", params.subsector),
                   TextPair("ordering", params.ordering);
    var l, f := NumberPair("limit", params.limit), NumberPair("offset", params.offset);
    var q := DomainsPairs(params);
    assert q == s + u + o + l + f;
    KeysAppend(s, u);
    KeysAppend(s + u, o);
    KeysAppend(s + u + o, l);
    KeysAppend(s + u + o + l, f);
    assert Keys(s) == if TruthyText(params.search) then ["search"] else [];
    assert Keys(u) == if TruthyText(params.subsector) then ["subsector"] else [];
    assert Keys(o) == if TruthyText(params.ordering) then ["ordering"] else [];
    assert Keys(l) == if TruthyNumber(params.limit) then ["limit"] else [];
    assert Keys(f) == if TruthyNumber(params.offset) then ["offset"] else [];
  }

  /** Without a truthy argument the endpoint is exactly `/domains/`. */
  lemma DomainsEndpointBare(params: DomainsParams, encode: string -> string)
    ensures DomainsEndpoint(params, encode) == "/domains/" <==>
      !(TruthyText(params.search) || TruthyText(params.subsector) || TruthyText(params.ordering)
        || TruthyNumber(params.limit) || TruthyNumber(params.offset))
  {
    var q := DomainsPairs(params);
    QueryTextEmpty(q, encode);
    var t := QueryText(q, encode);
    if t != "" {
      assert |DomainsEndpoint(params, encode)| > |"/domains/"|;
    }
  }

  /** One `ids` pair per id, in order. */
  function ExportPairs(xs: seq<int>): (r: seq<(string, string)>)
    ensures |r| == |xs| && forall k :: 0 <= k < |xs| ==> r[k] == ("ids", IntToString(xs[k]))
  {
    seq(|xs|, k requires 0 <= k < |xs| => ("ids", IntToString(xs[k])))
  }

  /** The export query: one `ids` pair per id, in order; none for an
      absent or empty list. */
  method BuildExportQuery(ids: Option<seq<int>>) returns (pairs: seq<(string, string)>)
    ensures ids.None? ==> pairs == []
    ensures ids.Some? ==> pairs == ExportPairs(ids.value)
  {
    pairs := [];
    if ids.Some? && |ids.value| > 0 {
      var xs := ids.value;
      for k := 0 to |xs|
        invariant |pairs| == k
        invariant forall j :: 0 <= j < k ==> pairs[j] == ("ids", IntToString(xs[j]))
      {
        pairs := pairs + [("ids", IntToString(xs[k]))];
      }
    }
  }

  method ExportEndpoint(ids: Option<seq<int>>, encode: string -> string) returns (endpoint: string)
    ensures ids.None? || ids.value == [] ==> endpoint == "/domains/export/"
    ensures ids.Some? && ids.value != [] ==>
      endpoint == "/domains/export/?" + QueryText(ExportPairs(ids.value), encode)
  {
    var pairs := BuildExportQuery(ids);
    QueryTextEmpty(pairs, encode);
    endpoint := WithQuery("/domains/export/", pairs, encode);
  }

  /** The path getDomain, updateDomain and deleteDomain address. */
  function DomainPath(id: int): string {
    "/domains/" + IntToString(id) + "/"
  }

  /** The path starts with `/domains/`, ends with `/`, and the id reads
      back from what lies between. */
  lemma DomainPathId(id: int)
    ensures var p := DomainPath(id);
      && |p| > 10 && p[..9] == "/domains/" && p[|p| - 1] == '/'
      && ParseInt(p[9..|p| - 1]) == Some(id)
  {
    DomainPathParts(id);
    ParseIntToString(id);
  }

  lemma DomainPathParts(id: int)
    ensures var p := DomainPath(id);
      && |p| > 10 && p[..9] == "/domains/" && p[|p| - 1] == '/' && p[9..|p| - 1] == IntToString(id)
  {
  }
}
