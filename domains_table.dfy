/** The domains table: domains and subdomains read from two CSV files, each
    domain joined with its subdomains, a search over domain and subdomain
    names, and the first-match icon rule. Lines are split by the same
    quote-toggling scanner as the other loaders (CsvLine). */
module DomainsTable {
  import opened Base
  import opened CsvLine
  import opened CsvRow
  import DataService

  /** The table's own domain shape: `subsector` stays text. */
  datatype TableDomain = TableDomain(id: int, name: string, code: string, description: string, subsector: string)
  datatype TableSubDomain = TableSubDomain(id: int, name: string, code: string, description: string, domain: int)
  datatype DomainWithSubdomains = DomainWithSubdomains(domain: TableDomain, subdomains: seq<TableSubDomain>)

  /** One data line of the domains file. */
  function ParseDomain(line: string): (d: TableDomain)
    ensures ParseInt(Cell(Fields(line), 0)).None? ==> d.id == 0
    ensures ParseInt(Cell(Fields(line), 0)).Some? ==> d.id == ParseInt(Cell(Fields(line), 0)).value
    ensures |Fields(line)| <= 1 ==> d.name == d.code == d.description == d.subsector == ""
    ensures d.name == Cell(Fields(line), 1) && d.code == Cell(Fields(line), 2)
    ensures d.description == Cell(Fields(line), 3) && d.subsector == Cell(Fields(line), 4)
  {
    var v := Fields(line);
    TableDomain(IntOrZero(Cell(v, 0)), Cell(v, 1), Cell(v, 2), Cell(v, 3), Cell(v, 4))
  }

  /** One data line of the subdomains file. */
  function ParseSubDomain(line: string): (s: TableSubDomain)
    ensures ParseInt(Cell(Fields(line), 4)).None? ==> s.domain == 0
    ensures ParseInt(Cell(Fields(line), 4)).Some? ==> s.domain == ParseInt(Cell(Fields(line), 4)).value
    ensures |Fields(line)| <= 1 ==> s.name == s.code == s.description == ""
    ensures s.name == Cell(Fields(line), 1) && s.code == Cell(Fields(line), 2)
    ensures s.description == Cell(Fields(line), 3)
    ensures ParseInt(Cell(Fields(line), 0)).None? ==> s.id == 0
    ensures ParseInt(Cell(Fields(line), 0)).Some? ==> s.id == ParseInt(Cell(Fields(line), 0)).value
  {
    var v := Fields(line);
    TableSubDomain(IntOrZero(Cell(v, 0)), Cell(v, 1), Cell(v, 2), Cell(v, 3), IntOrZero(Cell(v, 4)))
  }

  /** Every line after the header becomes a domain. */
  function ParseDomains(text: string): (r: seq<TableDomain>)
    ensures |r| == |DataService.Lines(text)| - 1
    ensures forall k :: 0 <= k < |r| ==> r[k] == ParseDomain(DataService.Lines(text)[k + 1])
  {
    MapSeq(DataService.Lines(text)[1..], ParseDomain)
  }

  /** Every line after the header becomes a subdomain. */
  function ParseSubDomains(text: string): (r: seq<TableSubDomain>)
    ensures |r| == |DataService.Lines(text)| - 1
    ensures forall k :: 0 <= k < |r| ==> r[k] == ParseSubDomain(DataService.Lines(text)[k + 1])
  {
    MapSeq(DataService.Lines(text)[1..], ParseSubDomain)
  }

  function SubdomainsOf(subs: seq<TableSubDomain>, id: int): seq<TableSubDomain> {
    Filter(subs, (s: TableSubDomain) => s.domain == id)
  }

  /** Each domain with the subdomains whose `domain` equals its id. */
  function JoinSubdomains(domains: seq<TableDomain>, subs: seq<TableSubDomain>): (r: seq<DomainWithSubdomains>)
    ensures |r| == |domains|
    ensures forall i :: 0 <= i < |r| ==> r[i].domain == domains[i]
  {
    seq(|domains|, i requires 0 <= i < |domains| => DomainWithSubdomains(domains[i], SubdomainsOf(subs, domains[i].id)))
  }

  /** A domain's list holds exactly the subdomains pointing at it. */
  lemma JoinExact(domains: seq<TableDomain>, subs: seq<TableSubDomain>, i: nat, s: TableSubDomain)
    requires i < |domains|
    ensures s in JoinSubdomains(domains, subs)[i].subdomains <==> s in subs && s.domain == domains[i].id
  {
    var list := SubdomainsOf(subs, domains[i].id);
    if s in list {
      var k :| 0 <= k < |list| && list[k] == s;
    }
    if s in subs && s.domain == domains[i].id {
      var k :| 0 <= k < |subs| && subs[k] == s;
    }
  }

  /** The lists keep the subdomains' file order. */
  lemma JoinKeepsOrder(domains: seq<TableDomain>, subs: seq<TableSubDomain>, more: seq<TableSubDomain>, i: nat)
    requires i < |domains|
    ensures JoinSubdomains(domains, subs + more)[i].subdomains
            == JoinSubdomains(domains, subs)[i].subdomains + JoinSubdomains(domains, more)[i].subdomains
  {
    FilterAppend(subs, more, (s: TableSubDomain) => s.domain == domains[i].id);
  }

  /** A subdomain whose parent id matches no domain appears nowhere. */
  lemma OrphanNowhere(domains: seq<TableDomain>, subs: seq<TableSubDomain>, s: TableSubDomain)
    requires forall i :: 0 <= i < |domains| ==> domains[i].id != s.domain
    ensures forall i :: 0 <= i < |domains| ==> s !in JoinSubdomains(domains, subs)[i].subdomains
  {
    forall i | 0 <= i < |domains|
      ensures s !in JoinSubdomains(domains, subs)[i].subdomains
    {
      JoinExact(domains, subs, i, s);
    }
  }

  /** The search test: the domain's name, or one of its subdomains' names,
      contains the query case-insensitively. */
  predicate Matches(d: DomainWithSubdomains, query: string) {
    ContainsIgnoreCase(d.domain.name, query)
    || exists k :: 0 <= k < |d.subdomains| && ContainsIgnoreCase(d.subdomains[k].name, query)
  }

  /** handleSearch: an empty query shows every domain. */
  function Search(domains: seq<DomainWithSubdomains>, query: string): (r: seq<DomainWithSubdomains>)
    ensures query == "" ==> r == domains
    ensures query != "" ==> forall d :: d in r <==> d in domains && Matches(d, query)
  {
    if query == "" then domains
    else
      var r := Filter(domains, (d: DomainWithSubdomains) => Matches(d, query));
      assert forall d :: d in r ==> d in domains && Matches(d, query) by {
        forall d | d in r
          ensures d in domains && Matches(d, query)
        {
          var k :| 0 <= k < |r| && r[k] == d;
        }
      }
      assert forall d :: d in domains && Matches(d, query) ==> d in r by {
        forall d | d in domains && Matches(d, query)
          ensures d in r
        {
          var k :| 0 <= k < |domains| && domains[k] == d;
        }
      }
      r
  }

  /** The search keeps the table order: searching a concatenation is
      concatenating the searches. */
  lemma SearchKeepsOrder(a: seq<DomainWithSubdomains>, b: seq<DomainWithSubdomains>, query: string)
    ensures Search(a + b, query) == Search(a, query) + Search(b, query)
  {
    if query != "" {
      FilterAppend(a, b, (d: DomainWithSubdomains) => Matches(d, query));
    }
  }

  const DefaultIcon := "📊"

  /** getDomainIcon's table in declaration order. */
  const IconTable: seq<(string, string)> := [
    ("Crops", "🌾"), ("Livestock", "🐄"), ("Fisheries", "🐟"), ("Land", "🌍"),
    ("Inputs", "⚙️"), ("Trade", "🚢"), ("Prices", "💰"), ("Nutrition", "🍎"),
    ("Population", "👥"), ("Economic", "📈"), ("Investment", "💼"), ("Primary Supply", "📦")]

  /** Entry `k` is the first entry whose key occurs in the name. */
  predicate ChosenAt(name: string, k: int) {
    0 <= k < |IconTable| && ContainsIgnoreCase(name, IconTable[k].0)
    && forall j :: 0 <= j < k ==> !ContainsIgnoreCase(name, IconTable[j].0)
  }

  /** getDomainIcon: the first entry's emoji, else the chart icon. */
  function DomainIcon(name: string): (r: string)
    ensures forall k :: ChosenAt(name, k) ==> r == IconTable[k].1
    ensures (forall k :: 0 <= k < |IconTable| ==> !ContainsIgnoreCase(name, IconTable[k].0)) ==> r == DefaultIcon
  {
    FirstMatch(IconTable, key => ContainsIgnoreCase(name, key), DefaultIcon)
  }

  /** A crop domain gets the sheaf icon whatever else its name holds. */
  lemma CropsFirst(name: string)
    requires ContainsIgnoreCase(name, "Crops")
    ensures DomainIcon(name) == "🌾"
  {
    assert ChosenAt(name, 0);
  }
}
