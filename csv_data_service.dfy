/** The static-file loader of src/services/csvDataService.ts: a CSV file
    is split into non-blank lines, the first line names the columns, every
    other line becomes a row object that an entity parser turns into a
    record or drops, and each successful load is cached by file name. */
module CsvDataService {
  import opened Base
  import opened CsvLine
  import opened CsvRow

  // ---------------------------------------------------------------------
  // Entities as the CSV parsers build them; `id` is None where
  // parseInt gives NaN.

  datatype Domain = Domain(id: Option<int>, name: string, code: string, description: string, subsector: int)
  datatype County = County(id: Option<int>, name: string, code: string)
  datatype SubDomain = SubDomain(id: Option<int>, name: string, code: string, description: string, domain: int)
  datatype Element = Element(id: Option<int>, name: string, code: string, description: string, subdomain: int)
  datatype Item = Item(id: Option<int>, name: string, code: string, description: string,
                       element: int, itemcategory: int, periodicity: string)
  datatype ItemCategory = ItemCategory(id: Option<int>, name: string, code: string, description: string)
  datatype Unit = Unit(id: Option<int>, name: string, abbreviation: string, description: string)
  datatype Subsector = Subsector(id: int, name: string, code: string, description: string)

  const DomainFile := "Domain-2025-08-14.csv"
  const CountyFile := "County-2025-08-18.csv"
  const SubDomainFile := "SubDomain-2025-08-18.csv"
  const ElementFile := "Element-2025-08-14.csv"
  const ItemFile := "Item-2025-08-14.csv"
  const ItemCategoryFile := "ItemCategory-2025-08-14.csv"
  const UnitFile := "Unit-2025-08-18.csv"

  // ---------------------------------------------------------------------
  // From text to rows

  /** `csvText.split('\n').filter(line => line.trim())`. */
  function NonBlankLines(text: string): (r: seq<string>)
    ensures forall k :: 0 <= k < |r| ==> Trim(r[k]) != "" && r[k] in Split(text, '\n')
    ensures forall k :: 0 <= k < |Split(text, '\n')| && Trim(Split(text, '\n')[k]) != "" ==> Split(text, '\n')[k] in r
    ensures '\n' !in text ==> r == (if Trim(text) != "" then [text] else [])
  {
    var r := Filter(Split(text, '\n'), (l: string) => Trim(l) != "");
    if '\n' in text then r
    else
      SplitNoSep(text, '\n');
      r
  }

  /** The lines on either side of a line break are kept in text order. */
  lemma NonBlankLinesAppend(a: string, b: string)
    ensures NonBlankLines(a + "\n" + b) == NonBlankLines(a) + NonBlankLines(b)
  {
    SplitConcat(a, b, '\n');
    FilterAppend(Split(a, '\n'), Split(b, '\n'), (l: string) => Trim(l) != "");
  }

  /** A header name: trimmed, then every double quote removed. */
  function HeaderName(h: string): (r: string)
    ensures '"' !in r
    ensures forall x :: x in r <==> x in Trim(h) && x != '"'
    ensures '"' !in h ==> r == Trim(h)
  {
    if '"' in h then StripChar(Trim(h), '"')
    else
      TrimKeeps(h, '"');
      StripCharAbsent(Trim(h), '"');
      StripChar(Trim(h), '"')
  }

  function HeaderNames(line: string): (r: seq<string>)
    ensures |r| == |Split(line, ',')|
  {
    var parts := Split(line, ',');
    seq(|parts|, k requires 0 <= k < |parts| => HeaderName(parts[k]))
  }

  /** The row objects of the data lines; None where the source throws
      because there is no first line. */
  function Rows(text: string): (r: Option<seq<Row>>)
    ensures r.None? <==> NonBlankLines(text) == []
    ensures r.Some? ==> |r.value| == |NonBlankLines(text)| - 1
    ensures r.Some? ==> r.value == RowsUnder(HeaderNames(NonBlankLines(text)[0]), NonBlankLines(text)[1..])
  {
    var lines := NonBlankLines(text);
    if lines == [] then None else Some(RowsUnder(HeaderNames(lines[0]), lines[1..]))
  }

  /** Row k is non-blank line k + 1 under the first line's column names. */
  lemma RowAt(text: string, k: nat)
    requires Rows(text).Some? && k < |Rows(text).value|
    ensures Rows(text).value[k] == RowOf(HeaderNames(NonBlankLines(text)[0]), Fields(NonBlankLines(text)[k + 1]))
  {
    var lines := NonBlankLines(text);
    assert lines[1..][k] == lines[k + 1];
  }

  /** Each line split into fields and keyed by the column names. */
  function RowsUnder(headers: seq<string>, lines: seq<string>): (r: seq<Row>)
    ensures |r| == |lines| && forall k :: 0 <= k < |r| ==> r[k] == RowOf(headers, Fields(lines[k]))
  {
    MapSeq(lines, (l: string) => RowOf(headers, Fields(l)))
  }

  /** The values of the parsed rows, dropping the nulls, in line order. */
  function Somes<T>(xs: seq<Option<T>>): (r: seq<T>)
    ensures |r| <= |xs|
    ensures forall k :: 0 <= k < |r| ==> Some(r[k]) in xs
    ensures forall k :: 0 <= k < |xs| && xs[k].Some? ==> xs[k].value in r
    ensures |xs| == 1 ==> r == (if xs[0].Some? then [xs[0].value] else [])
  {
    if xs == [] then []
    else (match xs[0] case Some(v) => [v] case None => []) + Somes(xs[1..])
  }

  /** Dropping works piecewise, so the kept values keep their order. */
  lemma {:induction false} SomesAppend<T>(a: seq<Option<T>>, b: seq<Option<T>>)
    ensures Somes(a + b) == Somes(a) + Somes(b)
  {
    if a == [] {
      assert a + b == b;
    } else {
      var ab := a + b;
      assert ab[0] == a[0] && ab[1..] == a[1..] + b;
      SomesAppend(a[1..], b);
      var h := match a[0] case Some(v) => [v] case None => [];
      AppendAssoc(h, Somes(a[1..]), Somes(b));
    }
  }

  lemma {:induction false} SomesAll<T>(xs: seq<Option<T>>)
    requires forall k :: 0 <= k < |xs| ==> xs[k].Some?
    ensures |Somes(xs)| == |xs|
    ensures forall k :: 0 <= k < |xs| ==> Somes(xs)[k] == xs[k].value
  {
    if xs != [] {
      SomesAll(xs[1..]);
    }
  }

  /** `rows.map(parser)`. */
  function ParseEach<T>(rows: seq<Row>, parser: Row -> Option<T>): (r: seq<Option<T>>)
    ensures |r| == |rows| && forall k :: 0 <= k < |rows| ==> r[k] == parser(rows[k])
  {
    MapSeq(rows, parser)
  }

  /** The records a file yields, None when loading throws. */
  function Parse<T>(text: string, parser: Row -> Option<T>): (r: Option<seq<T>>)
    ensures r.None? <==> NonBlankLines(text) == []
    ensures r.Some? ==> |r.value| <= |NonBlankLines(text)| - 1
  {
    match Rows(text)
    case None => None
    case Some(rows) => Some(Somes(ParseEach(rows, parser)))
  }

  /** The records are exactly the values the parser gives for the rows;
      their order is the rows' order (SomesAppend). */
  lemma ParseRecords<T>(text: string, parser: Row -> Option<T>)
    ensures Parse(text, parser).Some? ==> Parse(text, parser).value == Somes(ParseEach(Rows(text).value, parser))
    ensures Parse(text, parser).Some? ==> forall j :: 0 <= j < |Parse(text, parser).value| ==>
              exists k :: 0 <= k < |Rows(text).value| && parser(Rows(text).value[k]) == Some(Parse(text, parser).value[j])
    ensures Parse(text, parser).Some? ==> forall k :: 0 <= k < |Rows(text).value| && parser(Rows(text).value[k]).Some? ==>
              parser(Rows(text).value[k]).value in Parse(text, parser).value
  {
    if Rows(text).Some? {
      ParsedRows(Rows(text).value, parser);
    }
  }

  lemma ParsedRows<T>(rows: seq<Row>, parser: Row -> Option<T>)
    ensures forall j :: 0 <= j < |Somes(ParseEach(rows, parser))| ==>
              exists k :: 0 <= k < |rows| && parser(rows[k]) == Some(Somes(ParseEach(rows, parser))[j])
  {
    var xs := ParseEach(rows, parser);
    var r := Somes(xs);
    forall j | 0 <= j < |r|
      ensures exists k :: 0 <= k < |rows| && parser(rows[k]) == Some(r[j])
    {
      var k :| 0 <= k < |xs| && xs[k] == Some(r[j]);
    }
  }

  // ---------------------------------------------------------------------
  // The cache

  /** What fetching `/data/<filename>` gives: the text or a status. */
  datatype FileResponse = FileOk(text: string) | FileError(status: int)

  /** The file cache of one record type. The source keeps one untyped Map
      for all files; every getter uses its own file name, so one cache per
      record type holds the same entries. */
  class CsvCache<T> {
    var cache: map<string, seq<T>>
    /** Number of files fetched. */
    ghost var fetches: nat

    constructor()
      ensures cache == map[] && fetches == 0
    {
      cache := map[];
      fetches := 0;
    }

    /** loadCsvData: a cached file is returned without a fetch; a failed
        fetch or a file without lines gives [] and caches nothing. */
    method LoadCsvData(filename: string, parser: Row -> Option<T>, response: FileResponse)
      returns (r: seq<T>)
      modifies this
      ensures filename in old(cache) ==>
        r == old(cache)[filename] && cache == old(cache) && fetches == old(fetches)
      ensures filename !in old(cache) ==> fetches == old(fetches) + 1
      ensures filename !in old(cache) && response.FileError? ==> r == [] && cache == old(cache)
      ensures filename !in old(cache) && response.FileOk? ==>
        match Parse(response.text, parser)
        case None => r == [] && cache == old(cache)
        case Some(data) => r == data && cache == old(cache)[filename := data]
    {
      if filename in cache {
        return cache[filename];
      }
      fetches := fetches + 1;
      match response {
        case FileError(_) =>
          return [];
        case FileOk(text) =>
          match Parse(text, parser) {
            case None =>
              return [];
            case Some(data) =>
              cache := cache[filename := data];
              return data;
          }
      }
    }
  }

  /** Two loads of one file: after a success the second call is answered
      from the cache with the same records; after a failure it fetches
      again. */
  method LoadTwice<T>(c: CsvCache<T>, filename: string, parser: Row -> Option<T>,
                      first: FileResponse, second: FileResponse)
    returns (r1: seq<T>, r2: seq<T>)
    modifies c
    ensures filename in old(c.cache) || (first.FileOk? && NonBlankLines(first.text) != []) ==>
      r2 == r1 && c.fetches <= old(c.fetches) + 1
    ensures filename !in old(c.cache) && (first.FileError? || NonBlankLines(first.text) == []) ==>
      r1 == [] && c.fetches == old(c.fetches) + 2
  {
    r1 := c.LoadCsvData(filename, parser, first);
    r2 := c.LoadCsvData(filename, parser, second);
  }

  // ---------------------------------------------------------------------
  // Entity parsers

  /** `row.x?.replace(/"/g, '') || ''`. */
  function Text(row: Row, key: string): (r: string)
    ensures '"' !in r
    ensures forall x :: x in r <==> x in Get(row, key) && x != '"'
    ensures '"' !in Get(row, key) ==> r == Get(row, key)
    ensures key !in row ==> r == ""
  {
    if '"' in Get(row, key) then StripChar(Get(row, key), '"')
    else
      StripCharAbsent(Get(row, key), '"');
      StripChar(Get(row, key), '"')
  }

  /** A row without an id or a name is dropped. */
  predicate Named(row: Row) {
    Get(row, "id") != "" && Get(row, "name") != ""
  }

  function ParseDomain(row: Row): (r: Option<Domain>)
    ensures r.None? <==> !Named(row)
    ensures r.Some? ==> r.value.id == ParseInt(Get(row, "id")) && r.value.subsector == IntOrZero(Get(row, "subsector"))
    ensures r.Some? ==> r.value.name == Text(row, "name") && r.value.code == Text(row, "code")
    ensures r.Some? ==> r.value.description == Text(row, "description")
  {
    if !Named(row) then None
    else Some(Domain(ParseInt(Get(row, "id")), Text(row, "name"), Text(row, "code"), Text(row, "description"),
                     IntOrZero(Get(row, "subsector"))))
  }

  function ParseCounty(row: Row): (r: Option<County>)
    ensures r.None? <==> !Named(row)
    ensures r.Some? ==> r.value.id == ParseInt(Get(row, "id"))
    ensures r.Some? ==> r.value.name == Text(row, "name") && r.value.code == Text(row, "code")
  {
    if !Named(row) then None
    else Some(County(ParseInt(Get(row, "id")), Text(row, "name"), Text(row, "code")))
  }

  function ParseSubDomain(row: Row): (r: Option<SubDomain>)
    ensures r.None? <==> !Named(row)
    ensures r.Some? ==> r.value.id == ParseInt(Get(row, "id")) && r.value.domain == IntOrZero(Get(row, "domain"))
    ensures r.Some? ==> r.value.name == Text(row, "name") && r.value.code == Text(row, "code")
    ensures r.Some? ==> r.value.description == Text(row, "description")
  {
    if !Named(row) then None
    else Some(SubDomain(ParseInt(Get(row, "id")), Text(row, "name"), Text(row, "code"), Text(row, "description"),
                        IntOrZero(Get(row, "domain"))))
  }

  function ParseElement(row: Row): (r: Option<Element>)
    ensures r.None? <==> !Named(row)
    ensures r.Some? ==> r.value.id == ParseInt(Get(row, "id")) && r.value.subdomain == IntOrZero(Get(row, "subdomain"))
    ensures r.Some? ==> r.value.name == Text(row, "name") && r.value.code == Text(row, "code")
    ensures r.Some? ==> r.value.description == Text(row, "description")
  {
    if !Named(row) then None
    else Some(Element(ParseInt(Get(row, "id")), Text(row, "name"), Text(row, "code"), Text(row, "description"),
                      IntOrZero(Get(row, "subdomain"))))
  }

  function ParseItem(row: Row): (r: Option<Item>)
    ensures r.None? <==> !Named(row)
    ensures r.Some? ==> r.value.id == ParseInt(Get(row, "id"))
    ensures r.Some? ==>
              r.value.element == IntOrZero(Get(row, "element"))
              && r.value.itemcategory == IntOrZero(Get(row, "itemcategory"))
    ensures r.Some? ==> r.value.name == Text(row, "name") && r.value.code == Text(row, "code")
    ensures r.Some? ==> r.value.description == Text(row, "description") && r.value.periodicity == Text(row, "periodicity")
  {
    if !Named(row) then None
    else Some(Item(ParseInt(Get(row, "id")), Text(row, "name"), Text(row, "code"), Text(row, "description"),
                   IntOrZero(Get(row, "element")), IntOrZero(Get(row, "itemcategory")), Text(row, "periodicity")))
  }

  function ParseItemCategory(row: Row): (r: Option<ItemCategory>)
    ensures r.None? <==> !Named(row)
    ensures r.Some? ==> r.value.id == ParseInt(Get(row, "id"))
    ensures r.Some? ==> r.value.name == Text(row, "name") && r.value.code == Text(row, "code")
    ensures r.Some? ==> r.value.description == Text(row, "description")
  {
    if !Named(row) then None
    else Some(ItemCategory(ParseInt(Get(row, "id")), Text(row, "name"), Text(row, "code"), Text(row, "description")))
  }

  function ParseUnit(row: Row): (r: Option<Unit>)
    ensures r.None? <==> !Named(row)
    ensures r.Some? ==> r.value.id == ParseInt(Get(row, "id"))
    ensures r.Some? ==> r.value.name == Text(row, "name") && r.value.abbreviation == Text(row, "abbreviation")
    ensures r.Some? ==> r.value.description == Text(row, "description")
  {
    if !Named(row) then None
    else Some(Unit(ParseInt(Get(row, "id")), Text(row, "name"), Text(row, "abbreviation"), Text(row, "description")))
  }

  /** A missing or non-numeric parent column becomes 0. */
  lemma MissingParentIsZero(row: Row)
    requires Named(row) && "subsector" !in row
    ensures ParseDomain(row).value.subsector == 0
  {
  }

  /** A parent column that reads as a number keeps that number. */
  lemma NumericParent(row: Row, n: int)
    requires Named(row) && Get(row, "domain") == IntToString(n)
    ensures ParseSubDomain(row).value.domain == n
  {
    ParseIntToString(n);
  }

  /** getSubsectors: four fixed entries, whatever the files hold. */
  function GetSubsectors(): (r: seq<Subsector>)
    ensures |r| == 4
    ensures forall k :: 0 <= k < 4 ==> r[k].id == k + 1
  {
    [Subsector(1, "Crops", "CROPS", "Crop production and agriculture"),
     Subsector(2, "Livestock", "LIVESTOCK", "Livestock and animal husbandry"),
     Subsector(3, "Forestry", "FORESTRY", "Forest resources and management"),
     Subsector(4, "Fisheries", "FISHERIES", "Fisheries and aquaculture")]
  }

  /** When the parser keeps every row, each data line yields one record. */
  lemma NothingDropped<T>(text: string, parser: Row -> Option<T>)
    requires Rows(text).Some?
    requires forall k :: 0 <= k < |Rows(text).value| ==> parser(Rows(text).value[k]).Some?
    ensures Parse(text, parser).Some? && |Parse(text, parser).value| == |NonBlankLines(text)| - 1
    ensures forall k :: 0 <= k < |Rows(text).value| ==> Parse(text, parser).value[k] == parser(Rows(text).value[k]).value
  {
    SomesAll(ParseEach(Rows(text).value, parser));
  }
}
