/** The older static-file loader of src/services/dataService.ts: the text
    is trimmed and split into lines, the first line is split on commas for
    the column names, and every later line becomes one record. Nothing is
    filtered, the HTTP status is not looked at and nothing is cached. */
module DataService {
  import opened Base
  import opened CsvLine
  import opened CsvRow

  datatype Abbreviation = Abbreviation(id: int, abbr: string, slug: string, description: string,
                                       created: string, updated: string)
  datatype County = County(id: int, name: string, code: string)
  datatype Flag = Flag(id: int, name: string, code: string, description: string)
  /** `element` and `itemcategory` stay text, as the CSV has them. */
  datatype Item = Item(id: int, name: string, code: string, description: string,
                       element: string, itemcategory: string, periodicity: string)
  datatype ItemCategory = ItemCategory(id: int, name: string, code: string, description: string)
  /** `subdomain` stays text. */
  datatype Element = Element(id: int, name: string, code: string, description: string, subdomain: string)
  datatype Unit = Unit(id: int, name: string, abbreviation: string, description: string)

  /** `text.trim().split('\n')`: never empty, so a first line always exists. */
  function Lines(text: string): (r: seq<string>)
    ensures |r| >= 1
  {
    Split(Trim(text), '\n')
  }

  /** The header line split on every comma, names kept untrimmed. */
  function Headers(text: string): seq<string> {
    Split(Lines(text)[0], ',')
  }

  /** The records of a file: record k is the parser's view of line k + 1
      as a row object under the header names. */
  function Records<T>(text: string, parser: Row -> T): (r: seq<T>)
    ensures |r| == |Lines(text)| - 1
    ensures forall k :: 0 < k < |Lines(text)| ==> r[k - 1] == RecordOf(Headers(text), Lines(text)[k], parser)
  {
    RecordsOf(Headers(text), Lines(text)[1..], parser)
  }

  /** The records of some data lines under the given column names. */
  function RecordsOf<T>(headers: seq<string>, lines: seq<string>, parser: Row -> T): (r: seq<T>)
    ensures |r| == |lines| && forall k :: 0 <= k < |lines| ==> r[k] == RecordOf(headers, lines[k], parser)
  {
    MapSeq(lines, (l: string) => RecordOf(headers, l, parser))
  }

  /** The record of one data line. */
  function RecordOf<T>(headers: seq<string>, line: string, parser: Row -> T): T {
    parser(RowOf(headers, Fields(line)))
  }

  /** loadCSV: `response` is the body text, or None when the request or
      the body read rejects (the error path, which yields []). */
  method LoadCsv<T>(response: Option<string>, parser: Row -> T) returns (r: seq<T>)
    ensures response.None? ==> r == []
    ensures response.Some? ==> r == Records(response.value, parser)
  {
    match response {
      case None =>
        r := [];
      case Some(text) =>
        r := ParseText(text, parser);
    }
  }

  /** The lines after the header, then the mapping over them. */
  method ParseText<T>(text: string, parser: Row -> T) returns (r: seq<T>)
    ensures r == Records(text, parser)
  {
    var lines := Lines(text);
    var headers := Split(lines[0], ',');
    r := MapRows(headers, lines[1..], parser);
  }

  /** `lines.map(...)`: each line scanned into values, the values keyed by
      the header names, the row handed to the parser. */
  method MapRows<T>(headers: seq<string>, lines: seq<string>, parser: Row -> T) returns (r: seq<T>)
    ensures r == RecordsOf(headers, lines, parser)
  {
    r := [];
    for k := 0 to |lines|
      invariant |r| == k && forall j :: 0 <= j < k ==> r[j] == RecordOf(headers, lines[j], parser)
    {
      var values := ParseCsvLine(lines[k]);
      var row := FillRow(headers, values);
      r := r + [parser(row)];
    }
  }

  /** `parseInt(row.id) || 0`. */
  function Id(row: Row): (n: int)
    ensures ParseInt(Get(row, "id")).None? ==> n == 0
    ensures ParseInt(Get(row, "id")).Some? && ParseInt(Get(row, "id")).value != 0 ==> n == ParseInt(Get(row, "id")).value
  {
    IntOrZero(Get(row, "id"))
  }

  // Each parser reads the column of the field's own name, '' when the row
  // has no such column; `id` alone is parsed.

  function ParseAbbreviation(row: Row): (a: Abbreviation)
    ensures a.id == Id(row) && a.abbr == Get(row, "abbr") && a.slug == Get(row, "slug")
    ensures a.description == Get(row, "description") && a.created == Get(row, "created") && a.updated == Get(row, "updated")
  {
    Abbreviation(Id(row), Get(row, "abbr"), Get(row, "slug"), Get(row, "description"),
                 Get(row, "created"), Get(row, "updated"))
  }

  function ParseCounty(row: Row): (c: County)
    ensures c.id == Id(row) && c.name == Get(row, "name") && c.code == Get(row, "code")
  {
    County(Id(row), Get(row, "name"), Get(row, "code"))
  }

  function ParseFlag(row: Row): (f: Flag)
    ensures f.id == Id(row) && f.name == Get(row, "name") && f.code == Get(row, "code")
    ensures f.description == Get(row, "description")
  {
    Flag(Id(row), Get(row, "name"), Get(row, "code"), Get(row, "description"))
  }

  /** `element` and `itemcategory` are the column texts, never parsed. */
  function ParseItem(row: Row): (i: Item)
    ensures i.id == Id(row) && i.name == Get(row, "name") && i.code == Get(row, "code")
    ensures i.description == Get(row, "description") && i.periodicity == Get(row, "periodicity")
    ensures i.element == Get(row, "element") && i.itemcategory == Get(row, "itemcategory")
  {
    Item(Id(row), Get(row, "name"), Get(row, "code"), Get(row, "description"),
         Get(row, "element"), Get(row, "itemcategory"), Get(row, "periodicity"))
  }

  function ParseItemCategory(row: Row): (c: ItemCategory)
    ensures c.id == Id(row) && c.name == Get(row, "name") && c.code == Get(row, "code")
    ensures c.description == Get(row, "description")
  {
    ItemCategory(Id(row), Get(row, "name"), Get(row, "code"), Get(row, "description"))
  }

  /** `subdomain` is the column text, never parsed. */
  function ParseElement(row: Row): (e: Element)
    ensures e.id == Id(row) && e.name == Get(row, "name") && e.code == Get(row, "code")
    ensures e.description == Get(row, "description") && e.subdomain == Get(row, "subdomain")
  {
    Element(Id(row), Get(row, "name"), Get(row, "code"), Get(row, "description"), Get(row, "subdomain"))
  }

  function ParseUnit(row: Row): (u: Unit)
    ensures u.id == Id(row) && u.name == Get(row, "name") && u.abbreviation == Get(row, "abbreviation")
    ensures u.description == Get(row, "description")
  {
    Unit(Id(row), Get(row, "name"), Get(row, "abbreviation"), Get(row, "description"))
  }

  /** A column the header names reads, on every data line, the value at the
      header's last position, '' where the line is shorter: a county's name
      is the value under the last "name" heading. */
  lemma ColumnValue(text: string, k: nat, i: nat)
    requires 0 < k < |Lines(text)|
    requires i < |Headers(text)| && LastAt(Headers(text), i)
    ensures Get(RowOf(Headers(text), Fields(Lines(text)[k])), Headers(text)[i]) == Cell(Fields(Lines(text)[k]), i)
    ensures Headers(text)[i] == "name" ==> Records(text, ParseCounty)[k - 1].name == Cell(Fields(Lines(text)[k]), i)
    ensures Headers(text)[i] == "code" ==> Records(text, ParseCounty)[k - 1].code == Cell(Fields(Lines(text)[k]), i)
  {
    RowOfLast(Headers(text), Fields(Lines(text)[k]));
  }

  /** Missing columns read as '': a file whose header lacks `code` gives
      every county the code ''. */
  lemma MissingColumnIsEmpty(text: string, k: nat)
    requires 0 < k < |Lines(text)|
    requires "code" !in Headers(text)
    ensures Records(text, ParseCounty)[k - 1].code == ""
  {
    var row := RowOf(Headers(text), Fields(Lines(text)[k]));
    assert Records(text, ParseCounty)[k - 1] == ParseCounty(row);
    RowOfKeys(Headers(text), Fields(Lines(text)[k]));
    assert "code" !in row;
  }

  /** A line with fewer values than the header has columns gives '' under
      every column past its last value. */
  lemma ShortLineFillsEmpty(text: string, k: nat, i: nat)
    requires 0 < k < |Lines(text)|
    requires i < |Headers(text)| && LastAt(Headers(text), i)
    requires |Fields(Lines(text)[k])| <= i
    ensures Get(RowOf(Headers(text), Fields(Lines(text)[k])), Headers(text)[i]) == ""
    ensures Headers(text)[i] == "name" ==> Records(text, ParseCounty)[k - 1].name == ""
    ensures Headers(text)[i] == "code" ==> Records(text, ParseCounty)[k - 1].code == ""
  {
    ColumnValue(text, k, i);
  }
}
