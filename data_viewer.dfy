/** The data viewer: the fact-table request for the current selections,
    the records shown 50 to a page with previous/next controls, the range
    label, and the table cells with their name lookups. */
module DataViewer {
  import opened Base
  import ApiService

  type Record = ApiService.KilimoDataRecord

  const ItemsPerPage: nat := 50

  // ---------------------------------------------------------------------
  // The request

  /** `loadData`'s request: none while counties, elements or years is
      empty; items are sent only when some are selected. Each selection
      set is given as its elements in insertion order. */
  function DataQuery(counties: seq<int>, elements: seq<int>, items: seq<int>, years: seq<int>,
                     subdomainId: int): (r: Option<ApiService.KilimoDataParams>)
    ensures r.None? <==> counties == [] || elements == [] || years == []
  {
    if counties == [] || elements == [] || years == [] then None
    else Some(ApiService.KilimoDataParams(Some(counties), Some(elements),
                                          if items != [] then Some(items) else None,
                                          Some(years), Some(subdomainId)))
  }

  /** The query string carries the selected counties, elements and years,
      the items only when some are selected (no item filter otherwise),
      and the subdomain when it is not 0. */
  lemma DataQueryValues(counties: seq<int>, elements: seq<int>, items: seq<int>, years: seq<int>,
                        subdomainId: int)
    requires counties != [] && elements != [] && years != []
    ensures var params := DataQuery(counties, elements, items, years, subdomainId).value;
      var pairs := ApiService.QueryPairs(params);
      && ApiService.ValuesOf(pairs, "county") == ApiService.Strings(counties)
      && ApiService.ValuesOf(pairs, "element") == ApiService.Strings(elements)
      && ApiService.ValuesOf(pairs, "item") == ApiService.Strings(items)
      && ApiService.ValuesOf(pairs, "refyear") == ApiService.Strings(years)
      && ApiService.ValuesOf(pairs, "subdomain") == if subdomainId != 0 then [IntToString(subdomainId)] else []
  {
    var params := DataQuery(counties, elements, items, years, subdomainId).value;
    ApiService.QueryPairsValues(params, "county");
    ApiService.QueryPairsValues(params, "element");
    ApiService.QueryPairsValues(params, "item");
    ApiService.QueryPairsValues(params, "refyear");
    ApiService.QueryPairsValues(params, "subdomain");
  }

  // ---------------------------------------------------------------------
  // Pages

  /** `Math.ceil(n / itemsPerPage)`. */
  function PageCount(n: nat): (r: nat)
    ensures r * ItemsPerPage >= n
    ensures r > 0 ==> (r - 1) * ItemsPerPage < n
  {
    (n + ItemsPerPage - 1) / ItemsPerPage
  }

  /** `data.slice((page - 1) * 50, (page - 1) * 50 + 50)`. */
  function PageData(data: seq<Record>, page: int): seq<Record> {
    var start := (page - 1) * ItemsPerPage;
    var from := SliceStart(|data|, start);
    var to := SliceStart(|data|, start + ItemsPerPage);
    if from <= to then data[from..to] else []
  }

  /** Page `page` of 1..PageCount holds the records from (page - 1) * 50
      up to page * 50 or the end, at least one and at most 50. */
  lemma PageBounds(data: seq<Record>, page: int)
    requires 1 <= page <= PageCount(|data|)
    ensures PageData(data, page) == data[(page - 1) * ItemsPerPage..Min(page * ItemsPerPage, |data|)]
    ensures 1 <= |PageData(data, page)| <= ItemsPerPage
  {
  }

  /** Pages 1..k laid end to end. */
  function FirstPages(data: seq<Record>, k: nat): seq<Record> {
    if k == 0 then [] else FirstPages(data, k - 1) + PageData(data, k)
  }

  /** Any page from 1 on, in range or past the end, is the slice between
      its clamped bounds. */
  lemma PageSlice(data: seq<Record>, k: nat)
    requires k >= 1
    ensures Min((k - 1) * ItemsPerPage, |data|) <= Min(k * ItemsPerPage, |data|)
    ensures PageData(data, k) == data[Min((k - 1) * ItemsPerPage, |data|)..Min(k * ItemsPerPage, |data|)]
  {
  }

  lemma {:induction false} FirstPagesPrefix(data: seq<Record>, k: nat)
    ensures FirstPages(data, k) == data[..Min(k * ItemsPerPage, |data|)]
  {
    if k > 0 {
      FirstPagesPrefix(data, k - 1);
      PageSlice(data, k);
      var a := Min((k - 1) * ItemsPerPage, |data|);
      var b := Min(k * ItemsPerPage, |data|);
      assert FirstPages(data, k) == data[..a] + data[a..b];
      assert data[..a] + data[a..b] == data[..b];
    }
  }

  /** The pages 1..totalPages, in order, are the data: every record is
      shown on exactly one page. */
  lemma PagesPartition(data: seq<Record>)
    ensures FirstPages(data, PageCount(|data|)) == data
  {
    FirstPagesPrefix(data, PageCount(|data|));
    assert data[..|data|] == data;
  }

  /** The previous and next buttons. */
  function PrevPage(page: int): int {
    Max(1, page - 1)
  }

  function NextPage(page: int, totalPages: int): int {
    Min(totalPages, page + 1)
  }

  /** From a page in 1..totalPages both buttons stay in range; previous
      goes back one except on the first page, next goes on one except on
      the last. */
  lemma StepsStayInRange(page: int, totalPages: int)
    requires 1 <= page <= totalPages
    ensures 1 <= PrevPage(page) <= totalPages && 1 <= NextPage(page, totalPages) <= totalPages
    ensures PrevPage(page) == if page == 1 then 1 else page - 1
    ensures NextPage(page, totalPages) == if page == totalPages then page else page + 1
  {
  }

  /** The controls are drawn only when there is more than one page. */
  predicate ShowControls(totalPages: int) {
    totalPages > 1
  }

  /** After a load the controls appear exactly when there are more than 50
      records. */
  lemma ControlsWhenMoreThanAPage(n: nat)
    ensures ShowControls(PageCount(n)) <==> n > ItemsPerPage
  {
  }

  /** "Showing <first> to <last> of <n> results". */
  function RangeLabel(page: int, n: nat): string {
    "Showing " + IntToString((page - 1) * ItemsPerPage + 1) + " to "
      + IntToString(Min(page * ItemsPerPage, n)) + " of " + IntToString(n) + " results"
  }

  /** The numbers in the label: the first and last position shown. */
  function LabelRange(page: int, n: nat): (int, int) {
    ((page - 1) * ItemsPerPage + 1, Min(page * ItemsPerPage, n))
  }

  /** On a page in range the label names exactly the records shown:
      `first` is the position of the first one and the page holds
      `last - first + 1` records. */
  lemma LabelMatchesPage(data: seq<Record>, page: int)
    requires 1 <= page <= PageCount(|data|)
    ensures var (first, last) := LabelRange(page, |data|);
      && 1 <= first <= last <= |data|
      && PageData(data, page) == data[first - 1..last]
  {
    PageBounds(data, page);
  }

  /** The viewer's paging state: the loaded records, the page shown and
      the page count. */
  class Pager {
    var data: seq<Record>
    var currentPage: int
    var totalPages: int

    /** The page count is that of the data (or the initial 1 before any
        load), and the page is in range. */
    ghost predicate Valid()
      reads this
    {
      && (totalPages == PageCount(|data|) || (data == [] && totalPages == 1))
      && 1 <= currentPage <= Max(totalPages, 1)
    }

    constructor ()
      ensures Valid() && data == [] && currentPage == 1 && totalPages == 1
    {
      data := [];
      currentPage := 1;
      totalPages := 1;
    }

    /** A new result: its page count, and back to page 1. */
    method Load(result: seq<Record>)
      modifies this
      ensures Valid()
      ensures data == result && totalPages == PageCount(|result|) && currentPage == 1
    {
      data := result;
      totalPages := PageCount(|result|);
      currentPage := 1;
    }

    method Previous()
      requires Valid()
      modifies this
      ensures Valid()
      ensures currentPage == PrevPage(old(currentPage))
      ensures data == old(data) && totalPages == old(totalPages)
    {
      currentPage := Max(1, currentPage - 1);
    }

    /** Next is only offered while the controls are shown. */
    method Next()
      requires Valid() && ShowControls(totalPages)
      modifies this
      ensures Valid()
      ensures currentPage == NextPage(old(currentPage), old(totalPages))
      ensures data == old(data) && totalPages == old(totalPages)
    {
      currentPage := Min(totalPages, currentPage + 1);
    }

    /** `getCurrentPageData`. */
    function CurrentPageData(): seq<Record>
      reads this
    {
      PageData(data, currentPage)
    }
  }

  // ---------------------------------------------------------------------
  // Table cells

  /** A JavaScript value compared with `===`: a number never equals a
      string. */
  datatype JsValue = Num(n: int) | Str(s: string)

  /** The value in a template string. */
  function Text(v: JsValue): string {
    match v
    case Num(n) => IntToString(n)
    case Str(s) => s
  }

  /** `list.find(x => x.id === key)?.name || `<label> ${key}``: the name of
      the first entry with that id, or the label and the key when there is
      none or its name is empty. */
  function LookupName<T>(list: seq<T>, idOf: T -> int, nameOf: T -> string, key: JsValue, prefix: string): (r: string)
    ensures forall k ::
      (&& 0 <= k < |list| && Num(idOf(list[k])) == key
       && (forall j :: 0 <= j < k ==> Num(idOf(list[j])) != key)) ==>
        r == if nameOf(list[k]) != "" then nameOf(list[k]) else prefix + " " + Text(key)
    ensures (forall k :: 0 <= k < |list| ==> Num(idOf(list[k])) != key) ==> r == prefix + " " + Text(key)
  {
    match Find(list, (x: T) => Num(idOf(x)) == key)
    case Some(x) => if nameOf(x) != "" then nameOf(x) else prefix + " " + Text(key)
    case None => prefix + " " + Text(key)
  }

  function CountyName(counties: seq<ApiService.County>, key: JsValue): string {
    LookupName(counties, (c: ApiService.County) => c.id, (c: ApiService.County) => c.name, key, "County")
  }

  function ElementName(elements: seq<ApiService.Element>, key: JsValue): string {
    LookupName(elements, (e: ApiService.Element) => e.id, (e: ApiService.Element) => e.name, key, "Element")
  }

  function ItemName(items: seq<ApiService.Item>, key: JsValue): string {
    LookupName(items, (i: ApiService.Item) => i.id, (i: ApiService.Item) => i.name, key, "Item")
  }

  /** `getUnitName`: the unit whose id, as text, is `unitId`; its
      abbreviation, else its name, else "". */
  function UnitName(units: seq<ApiService.Unit>, unitId: string): (r: string)
    ensures forall k ::
      (&& 0 <= k < |units| && IntToString(units[k].id) == unitId
       && (forall j :: 0 <= j < k ==> IntToString(units[j].id) != unitId)) ==>
        r == if units[k].abbreviation != "" then units[k].abbreviation else units[k].name
    ensures (forall k :: 0 <= k < |units| ==> IntToString(units[k].id) != unitId) ==> r == ""
  {
    match Find(units, (u: ApiService.Unit) => IntToString(u.id) == unitId)
    case Some(u) => if u.abbreviation != "" then u.abbreviation else u.name
    case None => ""
  }

  /** The lookup tables the viewer loads. */
  datatype Reference = Reference(counties: seq<ApiService.County>, elements: seq<ApiService.Element>,
                                 items: seq<ApiService.Item>, units: seq<ApiService.Unit>)

  /** The seven cells of a table row, in column order. */
  datatype Row = Row(county: string, element: string, item: string, year: string, value: string,
                     unit: string, flag: string)

  /** A row as the component writes it. The county, element and item
      fields are text while the lookups compare number ids with `===`,
      and the year cell reads `record.year`, a field the record does not
      have, which renders as nothing. */
  function RowCellsAsWritten(ref: Reference, rec: Record): Row {
    Row(CountyName(ref.counties, Str(rec.county)), ElementName(ref.elements, Str(rec.element)),
        ItemName(ref.items, Str(rec.item)), "", rec.value,
        if rec.unit != "" then UnitName(ref.units, rec.unit) else "-",
        if rec.flag != "" then rec.flag else "-")
  }

  /** A lookup by a text key never matches a numeric id, so it always
      gives the fallback. */
  lemma TextKeyFallsBack<T>(list: seq<T>, idOf: T -> int, nameOf: T -> string, key: string, prefix: string)
    ensures LookupName(list, idOf, nameOf, Str(key), prefix) == prefix + " " + key
  {
  }

  /** As written, the county, element and item cells show "County <text>",
      "Element <text>" and "Item <text>" for every record. */
  lemma NameCellsFallBack(ref: Reference, rec: Record)
    ensures RowCellsAsWritten(ref, rec).county == "County " + rec.county
    ensures RowCellsAsWritten(ref, rec).element == "Element " + rec.element
    ensures RowCellsAsWritten(ref, rec).item == "Item " + rec.item
  {
    TextKeyFallsBack(ref.counties, (c: ApiService.County) => c.id, (c: ApiService.County) => c.name, rec.county, "County");
    TextKeyFallsBack(ref.elements, (e: ApiService.Element) => e.id, (e: ApiService.Element) => e.name, rec.element, "Element");
    TextKeyFallsBack(ref.items, (i: ApiService.Item) => i.id, (i: ApiService.Item) => i.name, rec.item, "Item");
  }

  /** As written, a record of the year 2020 shows an empty Year cell. */
  lemma YearCellCounterexample()
    ensures var rec := ApiService.KilimoDataRecord(1, "Nairobi", "", "", "", "", "", "", "", "", "", "2020", "5", "", "", "");
      rec.refyear == "2020" && RowCellsAsWritten(Reference([], [], [], []), rec).year == ""
  {
  }

  /** The row with the year cell showing the record's `refyear`. */
  function RowCells(ref: Reference, rec: Record): Row {
    RowCellsAsWritten(ref, rec).(year := rec.refyear)
  }

  /** The corrected row differs from the written one only in the year
      cell, which reads back as the record's year. */
  lemma RowCellsYear(ref: Reference, rec: Record)
    ensures RowCells(ref, rec).year == rec.refyear
    ensures ParseInt(RowCells(ref, rec).year) == ParseInt(rec.refyear)
    ensures RowCells(ref, rec).(year := "") == RowCellsAsWritten(ref, rec)
  {
  }

  /** The rows of the page shown: one per record of the page, in order,
      each with that record's year and value. */
  function PageRows(ref: Reference, data: seq<Record>, page: int): (r: seq<Row>)
    ensures |r| == |PageData(data, page)|
    ensures forall i :: 0 <= i < |r| ==>
      r[i].year == PageData(data, page)[i].refyear && r[i].value == PageData(data, page)[i].value
  {
    var shown := PageData(data, page);
    seq(|shown|, i requires 0 <= i < |shown| => RowCells(ref, shown[i]))
  }
}
