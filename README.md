# KILIMOSTAT dashboard — a verified model of its data handling

This project models, in Dafny, the logic of the KILIMOSTAT agricultural
statistics dashboard that is not rendering: how it talks to the
KILIMOSTAT REST service, how it reads its CSV reference files, and how its
pages aggregate, rank, page, search, select and export the fact records.
Each source file of that core has one module:

- `ViteConfig` — the development proxy's path rewrite (`vite.config.ts`),
  and the round trip it makes with the client's proxy-URL rewrite.
- `ApiService` — the REST client (`src/services/apiService.ts`): the
  proxy-URL rewrite, the memoised endpoint table (a class whose field is
  set once), the page walk over the three response shapes, the parent-id
  filters for subdomains, elements, items and item categories, the
  repeated-key query of the fact table and its CSV export. The network is
  a function from URL to response.
- `CsvLine` and `CsvRow` — the quote-toggling line splitter copied into
  three files, written as the character loop it is, and the row object
  built from a header line.
- `CsvDataService` — the static-file loader with its per-file cache (a
  class), the entity parsers and their null filter.
- `DataService` — the older static-file loader, which keeps every line.
- `CountyService` — the county file reader (a class holding the loaded
  list), the grouping by first letter and the lookups by id and name.
- `IndicatorService` — the element-by-year value table filled from fact
  records, and the totals, trailing window, comparison and distribution
  read off it.
- `MockDataService` and `MockFixtures` — the offline service: its fixture
  lists (the list getters return them as they are), the same parent-id
  filters as the REST client over them, the generator of one record per
  county, element, item and year requested, the unit rule, and the CSV
  export.
- `DomainsApi` — the query strings and paths of the domain endpoints
  (`src/services/api.ts`).
- `UseDomains` — the domains hook: filter merge, search, subsector filter,
  sort and export.
- `Rankings`, `CompareData`, `DataViewer`, `DomainsTable`,
  `DefinitionsStandards`, `DataTable`, `DomainCard` — the pages' state
  (classes where the component updates state in place) and the pure
  computations behind them.
- `Base` and `Sorting` — the JavaScript runtime behaviour the code relies
  on: `trim`, `split`, `join`, `includes`, `toLowerCase`, `parseInt`,
  `parseFloat`, `filter`, `find`, `indexOf`, `slice`, and the stable
  `Array.prototype.sort`, modelled as an insertion sort.

Loops in the source (the page walk, the CSV scanner, the aggregation maps,
the record generator) are methods with loop invariants, proved against the
functions that specify them; the properties are lemmas about those
functions.

Every list call walks the pages one after another and requests them again
on each call (`src/services/apiService.ts:144-168`); only the endpoint table
is stored. The fact query sends the ids it is given as they are
(`src/services/apiService.ts:239-257`).

## Model

| member | source | states |
|---|---|---|
| ViteConfig.RewriteRawPrefix | vite.config.ts:15 | the anchored pattern matches a raw prefix: "/kilimostat-apix" is rewritten, a path holding the prefix later is not |
| ViteConfig.RewrittenPrefixInternal | vite.config.ts:15 | the rewrite target equals the internal API path prefix of the data service |
| ViteConfig.RewriteToProxyUrl | vite.config.ts:11-15 | a proxy path forwarded to the internal origin and mapped back by toProxyUrl gives the same path |
| ViteConfig.ToProxyUrlRewrite | vite.config.ts:11-15 | an internal URL rewritten by toProxyUrl and forwarded by the proxy gives the same URL |
| ApiService.ToProxyUrl | src/services/apiService.ts:5-10 | an internal-API URL becomes the proxy path followed by the same tail, any other URL is unchanged, and no result starts with the internal prefix |
| ApiService.ToProxyUrlIdempotent | src/services/apiService.ts:5-10 | applying toProxyUrl twice is the same as once |
| ApiService.NextUrl | src/services/apiService.ts:160 | the walk stops exactly when `next` is absent or empty |
| ApiService.FetchAllPages | src/services/apiService.ts:144-168 | Walk: the loop's result is the page walk: a bare array ends it, an envelope appends its results and follows `next` through toProxyUrl, any other body is one item, a failed response discards everything |
| ApiService.WalkFuelMonotone | src/services/apiService.ts:148-165 | a walk that ends within some number of fetches ends the same way with more |
| ApiService.WalkSelfLoop | src/services/apiService.ts:158-160 | an envelope whose `next` leads back to its own URL never ends |
| ApiService.WalkErrorAfterPage | src/services/apiService.ts:150-152 | an error on the second page fails the whole request even though the first page was read |
| ApiService.PrependPrepend | src/services/apiService.ts:156-159 | collecting page `a` and then page `b` is collecting `a + b` |
| ApiService.ProxyTable | src/services/apiService.ts:138-140 | the endpoint table keeps every key of the raw table and every URL is in proxy form (toProxyUrl leaves it unchanged) |
| ApiService.Client.GetEndpoints | src/services/apiService.ts:128-142 | a cached table is returned without a request; otherwise one root request: an error status fails and caches nothing, a good response caches and returns the proxied table |
| ApiService.Client.GetList | src/services/apiService.ts:170-208 | each list getter walks the pages of its endpoint's URL from the stored table, or from the table a successful root request stores; a failed root request fails with its status and stores nothing; the root is requested exactly when no table was stored |
| ApiService.Client.GetKilimoData | src/services/apiService.ts:239-261 | the fact-table request walks the pages of the paginated endpoint with the built query, or fails with the root status; the table is stored after the first successful root request and the root is requested exactly when none was stored |
| ApiService.Client.DownloadKilimoData | src/services/apiService.ts:263-315 | a failed root request fails with its status; otherwise the result is the walk of the query URL passed through the export (the CSV text, None for no records), a failed page keeping its status and an unfinished walk staying unfinished; the stored table and root request count change as for getKilimoData |
| ApiService.TableAfter | src/services/apiService.ts:128-142 | a stored endpoint table is kept; without one, a table is stored exactly when the root request succeeds |
| ApiService.Exported | src/services/apiService.ts:263-315 | a walk that read every page becomes the CSV export of its records; a failed or unfinished walk stays as it is |
| ApiService.ListTwice | src/services/apiService.ts:128-142 | a second list call after a successful root request (or with a stored table) gives the same result and adds no root request; after a failed root request both calls request the root |
| ApiService.SubdomainsByDomain | src/services/apiService.ts:210-213 | exactly the subdomains of the domain, each from the input; a one-element list is kept or dropped whole |
| ApiService.SubdomainsByDomainAppend | src/services/apiService.ts:210-213 | the filter of two lists laid end to end is the filter of each in turn: matches keep their list order and multiplicity |
| ApiService.ElementsBySubdomain | src/services/apiService.ts:215-218 | exactly the elements of the subdomain, each from the input; a one-element list is kept or dropped whole |
| ApiService.ElementsBySubdomainAppend | src/services/apiService.ts:215-218 | the filter of two lists laid end to end is the filter of each in turn: matches keep their list order and multiplicity |
| ApiService.ItemsByCategory | src/services/apiService.ts:220-223 | exactly the items of the category, each from the input; a one-element list is kept or dropped whole |
| ApiService.ItemsByCategoryAppend | src/services/apiService.ts:220-223 | the filter of two lists laid end to end is the filter of each in turn: matches keep their list order and multiplicity |
| ApiService.Ids | src/services/apiService.ts:228 | the ids of the elements, position by position |
| ApiService.ItemsBySubdomain | src/services/apiService.ts:225-230 | exactly the items whose element is an element of the subdomain; a one-element list is kept or dropped whole |
| ApiService.ItemsBySubdomainAppend | src/services/apiService.ts:225-230 | the filter of two item lists laid end to end is the filter of each in turn: matches keep their list order and multiplicity |
| ApiService.CategoryIds | src/services/apiService.ts:234 | a category id is in the set iff some item carries it |
| ApiService.ItemCategoriesBySubdomain | src/services/apiService.ts:232-237 | exactly the categories some item of the subdomain uses, each from the category list; a one-element list is kept or dropped whole |
| ApiService.ItemCategoriesBySubdomainAppend | src/services/apiService.ts:232-237 | the categories of two category lists laid end to end are those of each in turn: kept in category-list order |
| ApiService.Pairs | src/services/apiService.ts:244 | one `key=id` pair per id, in order |
| ApiService.AppendPairs | src/services/apiService.ts:243-254 | the forEach appends one pair per array entry after the pairs already there |
| ApiService.BuildQuery | src/services/apiService.ts:241-257 | the appends build the query pairs: counties, elements, items, years, then the subdomain when it is set and not 0 |
| ApiService.ValuesOfAppend | src/services/apiService.ts:241-257 | the values read back under a key from two lists laid end to end are those of each list in turn |
| ApiService.ValuesOfPairs | src/services/apiService.ts:244-253 | the pairs of one array carry under their own key the ids as text, and nothing under any other key |
| ApiService.QueryPairsCount | src/services/apiService.ts:243-257 | the query has one pair per array entry plus one for a non-zero subdomain |
| ApiService.ValuesOfSubdomain | src/services/apiService.ts:255-257 | the subdomain pair is present exactly when the subdomain is set and not 0 |
| ApiService.ValuesOfQuery | src/services/apiService.ts:243-257 | the values under any key are the contributions of the five appends, each under its own key |
| ApiService.QueryValuesCounty | src/services/apiService.ts:243-245 | reading `county` back gives the county ids as text, in order |
| ApiService.QueryValuesElement | src/services/apiService.ts:246-248 | reading `element` back gives the element ids as text, in order |
| ApiService.QueryValuesItem | src/services/apiService.ts:249-251 | reading `item` back gives the item ids as text, in order |
| ApiService.QueryValuesYear | src/services/apiService.ts:252-254 | reading `refyear` back gives the years as text, in order |
| ApiService.QueryValuesOther | src/services/apiService.ts:255-257 | every other key carries only what the subdomain append sent |
| ApiService.QueryPairsValues | src/services/apiService.ts:241-257 | for every key, the values read back are those the parameters call for |
| ApiService.QueryPairsOrdered | src/services/apiService.ts:243-257 | keys appear in the order county, element, item, refyear, subdomain |
| ApiService.KilimoDataUrl | src/services/apiService.ts:259 | QueryString: with no parameters the URL is the paginated endpoint (or "undefined" when the table lacks it) followed by a bare `?` |
| ApiService.Headers | src/services/apiService.ts:270-283 | the heading row has nine fixed columns plus one per enabled option |
| ApiService.RowMatchesHeaders | src/services/apiService.ts:270-308 | cell k of every row is the field heading k names, and every cell except Year and Value is quoted |
| ApiService.CsvExport | src/services/apiService.ts:266-268 | there is no export exactly when there are no records |
| ApiService.ExportCsv | src/services/apiService.ts:285-313 | the loop pushing one line per record builds the export text |
| ApiService.CsvExportLines | src/services/apiService.ts:285-313 | when no cell holds a line break the export splits back into one line per record plus the heading line |
| CsvLine.ParseCsvLine | src/services/csvDataService.ts:38-58 | the character loop returns the fields of the line: the text between commas outside quotes, quotes dropped, each field trimmed |
| CsvLine.TrimAll | src/services/csvDataService.ts:49 | every field is trimmed, position by position |
| CsvLine.RunShape | src/services/csvDataService.ts:41-54 | the quote flag is the parity of the quotes read, one field ends per comma outside quotes, and no field holds a quote |
| CsvLine.FieldCount | src/services/csvDataService.ts:38-58 | a line has one field more than it has commas outside quotes |
| CsvLine.FieldsClean | src/services/csvDataService.ts:46-56 | no field holds a double quote, and none starts or ends with white space |
| CsvLine.RunAppend | src/services/csvDataService.ts:43-54 | reading `a` and then `b` is reading `a + b` |
| CsvLine.DoubledQuote | src/services/csvDataService.ts:46-47 | a doubled quote leaves the fields unchanged: it is not an escaped quote character |
| CsvLine.RunPlain | src/services/csvDataService.ts:43-54 | on a line without quotes the scanner splits at every comma |
| CsvLine.PlainLine | src/services/dataService.ts:25-45 | a line without quotes parses to its comma-separated pieces, trimmed |
| CsvLine.RunQuoted | src/services/csvDataService.ts:50-52 | inside quotes every character but a quote, commas included, joins the current field |
| CsvLine.QuotedField | src/components/DomainsTable.tsx:90-110 | a quoted field without inner quotes parses to that one field, trimmed, whatever commas it holds |
| CsvRow.FillRow | src/services/csvDataService.ts:23-26 | the forEach over the headers builds the row of headers and values |
| CsvRow.RowOfKeys | src/services/dataService.ts:13-16 | the row's properties are exactly the headers |
| CsvRow.RowOfLast | src/services/csvDataService.ts:24-26 | a header takes the value at its last position, or '' when that value is missing or empty |
| CsvRow.RowOfDistinct | src/services/dataService.ts:13-16 | with distinct headers every header reads its own column, and headers past the values read '' |
| CsvDataService.NonBlankLines | src/services/csvDataService.ts:18 | every kept line is a non-blank piece of the split and every non-blank piece is kept; a text without a line break is kept whole unless it is blank |
| CsvDataService.NonBlankLinesAppend | src/services/csvDataService.ts:18 | the non-blank lines on either side of a line break are kept in text order |
| CsvDataService.HeaderName | src/services/csvDataService.ts:19 | a column name holds exactly the characters of the trimmed header other than double quotes; a quote-free header is just trimmed |
| CsvDataService.Rows | src/services/csvDataService.ts:18-27 | a text with no non-blank line has no first line (the source throws, which the loader turns into []); otherwise the rows are the later non-blank lines under the first line's column names, one row per line |
| CsvDataService.RowsUnder | src/services/csvDataService.ts:21-27 | one row per line: each line's scanned values keyed by the column names, '' where the line runs out |
| CsvDataService.RowAt | src/services/csvDataService.ts:18-27 | row k is non-blank line k + 1, scanned and keyed by the names of the first non-blank line |
| CsvDataService.SomesAll | src/services/csvDataService.ts:28 | when the parser rejects nothing the filter drops nothing and record k is the value of entry k |
| CsvDataService.Somes | src/services/csvDataService.ts:28 | the null filter keeps exactly the present values; a one-entry list is kept or dropped whole |
| CsvDataService.SomesAppend | src/services/csvDataService.ts:28 | the null filter of two lists laid end to end is the filter of each in turn, so the records keep the line order |
| CsvDataService.ParseEach | src/services/csvDataService.ts:21-28 | the parser is applied to every row, in order |
| CsvDataService.Parse | src/services/csvDataService.ts:17-28 | parsing fails exactly when the text has no non-blank line, and otherwise yields at most one record per data line |
| CsvDataService.ParseRecords | src/services/csvDataService.ts:17-28 | the records are the null filter of the parsed rows, in row order: every record is the parse of some row and every row that parses gives a record |
| CsvDataService.CsvCache.LoadCsvData | src/services/csvDataService.ts:6-36 | a cached file is returned without a request; otherwise one request: a failed request or an empty text yields [] and caches nothing, a parsed text is cached and returned |
| CsvDataService.LoadTwice | src/services/csvDataService.ts:7-9 | a second load of a file that loaded and parsed returns the same data without another request; a failed first load is not cached and the second load requests again |
| CsvDataService.Text | src/services/csvDataService.ts:65-67 | a text column keeps exactly its characters other than double quotes; a quote-free column is kept as it is, an absent column reads '' |
| CsvDataService.ParseDomain | src/services/csvDataService.ts:61-70 | rejected exactly when the id or the name is empty; the id is parseInt of its column, the subsector parseInt or 0, and name, code and description are their columns with the quotes removed |
| CsvDataService.ParseCounty | src/services/csvDataService.ts:74-81 | rejected exactly when the id or the name is empty; the id is parseInt of its column, and name and code are their columns with the quotes removed |
| CsvDataService.ParseSubDomain | src/services/csvDataService.ts:85-94 | rejected exactly when the id or the name is empty; the domain is parseInt or 0, and name, code and description are their columns with the quotes removed |
| CsvDataService.ParseElement | src/services/csvDataService.ts:98-107 | rejected exactly when the id or the name is empty; the subdomain is parseInt or 0, and name, code and description are their columns with the quotes removed |
| CsvDataService.ParseItem | src/services/csvDataService.ts:111-122 | rejected exactly when the id or the name is empty; element and category are parseInt or 0, and name, code, description and periodicity are their columns with the quotes removed |
| CsvDataService.ParseItemCategory | src/services/csvDataService.ts:126-134 | rejected exactly when the id or the name is empty; name, code and description are their columns with the quotes removed |
| CsvDataService.ParseUnit | src/services/csvDataService.ts:138-146 | rejected exactly when the id or the name is empty; name, abbreviation and description are their columns with the quotes removed |
| CsvDataService.MissingParentIsZero | src/services/csvDataService.ts:68 | a domain row without a subsector column gets subsector 0 |
| CsvDataService.NumericParent | src/services/csvDataService.ts:92 | a decimal parent id reads back as that number |
| CsvDataService.GetSubsectors | src/services/csvDataService.ts:149-157 | four fixed subsectors numbered 1 to 4 |
| CsvDataService.NothingDropped | src/services/csvDataService.ts:21-28 | when every row parses, every data line yields a record and record k is the parsed row k |
| DataService.Lines | src/services/dataService.ts:8 | splitting the trimmed text always yields a first line |
| DataService.Records | src/services/dataService.ts:11-18 | one record per line after the first, nothing filtered: record k - 1 is the parser's view of line k as a row under the header names |
| DataService.LoadCsv | src/services/dataService.ts:4-23 | a failed request yields []; otherwise the records of the text, whatever the HTTP status |
| DataService.ParseText | src/services/dataService.ts:8-18 | the trimmed text split into lines, the first split on commas for the names, and the later lines mapped: the result is the records of the text |
| DataService.MapRows | src/services/dataService.ts:11-18 | the map over the data lines gives, line by line, the parser's view of the line's scanned values keyed by the header names |
| DataService.Id | src/services/dataService.ts:49 | a non-numeric id becomes 0, a non-zero number is kept |
| DataService.ParseAbbreviation | src/services/dataService.ts:47-56 | the id is parseInt or 0, and abbr, slug, description, created and updated are their columns, '' when absent |
| DataService.ParseCounty | src/services/dataService.ts:58-64 | the id is parseInt or 0, and name and code are their columns, '' when absent |
| DataService.ParseFlag | src/services/dataService.ts:66-73 | the id is parseInt or 0, and name, code and description are their columns, '' when absent |
| DataService.ParseItem | src/services/dataService.ts:75-86 | the id is parseInt or 0; name, code, description and periodicity are their columns, and element and itemcategory stay the column text, never parsed |
| DataService.ParseItemCategory | src/services/dataService.ts:87-94 | the id is parseInt or 0, and name, code and description are their columns, '' when absent |
| DataService.ParseElement | src/services/dataService.ts:96-104 | the id is parseInt or 0; name, code and description are their columns, and subdomain stays the column text, never parsed |
| DataService.ParseUnit | src/services/dataService.ts:106-113 | the id is parseInt or 0, and name, abbreviation and description are their columns, '' when absent |
| DataService.ColumnValue | src/services/dataService.ts:11-17 | on every data line a column reads the value at its header's last position, '' past the end of the line; a county's name and code are read that way |
| DataService.MissingColumnIsEmpty | src/services/dataService.ts:62 | a column absent from the header line reads '' in every record |
| DataService.ShortLineFillsEmpty | src/services/dataService.ts:14-15 | on any line with fewer values than a column's last header position, that column reads '' (for counties, the name or code) |
| CountyService.Parsed | src/services/countyService.ts:67-78 | DataLines: one county per line after the header line, each the parse of its line |
| CountyService.CountiesOf | src/services/countyService.ts:70-79 | exactly the parsed counties with a name other than "National" |
| CountyService.CountiesOfOrder | src/services/countyService.ts:70-79 | file order: the counties of the lines before line k, then line k's county when it is kept, then those of the lines after it |
| CountyService.ParseLineFields | src/services/countyService.ts:71-75 | ParseLine: id, name and code are the first three comma-separated pieces, trimmed, '' when the line has fewer pieces |
| CountyService.ParseLineParts | src/services/countyService.ts:73-75 | id, name and code are the fields at positions 0, 1 and 2 |
| CountyService.CoordinatesByName | src/services/countyService.ts:76 | a county gets the coordinates its name has in the table, or [0, 37] |
| CountyService.QuotedNameIsCut | src/services/countyService.ts:71 | the plain split ignores quotes: a quoted name holding a comma is cut in two and the second half becomes the code |
| CountyService.AddToOthers | src/services/countyService.ts:91-97 | adding a county leaves every other letter's group as it was |
| CountyService.AddToDistinct | src/services/countyService.ts:93-95 | adding a county keeps one group per letter |
| CountyService.AddToKeyed | src/services/countyService.ts:92-96 | adding a county keeps every county under its own first letter, upper-cased |
| CountyService.AddToFlatten | src/services/countyService.ts:96 | adding a county adds exactly that county to the groups |
| CountyService.GroupedShape | src/services/countyService.ts:89-97 | the grouping has one group per letter, every county under its own letter, and holds exactly the counties |
| CountyService.GroupedDistinct | src/services/countyService.ts:89-97 | the grouping has one group per letter |
| CountyService.GroupedKeyed | src/services/countyService.ts:89-97 | every county of the grouping sits under its own upper-cased first letter |
| CountyService.GroupedFlatten | src/services/countyService.ts:89-97 | the grouping holds exactly the counties, each once per occurrence |
| CountyService.SortGroupsShape | src/services/countyService.ts:99-101 | sorting each group by name keeps the letters, the keying and the counties, and each group becomes the stable sort of its counties |
| CountyService.SortGroupsKeyed | src/services/countyService.ts:99-101 | sorting inside the groups keeps every county under its letter |
| CountyService.SortGroupsFlatten | src/services/countyService.ts:99-101 | sorting inside the groups keeps the counties |
| CountyService.InsertDistinct | src/services/countyService.ts:103 | inserting an entry with a new letter keeps the letters distinct |
| CountyService.SortEntries | src/services/countyService.ts:103 | sorting the entries keeps the letters distinct and the counties |
| CountyService.ByLetterEntries | src/services/countyService.ts:88-104 | ByLetter: the result has distinct letters, holds exactly the counties, and every entry is a group sorted by name |
| CountyService.ByLetterCounts | src/services/countyService.ts:88-104 | the group sizes add up to the number of counties |
| CountyService.ByLetterGroups | src/services/countyService.ts:99-104 | every group holds counties of its letter only, sorted by name |
| CountyService.SortedGroups | src/services/countyService.ts:99-101 | after the per-group sort every group is keyed and sorted by name |
| CountyService.ByLetterKeysAscending | src/services/countyService.ts:103 | the entries come in ascending letter order |
| CountyService.ExactlyOneGroup | src/services/countyService.ts:88-104 | every county is in exactly one group, the one of its letter |
| CountyService.InGroupHasKey | src/services/countyService.ts:92-96 | a county found in a group has a name, and the group's letter is its first letter |
| CountyService.CountyService.LoadCounties | src/services/countyService.ts:62-86 | a failed request returns [] and keeps the stored counties; otherwise the loaded counties are stored and returned |
| CountyService.CountyService.GetCountiesByLetter | src/services/countyService.ts:88-104 | the method's two passes and the entry sort compute the grouping of the stored counties |
| CountyService.CountyService.GetCountyById | src/services/countyService.ts:106-108 | undefined exactly when no stored county has the id; otherwise the first county that has it |
| CountyService.CountyService.GetCountyByName | src/services/countyService.ts:110-112 | undefined exactly when no stored county has the name; otherwise the first county that has it |
| CountyService.NationalNeverLoaded | src/services/countyService.ts:56 | "National" has coordinates in the table, yet no loaded county is named "National" |
| DomainsApi.TextPair | src/services/api.ts:32-34 | a text parameter is appended exactly when it is present and non-empty, under its own key |
| DomainsApi.NumberPair | src/services/api.ts:35-36 | a number parameter is appended exactly when it is present and not 0, as decimal text |
| DomainsApi.BuildDomainsQuery | src/services/api.ts:30-36 | the five conditional appends build the query pairs of the parameters |
| DomainsApi.QueryTextEmpty | src/services/api.ts:38-39 | QueryText: the query text is empty exactly when no pair was appended |
| DomainsApi.KeysAppend | src/services/api.ts:32-36 | the keys of two pair lists laid end to end are those of each in turn |
| DomainsApi.DomainsPairsOrdered | src/services/api.ts:32-36 | keys appear in the order search, subsector, ordering, limit, offset, each at most once |
| DomainsApi.DomainsPairsPresent | src/services/api.ts:32-36 | each key is sent exactly when its parameter is truthy |
| DomainsApi.KeySent | src/services/api.ts:32-36 | a key is sent exactly when it is one of the five and its parameter is truthy |
| DomainsApi.DomainsKeys | src/services/api.ts:32-36 | the sent keys are those of the truthy parameters, in append order |
| DomainsApi.DomainsEndpointBare | src/services/api.ts:38-39 | DomainsEndpoint and WithQuery: the endpoint is the bare "/domains/" exactly when no parameter is truthy |
| DomainsApi.BuildExportQuery | src/services/api.ts:69-72 | the loop appends the export pairs of the id list: one `ids` pair per id, in order, none for an absent or empty list |
| DomainsApi.ExportPairs | src/services/api.ts:69-72 | one `ids` pair per id, in order |
| DomainsApi.ExportEndpoint | src/services/api.ts:74-75 | without ids the endpoint is the bare "/domains/export/"; with ids it is that path, "?" and the query text of one `ids` pair per id in order |
| DomainsApi.DomainPathId | src/services/api.ts:44-46 | DomainPath: the single-domain path is "/domains/", the id in decimal and "/", and the id reads back from it |
| DomainsApi.DomainPathParts | src/services/api.ts:45 | the single-domain path is made of "/domains/", the id's decimal text and "/" |
| UseDomains.FilterCounts | src/hooks/useDomains.ts:26-35 | a filter keeps every copy of an element it accepts and never adds any |
| UseDomains.NarrowedCounts | src/hooks/useDomains.ts:25-36 | Narrowed: after both filters a domain occurs as often as before if it passes them, otherwise not at all |
| UseDomains.NotKeptAbsent | src/hooks/useDomains.ts:26-35 | a rejected domain does not occur in the filtered list |
| UseDomains.MockDomainsIds | src/hooks/useDomains.ts:106-116 | the mock domains are numbered 1 to 9 in order |
| UseDomains.DistinctCount | src/hooks/useDomains.ts:106-116 | domains numbered consecutively occur at most once each |
| UseDomains.FetchedMembers | src/hooks/useDomains.ts:15-52 | Fetched: the fetched list holds each mock domain that passes the query and subsector filters exactly once, and nothing else |
| UseDomains.FetchedOrder | src/hooks/useDomains.ts:39-43 | sorted by name for "name", by code for "code", in mock order for any other sort key |
| UseDomains.Merge | src/hooks/useDomains.ts:58-60 | each given field replaces the previous one, each absent field keeps it |
| UseDomains.MergeLaws | src/hooks/useDomains.ts:58-60 | an empty update changes nothing, and a full update overrides whatever came before |
| UseDomains.ToExport | src/hooks/useDomains.ts:68-70 | without ids every loaded domain is exported; an empty id list exports none |
| UseDomains.ToExportExact | src/hooks/useDomains.ts:68-70 | with ids, exactly the loaded domains whose id is listed are exported |
| UseDomains.ToExportFrom | src/hooks/useDomains.ts:68-70 | only loaded domains are exported |
| UseDomains.ToExportAppend | src/hooks/useDomains.ts:68-70 | given ids, the chosen domains of two lists laid end to end are those of each in turn, so the loaded order is kept; one domain is chosen exactly when its id is listed |
| UseDomains.ExportLineId | src/hooks/useDomains.ts:75 | ExportLine: a line starts with the domain id in decimal and a comma, and the id reads back |
| UseDomains.ExportLineSingle | src/hooks/useDomains.ts:75 | a line holds no line break when the domain's texts hold none |
| UseDomains.ExportLinesSingle | src/hooks/useDomains.ts:74-76 | no exported line holds a line break when no domain text does |
| UseDomains.ExportCsvLines | src/hooks/useDomains.ts:72-77 | ExportCsv: the CSV splits back into the heading line and one line per exported domain |
| UseDomains.DomainsHook.FetchDomains | src/hooks/useDomains.ts:15-52 | the domains become the filtered, sorted mock list and the filters stay |
| UseDomains.DomainsHook.UpdateFilters | src/hooks/useDomains.ts:58-60 | the filters become the merge of the old ones and the update, the domains stay |
| UseDomains.DomainsHook.ExportDomains | src/hooks/useDomains.ts:62-92 | the exported text is the CSV of the loaded domains chosen by the ids |
| IndicatorService.Years | src/services/indicatorService.ts:18-23 | one year per calendar year from 1990 to the current year, none when the current year is before 1990 |
| IndicatorService.KeyIndex | src/services/indicatorService.ts:57 | the position of an element's series in the table, or -1 exactly when the element has none |
| IndicatorService.EntryIndex | src/services/indicatorService.ts:57 | the record's element text, used as a property key, finds the series whose id prints as that text, or -1 exactly when none does |
| IndicatorService.IdTexts | src/services/indicatorService.ts:57 | the property keys of the table are the decimal texts of its ids |
| IndicatorService.Zeros | src/services/indicatorService.ts:52 | a series of zeros with one entry per year |
| IndicatorService.Fill | src/services/indicatorService.ts:55-61 | the records keep every series' length and the table's keys |
| IndicatorService.PutShape | src/services/indicatorService.ts:51-53 | adding a zero series keeps the table zeroed with distinct ids, touching only that id |
| IndicatorService.InitShape | src/services/indicatorService.ts:50-53 | the initial table holds one zero series per distinct element id and nothing else |
| IndicatorService.InitZeroed | src/services/indicatorService.ts:50-53 | the initial table is all zeros, one entry per year, with distinct ids |
| IndicatorService.InitIds | src/services/indicatorService.ts:51 | every series of the initial table belongs to a requested element |
| IndicatorService.InitCovers | src/services/indicatorService.ts:51 | every requested element has a series |
| IndicatorService.PutCovers | src/services/indicatorService.ts:52 | setting a series gives its id a position and keeps every id already present |
| IndicatorService.ZeroedShaped | src/services/indicatorService.ts:52 | a zeroed table has every series one entry per year, each 0 |
| IndicatorService.IntToStringInjective | src/services/indicatorService.ts:57 | two ids with the same decimal text are equal, so a property key names one series |
| IndicatorService.ApplyCell | src/services/indicatorService.ts:56-59 | a record writes its value (parseFloat or 0) into exactly the cell of its element and year, all other cells unchanged |
| IndicatorService.FillCell | src/services/indicatorService.ts:55-61 | after all records a cell holds the value of the last record for its element and year, or what it held before |
| IndicatorService.BuildValues | src/services/indicatorService.ts:50-61 | the two forEach loops build the values table of the ids, years and records |
| IndicatorService.ZeroTable | src/services/indicatorService.ts:51-53 | the first forEach builds the zero table |
| IndicatorService.FillStep | src/services/indicatorService.ts:55-61 | one more record is one more application |
| IndicatorService.FillRecords | src/services/indicatorService.ts:55-61 | the second forEach applies every record in order |
| IndicatorService.ValuesTableSpec | src/services/indicatorService.ts:50-61 | ValuesTable: one series per requested element and nothing else, one entry per year, each the last matching record's value or 0 |
| IndicatorService.YearColumn | src/services/indicatorService.ts:56 | a record's year lands at its offset from 1990 when inside the range, otherwise it is skipped |
| IndicatorService.GetIndicatorData | src/services/indicatorService.ts:13-75 | the request chain yields the indicator data of its responses, empty on any failure |
| IndicatorService.IndicatorDataSpec | src/services/indicatorService.ts:17-70 | the result is well formed, with at most three elements and five items, and when not empty it has every year and some element |
| IndicatorService.EmptyWithoutElements | src/services/indicatorService.ts:27-36 | no subdomain, or no element in the first subdomain, gives the empty data |
| IndicatorService.ColumnSumLast | src/services/indicatorService.ts:87-92 | a year's total over the table is the sum of the last recorded values |
| IndicatorService.AggregateTotals | src/services/indicatorService.ts:86-98 | AggregateByYear: each year's aggregate is the sum over the elements of the last value recorded for that year |
| IndicatorService.RecentYearsWindow | src/services/indicatorService.ts:101 | RecentYears: the recent years are the last `count` years (all of them for a count of 0, as `slice(-0)` is) |
| IndicatorService.RecentMatchesAggregate | src/services/indicatorService.ts:102-108 | with distinct years each recent total equals the aggregate of that year |
| IndicatorService.TwoElementComparison | src/services/indicatorService.ts:116-142 | empty with fewer than two elements, otherwise the years, the first two elements' names and one value per year in each series |
| IndicatorService.ComparisonIsLastRecord | src/services/indicatorService.ts:116-142 | on the service's table, each year's value in the two series is the last value recorded for the first (second) element in that year, 0 when none |
| IndicatorService.ComparisonSeriesFull | src/services/indicatorService.ts:135-141 | for well-formed data both compared series have one value per year |
| IndicatorService.LatestDistribution | src/services/indicatorService.ts:150-159 | zero and empty names with fewer than two elements or no years |
| IndicatorService.LatestIsLastRecord | src/services/indicatorService.ts:161-170 | the latest values are the last recorded values of the two elements in the last year, or 0 |
| MockDataService.ElementById | src/services/mockDataService.ts:212 | the first element with the id, or none exactly when no element has it |
| MockDataService.RangeFor | src/services/mockDataService.ts:212-224 | an unknown element draws from the fallback range; every choice is one of the five ranges |
| MockDataService.UnitForElement | src/services/mockDataService.ts:252-254 | an unknown element gets unit 1 |
| MockDataService.UnitRange | src/services/mockDataService.ts:252-263 | the unit is always one of 1, 5, 7, 6, 3 or 2 |
| MockDataService.UnitAt | src/services/mockDataService.ts:256-260 | the first keyword the element's name contains picks the unit: Area 1, Production 5, Yield 7, Population 6, Price 3 |
| MockDataService.UnitAtDefault | src/services/mockDataService.ts:262 | a name containing no keyword gets unit 2 |
| MockDataService.OrDefault | src/services/mockDataService.ts:198-201 | a missing list takes its default; a given list, even an empty one, is kept |
| MockDataService.SubdomainOr1 | src/services/mockDataService.ts:235-237 | the subdomain when set and not 0, otherwise 1 |
| MockDataService.Relevant | src/services/mockDataService.ts:207 | an empty item list is replaced by [1, 2, 3], any other is kept |
| MockDataService.Records | src/services/mockDataService.ts:203-243 | the records of the combinations are numbered 1, 2, ... in order |
| MockDataService.RecordsSnoc | src/services/mockDataService.ts:226-227 | pushing one more combination appends one record whose id is the next counter value |
| MockDataService.YearRow | src/services/mockDataService.ts:209 | the innermost walk yields one combination per year, in order |
| MockDataService.GetKilimoData | src/services/mockDataService.ts:194-250 | the four nested forEach walks build the generated records |
| MockDataService.PushElements | src/services/mockDataService.ts:206-246 | one county's walk appends the records of its element, item and year combinations and keeps the counter one past the last id |
| MockDataService.PushItems | src/services/mockDataService.ts:208-245 | one element's walk appends the records of its item and year combinations |
| MockDataService.PushYears | src/services/mockDataService.ts:209-244 | one item's walk appends one record per year |
| MockDataService.CountyRowsStep | src/services/mockDataService.ts:205 | one more county appends that county's block of combinations |
| MockDataService.ElementRowsStep | src/services/mockDataService.ts:206 | one more element appends that element's block |
| MockDataService.ItemRowsStep | src/services/mockDataService.ts:208 | one more item appends that item's block |
| MockDataService.YearRowStep | src/services/mockDataService.ts:209 | one more year appends one combination |
| MockDataService.KilimoDataCount | src/services/mockDataService.ts:205-247 | the number of records is the product of the four list lengths |
| MockDataService.DefaultCount | src/services/mockDataService.ts:198-201 | with no parameters 3 × 3 × 3 × 2 = 54 records are generated |
| MockDataService.EmptyLists | src/services/mockDataService.ts:198-207 | an empty county, element or year list gives no records, while an empty item list behaves as [1, 2, 3] |
| MockDataService.ItemRowsAt | src/services/mockDataService.ts:208-209 | inside one element's block, item i and year d sit at position i × years + d |
| MockDataService.ElementRowsAt | src/services/mockDataService.ts:206-208 | inside one county's block, element b's block starts at b × items × years |
| MockDataService.CountyRowsAt | src/services/mockDataService.ts:205-206 | county a's block starts at a × elements × items × years |
| MockDataService.ElementItemAt | src/services/mockDataService.ts:206-209 | element b, item i, year d sit at their nested-order position in a county's block |
| MockDataService.RowsAt | src/services/mockDataService.ts:205-209 | the combination (a, b, i, d) sits at its nested-order position |
| MockDataService.KilimoDataAt | src/services/mockDataService.ts:205-243 | the record of county a, element b, item i and year d sits at its nested-order position, has that position plus one as id, and carries the year as text and in its note |
| MockDataService.KilimoDataRow | src/services/mockDataService.ts:226-243 | the record at position k has id k + 1 and the county, element, item and year of combination k |
| MockDataService.KilimoDataFields | src/services/mockDataService.ts:226-243 | every record has region Kenya, domain and source 1, subsector and subdomain `params.subdomain \|\| 1`, the element's unit and value range, a flag of 1 exactly when the draw exceeds 0.8, and a year text that reads back as a number |
| MockDataService.CountyLabel | src/services/mockDataService.ts:284 | the first county's name when it has one, else the id as text; never empty |
| MockDataService.ElementLabel | src/services/mockDataService.ts:285 | the first element's name when it has one, else the id as text; never empty |
| MockDataService.ItemLabel | src/services/mockDataService.ts:286 | the first item's name when it has one, else the id as text; never empty |
| MockDataService.UnitLabel | src/services/mockDataService.ts:287 | the first unit's abbreviation, or '' for an unknown unit |
| MockDataService.CsvRows | src/services/mockDataService.ts:283-302 | one row per record, in order |
| MockDataService.CsvRowsStep | src/services/mockDataService.ts:301 | one more record pushes its row at the end |
| MockDataService.DownloadKilimoData | src/services/mockDataService.ts:265-306 | the export is the CSV of the generated records |
| MockDataService.HeaderSingleLine | src/services/mockDataService.ts:269-281 | the heading line holds no line break |
| MockDataService.QuoteSingleLine | src/services/mockDataService.ts:290 | quoting adds no line break |
| MockDataService.LabelsSingleLine | src/services/mockDataService.ts:284-287 | labels hold no line break when the service's names hold none |
| MockDataService.CellsSingleLine | src/services/mockDataService.ts:289-301 | a row holds no line break when its nine cells hold none |
| MockDataService.RowSingleLine | src/services/mockDataService.ts:283-301 | a record's row holds no line break when the names and the record's texts hold none |
| MockDataService.NoteSingleLine | src/services/mockDataService.ts:231 | the note holds no line break when the year text holds none |
| MockDataService.GeneratedTexts | src/services/mockDataService.ts:228-231 | the year, value, region and note of a generated record hold no line break when the drawn values hold none |
| MockDataService.RecordSingleLine | src/services/mockDataService.ts:283-301 | each generated record's row is a single line |
| MockDataService.CsvLines | src/services/mockDataService.ts:281-304 | the export splits back into the heading line and one line per record |
| MockFixtures.CountiesSingleLine | src/services/mockDataService.ts:5-16 | no mock county name holds a line break |
| MockFixtures.ElementsSingleLine | src/services/mockDataService.ts:58-69 | no mock element name holds a line break |
| MockFixtures.ItemsSingleLine | src/services/mockDataService.ts:83-109 | no mock item name holds a line break |
| MockFixtures.UnitsSingleLine | src/services/mockDataService.ts:112-123 | no mock unit abbreviation holds a line break |
| MockFixtures.MockSingleLine | src/services/mockDataService.ts:5-123 | the mock service's lists hold no line break, so its export has one line per record |
| MockDataService.SubdomainsOfDomain | src/services/mockDataService.ts:166-169 | the mock's subdomains of a domain are exactly its listed subdomains with that parent id, in list order: any split of the list filters piecewise |
| MockDataService.ItemsOfSubdomain | src/services/mockDataService.ts:181-186 | the mock's items of a subdomain are exactly its items whose element belongs to that subdomain, in list order: any split of the list filters piecewise |
| MockDataService.CategoriesOfSubdomain | src/services/mockDataService.ts:188-192 | the mock's categories of a subdomain are exactly its categories used by an item of that subdomain, in list order: any split of the list filters piecewise |
| DomainCard.GetIcon | src/components/DomainCard.tsx:11-38 | the icon of the first table key the name contains, ignoring case; the default icon when it contains none |
| DomainCard.KeyInTrans | src/components/DomainCard.tsx:32-36 | a name containing a key also contains every key inside that key |
| DomainCard.ProductionShadowsLivestock | src/components/DomainCard.tsx:14-24 | a name containing both Production and Livestock gets the Production icon |
| DomainCard.MacroEconomicShadowed | src/components/DomainCard.tsx:26-28 | the Macro Economic entry is never chosen: every name containing it contains Economic, an earlier key |
| DomainCard.SomeChosen | src/components/DomainCard.tsx:32-36 | a name containing some key has an earlier-or-equal key chosen |
| DomainCard.MarketPricesHasPrices | src/components/DomainCard.tsx:17-29 | a name containing Market Prices contains Prices |
| DomainCard.MarketPricesShadowed | src/components/DomainCard.tsx:29 | the Market Prices entry is never chosen |
| DomainCard.ExchangeIconOnlyLast | src/components/DomainCard.tsx:29 | only the Market Prices entry carries the exchange icon |
| DomainCard.MarketPricesIconUnused | src/components/DomainCard.tsx:11-38 | no name ever gets the exchange icon |
| DataTable.DomainIds | src/components/DataTable.tsx:25 | the ids of the domains, in order |
| DataTable.Deselect | src/components/DataTable.tsx:35 | unchecking removes every copy of the id and keeps every other id as often as it was |
| DataTable.DeselectAppend | src/components/DataTable.tsx:35 | unchecking distributes over lists laid end to end |
| DataTable.Selection.SelectAll | src/components/DataTable.tsx:23-29 | checking selects every domain id in order, unchecking selects none |
| DataTable.Selection.SelectDomain | src/components/DataTable.tsx:31-37 | checking appends the id, unchecking removes it |
| DataTable.SelectAllHeader | src/components/DataTable.tsx:112 | after select-all the header box is checked; after clearing it is checked only for an empty table |
| DataTable.CheckTwiceDuplicates | src/components/DataTable.tsx:33 | checking an already-selected row selects its id twice |
| DataTable.GoEnabledIffRuns | src/components/DataTable.tsx:93 | the Go button is enabled exactly when pressing it runs the action |
| DataTable.Selection.ChooseAction | src/components/DataTable.tsx:21 | choosing an action leaves the selection as it was |
| DataTable.Selection.HandleAction | src/components/DataTable.tsx:39-44 | the action runs exactly when one is chosen and something is selected |
| DataTable.SelectAllActions | src/components/DataTable.tsx:23-44 | after clearing no action runs; after selecting every row of a non-empty table a chosen action runs |
| DomainsTable.ParseDomain | src/components/DomainsTable.tsx:47-56 | the id is the parsed first field, or 0 when it does not parse; name, code, description and subsector are fields 2 to 5, '' past the end of the line |
| DomainsTable.ParseSubDomain | src/components/DomainsTable.tsx:61-70 | the id and the parent domain are the parsed first and fifth fields, or 0 when they do not parse; name, code and description are fields 2 to 4, '' past the end of the line |
| DomainsTable.ParseDomains | src/components/DomainsTable.tsx:45-56 | domain k is the parse of line k + 1 of the trimmed text: one per line after the header, in order |
| DomainsTable.ParseSubDomains | src/components/DomainsTable.tsx:59-70 | subdomain k is the parse of line k + 1 of the trimmed text: one per line after the header, in order |
| DomainsTable.JoinSubdomains | src/components/DomainsTable.tsx:73-76 | one entry per domain, in order, carrying that domain |
| DomainsTable.JoinExact | src/components/DomainsTable.tsx:75 | a subdomain is listed under a domain exactly when its parent id is that domain's id |
| DomainsTable.JoinKeepsOrder | src/components/DomainsTable.tsx:75 | the subdomains under a domain keep the order of the subdomain file |
| DomainsTable.OrphanNowhere | src/components/DomainsTable.tsx:73-76 | a subdomain whose parent id matches no domain is listed under none |
| DomainsTable.Search | src/components/DomainsTable.tsx:112-125 | an empty query keeps every domain; otherwise a domain is kept exactly when its name or one of its subdomains' names contains the query, ignoring case |
| DomainsTable.SearchKeepsOrder | src/components/DomainsTable.tsx:117-122 | the kept domains keep their order |
| DomainsTable.DomainIcon | src/components/DomainsTable.tsx:127-149 | the emoji of the first table key the name contains, ignoring case; the default emoji when it contains none |
| DomainsTable.CropsFirst | src/components/DomainsTable.tsx:129 | every name containing Crops gets the crops emoji, whatever else it contains |
| DefinitionsStandards.Toggle | src/components/DefinitionsStandards.tsx:128-136 | the section's id flips between expanded and collapsed and every other id stays as it was |
| DefinitionsStandards.ToggleTwice | src/components/DefinitionsStandards.tsx:128-136 | toggling a section twice restores the expanded set |
| DefinitionsStandards.ToggleCommutes | src/components/DefinitionsStandards.tsx:128-136 | toggling two sections gives the same set in either order |
| DefinitionsStandards.Sections.constructor | src/components/DefinitionsStandards.tsx:15 | every section starts collapsed |
| DefinitionsStandards.Sections.ToggleSection | src/components/DefinitionsStandards.tsx:128-136 | the expanded set becomes the toggled set |
| DefinitionsStandards.FilterData | src/components/DefinitionsStandards.tsx:138-146 | an empty query keeps every row and no query adds rows |
| DefinitionsStandards.FilterDataExact | src/components/DefinitionsStandards.tsx:141-145 | with a query, a row is kept exactly when one of its field values, as text, contains the query, ignoring case |
| DefinitionsStandards.FilterDataKeepsOrder | src/components/DefinitionsStandards.tsx:141 | the kept rows keep their order |
| DefinitionsStandards.CellText | src/components/DefinitionsStandards.tsx:238 | a missing or falsy field shows '-', any other field shows its text |
| DefinitionsStandards.FalsyShowsDash | src/components/DefinitionsStandards.tsx:238 | the number 0 and the empty text both show '-' |
| DataViewer.DataQuery | src/components/DataViewer.tsx:58-72 | no request is made exactly when no county, no element or no year is selected |
| DataViewer.DataQueryValues | src/components/DataViewer.tsx:66-72 | the request carries the selected counties, elements, items and years, and the subdomain only when it is not 0 |
| DataViewer.PageCount | src/components/DataViewer.tsx:76 | the page count is the least number of 50-record pages that hold every record |
| DataViewer.PageBounds | src/components/DataViewer.tsx:109-113 | PageData: page p of 1..page count holds the records from (p - 1) * 50 up to p * 50 or the end, at least one and at most 50 |
| DataViewer.FirstPagesPrefix | src/components/DataViewer.tsx:109-113 | the first k pages laid end to end are the first k * 50 records |
| DataViewer.PagesPartition | src/components/DataViewer.tsx:76-77 | all the pages laid end to end are exactly the records, in order |
| DataViewer.StepsStayInRange | src/components/DataViewer.tsx:249-260 | previous and next keep the page in 1..page count, going back or on by one except at the ends |
| DataViewer.ControlsWhenMoreThanAPage | src/components/DataViewer.tsx:242 | after a load the page controls appear exactly when there are more than 50 records |
| DataViewer.LabelMatchesPage | src/components/DataViewer.tsx:245 | RangeLabel: the "Showing first to last" numbers name exactly the records of the page shown |
| DataViewer.Pager.constructor | src/components/DataViewer.tsx:22-24 | the viewer starts on page 1 of 1 with no records |
| DataViewer.Pager.Load | src/components/DataViewer.tsx:75-77 | a result replaces the records, sets the page count from it and returns to page 1 |
| DataViewer.Pager.Previous | src/components/DataViewer.tsx:249 | the page goes back one, never below 1, and nothing else changes |
| DataViewer.Pager.Next | src/components/DataViewer.tsx:259 | the page goes on one, never past the page count, and nothing else changes |
| DataViewer.LookupName | src/components/DataViewer.tsx:89-102 | the name of the first entry whose id equals the key, or the label and the key when there is none or that name is empty |
| DataViewer.UnitName | src/components/DataViewer.tsx:104-107 | the abbreviation, else the name, of the first unit whose id reads as the text; empty when there is none |
| DataViewer.TextKeyFallsBack | src/components/DataViewer.tsx:90 | a text key never equals a number id, so the lookup always falls back |
| DataViewer.NameCellsFallBack | src/components/DataViewer.tsx:208-214 | the county, element and item cells always show the label and the record's text |
| DataViewer.YearCellCounterexample | src/components/DataViewer.tsx:217 | RowCellsAsWritten: a record of the year 2020 shows an empty Year cell |
| DataViewer.RowCellsYear | src/components/DataViewer.tsx:217 | RowCells: the corrected Year cell shows the record's year and every other cell is as written |
| DataViewer.PageRows | src/components/DataViewer.tsx:205-235 | one row per record of the page, in order, with that record's year and value |
| CompareData.YearRange | src/components/CompareData.tsx:113 | one year per value from the first year to the last, none when the first is after the last |
| CompareData.YearRangeMembers | src/components/CompareData.tsx:113 | the years are exactly those from the first to the last, rising |
| CompareData.CountyIdsMembers | src/components/CompareData.tsx:116 | CountyIds: the request's county ids are exactly the selected counties' ids that parse as integers |
| CompareData.CategoryFilteredExact | src/components/CompareData.tsx:123-128 | without a category every record is kept; with one, a record is kept exactly when an item of that category has the record's item name |
| CompareData.ReadingsTotal | src/components/CompareData.tsx:133-140 | the amounts added into a county and year are those of the records of that county and year, a value that does not parse counting 0 |
| CompareData.FoldTotals | src/components/CompareData.tsx:133-140 | folding readings into a table adds, to each selected county and year, the total of the readings for it and creates no other county |
| CompareData.InitTable | src/components/CompareData.tsx:130-131 | one empty year table per selected county, keyed by its lower-case name |
| CompareData.AddReading | src/components/CompareData.tsx:134-139 | a reading of an unselected county changes nothing; otherwise its value is added to its county and year |
| CompareData.FoldStep | src/components/CompareData.tsx:133-140 | one more record folds in as one more step |
| CompareData.Aggregate | src/components/CompareData.tsx:130-140 | the loop builds the table of the fold of every record over the empty table |
| CompareData.FetchComparison | src/components/CompareData.tsx:108-152 | nothing is fetched without a domain, a selected county and a subdomain; when both requests succeed the page shows the comparison of the selection and no error; when the data request or the category's item request throws, the page shows the new year axis next to the series already on show, with the load-failure message |
| CompareData.ComparedValues | src/components/CompareData.tsx:113-146 | Compared: one series per selected county, in order, coloured from the five-colour palette in turn, with each year's value the total of the kept records of that county and year |
| CompareData.SeriesLayout | src/components/CompareData.tsx:142-146 | each series carries its county, its palette colour and the table's value for each year |
| CompareData.FoldedCell | src/components/CompareData.tsx:130-145 | a selected county's value for a year is the total of its kept records of that year |
| CompareData.UnselectedIgnored | src/components/CompareData.tsx:135 | a record of a county that is not selected does not change the table |
| CompareData.AddedSpec | src/components/CompareData.tsx:155-161 | a county is refused exactly when it is already selected or five are; the selection stays duplicate-free and at most five long |
| CompareData.RemovedSpec | src/components/CompareData.tsx:163-165 | removing keeps exactly the counties with another id, keeps the selection well formed, and removing an absent id changes nothing |
| CompareData.CountySelection.constructor | src/components/CompareData.tsx:155-165 | the selection starts empty with an empty search and the dropdown closed |
| CompareData.CountySelection.AddCounty | src/components/CompareData.tsx:155-161 | an accepted county is appended and clears the search and closes the dropdown; a refused one changes nothing |
| CompareData.CountySelection.RemoveCounty | src/components/CompareData.tsx:163-165 | the county is removed and the search and dropdown are untouched |
| CompareData.AvailableExact | src/components/CompareData.tsx:167-169 | Available: a county is offered exactly when its name contains the search, ignoring case, and it is not selected |
| CompareData.SummaryCards | src/components/CompareData.tsx:522-532 | CardOf: no cards without series or years; otherwise one card per series, in order |
| CompareData.MaxOfIsMax | src/components/CompareData.tsx:529 | the maximum of a non-empty list is one of its values and no value exceeds it |
| CompareData.PeakIsLargest | src/components/CompareData.tsx:525-529 | Peak: the peak is at least every value, and is 0 or one of the positive values |
| CompareData.MeanBounds | src/components/CompareData.tsx:528 | the mean of positive values is positive and at most their maximum |
| CompareData.AverageBounds | src/components/CompareData.tsx:525-528 | Average: the average lies between 0 and the peak, and is positive exactly when some value is |
| CompareData.EarliestSpec | src/components/CompareData.tsx:527 | Earliest: the earliest value is the first positive value, or 0 when there is none |
| CompareData.ChangeSign | src/components/CompareData.tsx:530 | the percentage change is positive exactly when the latest exceeds the base, and 0 exactly when they are equal |
| CompareData.TrendSign | src/components/CompareData.tsx:526-530 | Trend: the trend is 0 without a positive value; otherwise it rises, stays or falls as the latest value compares with the earliest |
| CompareData.HeaderFields | src/components/CompareData.tsx:565 | the header splits back into County and the years |
| CompareData.SeriesFields | src/components/CompareData.tsx:566 | a row splits back into the quoted county name and its values when neither holds a comma |
| CompareData.CsvLines | src/components/CompareData.tsx:564-567 | ComparisonCsv: the file splits back into the header line and one line per series when no name or value holds a newline |
| Rankings.AddEntryCases | src/components/Rankings.tsx:133-140 | a key already in the map has the value added to its total; a new key is appended with the record's value, unit, flag and item |
| Rankings.FoldStep | src/components/Rankings.tsx:132-141 | one more record folds in as one more map update |
| Rankings.AddToMap | src/components/Rankings.tsx:135-140 | the map is updated as one record adds to it, and a key is appended only when it is new |
| Rankings.AggregateRecords | src/components/Rankings.tsx:130-141 | the loop builds the map of the fold of every record |
| Rankings.EntriesTotal | src/components/Rankings.tsx:133-134 | the amounts added under a key are those of the records with that county, or that item in commodity mode, a value that does not parse counting 0 |
| Rankings.FoldKeys | src/components/Rankings.tsx:130-141 | the map's keys are the records' keys in order of first appearance |
| Rankings.FoldDistinct | src/components/Rankings.tsx:130-141 | no key appears twice in the map |
| Rankings.FoldTotals | src/components/Rankings.tsx:137-139 | each key's value is the total of the values of its records |
| Rankings.FoldFirst | src/components/Rankings.tsx:139 | each key's unit, flag and item are those of its first record |
| Rankings.RankLeTotal | src/components/Rankings.tsx:144 | the descending-value comparator orders every pair of entries and is transitive |
| Rankings.Number | src/components/Rankings.tsx:146-154 | one row per sorted entry, ranked from 1 in order, with the key in the county or item column by mode and the selected item's name or year in the others |
| Rankings.ComputeRankings | src/components/Rankings.tsx:127-155 | the loop builds the ranking of the records |
| Rankings.RankedOrder | src/components/Rankings.tsx:143-154 | one row per distinct key, ranked 1, 2, ... with values never rising |
| Rankings.SortedDistinct | src/components/Rankings.tsx:143-144 | sorting keeps the keys distinct |
| Rankings.RankedKeys | src/components/Rankings.tsx:146-154 | each row carries the key, total, unit and flag of the sorted entry at its position |
| Rankings.RankedDistinct | src/components/Rankings.tsx:143-154 | no county, or item in commodity mode, is ranked twice |
| Rankings.RankedValues | src/components/Rankings.tsx:130-154 | each row's value is its key's total and its unit and flag those of the key's first entry |
| Rankings.RankedCovers | src/components/Rankings.tsx:130-154 | every key of the records has a row |
| Rankings.RankedRecords | src/components/Rankings.tsx:127-155 | Ranked: every row's value is the total of its records and its unit and flag those of its first record, and every county, or item in commodity mode, of the records has a row |
| Rankings.RankedTiesKeepOrder | src/components/Rankings.tsx:143-144 | entries with equal totals stay in the order their keys first appeared |
| Rankings.Top | src/components/Rankings.tsx:157 | the first topN rows, or all of them when there are fewer |
| Rankings.TopIsLargest | src/components/Rankings.tsx:157 | no row left out of the top has a larger value than one kept |
| Rankings.TableFilterExact | src/components/Rankings.tsx:160-166 | TableFilter: the search keeps exactly the rows whose county or item contains the query, ignoring case, and an empty query keeps all |
| Rankings.AscLeTotal | src/components/Rankings.tsx:168-172 | any two rows are comparable under each column |
| Rankings.AscLeTrans | src/components/Rankings.tsx:168-172 | each column's order is transitive |
| Rankings.TableLeTotal | src/components/Rankings.tsx:167-174 | each column and direction orders every pair of rows and is transitive |
| Rankings.SortedFilteredSpec | src/components/Rankings.tsx:159-176 | SortedFiltered: the table shows the matching rows of the top, rearranged and sorted by the chosen column and direction |
| Rankings.DefaultViewKeepsRanking | src/components/Rankings.tsx:79-80 | by rank ascending the table keeps the ranking's order |
| Rankings.NextSort | src/components/Rankings.tsx:178-185 | clicking the sorted column flips the direction; clicking another sorts by it ascending |
| Rankings.NextSortTwice | src/components/Rankings.tsx:178-185 | two clicks on the sorted column restore the direction; two on another column leave it descending |
| Rankings.RankingsState.constructor | src/components/Rankings.tsx:70-80 | the page starts sorted by rank ascending with both categories expanded |
| Rankings.RankingsState.HandleSort | src/components/Rankings.tsx:178-185 | the sort becomes the next sort and the expanded categories are untouched |
| Rankings.RankingsState.ToggleCategory | src/components/Rankings.tsx:189-195 | the category flips between expanded and collapsed and the sort is untouched |
| Rankings.SharesPrefix | src/components/Rankings.tsx:669-693 | the shares of the first k rows add up to their part of the total, in percent |
| Rankings.SharesSum | src/components/Rankings.tsx:669-693 | Shares: with a positive total the shares add up to 100; otherwise every share is 0 |
| Sorting.Insert | src/components/Rankings.tsx:143-144 | inserting adds exactly the one element |
| Sorting.SortBy | src/components/Rankings.tsx:143-144 | sorting rearranges the input: the same elements, as often |
| Sorting.InsertSorted | src/components/Rankings.tsx:143-144 | inserting into a sorted list under a total preorder keeps it sorted |
| Sorting.SortBySorted | src/components/Rankings.tsx:143-144 | under a total preorder the result is sorted |
| Sorting.InsertEquivs | src/components/Rankings.tsx:167-174 | inserting puts the element after every element it ties with |
| Sorting.SortByStable | src/components/Rankings.tsx:167-174 | elements that tie keep their order, as a stable sort promises |
| Sorting.SortBySortedInput | src/components/Rankings.tsx:167-169 | an already sorted list comes back unchanged |
| Sorting.StrLeTotal | src/components/Rankings.tsx:170-172 | any two strings are ordered by localeCompare, modelled as character-code order |
| Sorting.StrLeTrans | src/components/Rankings.tsx:170-172 | the string order is transitive |
| Sorting.StrLeByKey | src/hooks/useDomains.ts:40-42 | comparing records by a string field is a total preorder |
| Sorting.FilterSorted | src/components/Rankings.tsx:159-176 | filtering a sorted list keeps it sorted |
| Base.Lower | src/components/DomainsTable.tsx:118 | lower-casing maps each character and keeps the length |
| Base.LowerContains | src/components/DomainsTable.tsx:118 | a contained substring stays contained after both are lower-cased |
| Base.Trim | src/components/DomainsTable.tsx:45 | the trimmed text neither starts nor ends with white space (the ECMAScript white-space and line-terminator characters) |
| Base.TrimIsSlice | src/components/DomainsTable.tsx:45 | the trimmed text is a slice of the text with only white space before and after it |
| Base.StripChar | src/services/csvDataService.ts:19 | `replace(/"/g, '')` keeps exactly the characters other than the one removed; one character is kept or dropped |
| Base.StripCharAppend | src/services/csvDataService.ts:19 | removing a character from two texts laid end to end removes it from each in turn, so the other characters keep their order |
| Base.SplitShape | src/components/DomainsTable.tsx:45 | splitting gives one piece more than there are separators, none holding the separator |
| Base.JoinSplit | src/components/DomainsTable.tsx:45 | Join and Split: joining the pieces of a split with the separator gives back the text |
| Base.SplitConcat | src/components/DomainsTable.tsx:45 | splitting text joined at a separator splits each side in turn |
| Base.SplitJoin | src/components/CompareData.tsx:565-567 | splitting pieces joined by a separator none holds gives back the pieces |
| Base.ParseIntToString | src/components/CompareData.tsx:116 | ParseInt: parseInt reads back every integer written in decimal |
| Base.NoDigitIsNaN | src/components/CompareData.tsx:116 | ParseInt: text without a digit does not parse as an integer |
| Base.ParseFloatToString | src/components/Rankings.tsx:134 | ParseFloat: parseFloat reads back every integer written in decimal, negative ones included |
| Base.Filter | src/components/DomainsTable.tsx:75 | filtering keeps exactly the elements that pass, each from the input; a one-element list is kept or dropped whole |
| Base.FilterAppend | src/components/DomainsTable.tsx:75 | filtering a concatenation concatenates the filtered parts |
| Base.FilterAt | src/components/DomainsTable.tsx:75 | element k of the input lands after the kept elements before it and before those after it |
| Base.Find | src/components/DataViewer.tsx:90 | find gives the first element that passes, or nothing when none does |
| Base.IndexOf | src/components/Rankings.tsx:135 | the position of the first occurrence, or -1 when absent |
| Base.SliceStart | src/components/DataViewer.tsx:112 | a slice bound is clamped to the list, a negative one counting from the end |
| ViteConfig.Rewrite | vite.config.ts:15 | a path starting with /kilimostat-api gets that prefix replaced by /en/kilimostat-api; any other path is unchanged |
| ApiService.Client.constructor | src/services/apiService.ts:126 | the client starts with no endpoint table and no request made |
| CountyService.CountyService.constructor | src/services/countyService.ts:60 | the service starts with no counties |
| CsvDataService.CsvCache.constructor | src/services/csvDataService.ts:4 | the cache starts empty, with no file fetched |
| DataTable.Selection.constructor | src/components/DataTable.tsx:20-21 | the table starts with nothing selected and no action chosen |
| UseDomains.DomainsHook.constructor | src/hooks/useDomains.ts:6-13 | the hook starts with no domains and the filters empty, sorted by name |

## Left out

- Network I/O: `fetch`, response status and body decoding are a function from URL to a response value; the request wrapper of `src/services/api.ts` is not part of this model, only the endpoint strings handed to it.
- ApiService.FetchAllPages: takes a fuel bound, because the source's loop does not terminate when `next` links form a cycle; with enough fuel it is the source's walk (WalkFuelMonotone), and a self-loop exhausts any fuel (WalkSelfLoop).
- ApiService.CsvExport: the source throws an Error on an empty result; the model returns None instead.
- Number formatting: `toLocaleString`, `toFixed` and the thousand-separator export formatting are a text-of-number parameter or left out; numbers that are summed or divided are exact reals, so floating-point rounding is not modelled.
- Base.ParseFloat: reads a sign, digits and an optional fraction; exponents, `Infinity` and hexadecimal are not modelled.
- Base.ParseInt: reads optional white space, a sign and decimal digits; the `0x` prefix is not modelled.
- Base.Lower: maps ASCII letters only; Unicode case mapping is not modelled.
- Base.UpperChar: maps ASCII letters only; JavaScript `toUpperCase` also maps other letters and can lengthen a string ("ß" becomes "SS"), which could change a county's first-letter group.
- Base.IsSpace: the white space `trim` removes is the ECMAScript WhiteSpace and LineTerminator set, with the Unicode space separators of category Zs listed as of Unicode 15; later additions to that category are not modelled.
- Sorting.StrLeTotal: `localeCompare` is modelled as character-code order, not locale collation.
- DomainsApi.QueryText: `URLSearchParams` percent-encoding is an abstract `encode` parameter.
- Randomness and time: `Math.random` values in the mock generator are parameters indexed by record id; `setTimeout` delays are left out; the current-year defaults are parameters.
- React: rendering, effects, the `cancelled` flags and `Promise.all` fan-out are left out; each component's state is a class or the argument of a function, and an update is one method call.
- Checkbox rendering in the domain table is left out beyond the header-checked rule and the Go button's enabled rule.
- Error logging to the console is left out; what each `catch` returns or leaves on the page is modelled.
- Download plumbing (Blob, object URLs, anchor clicks) is left out; only the CSV text is modelled.
- Charts and SVG geometry in the ranking, comparison and analysis pages are left out, apart from the ranking bars' share of the total.
- Presentation-only files (`App.tsx`, `Header.tsx`, `ApiStatus.tsx`, `ApiDebugPanel.tsx`, `ApiTest.tsx`, `CountyMap.tsx`, `CountyList.tsx`, `DomainGrid.tsx`, `AnalysisDashboard.tsx`, `SelectedIndicators.tsx`, `TopicSidebar.tsx`) are not part of this model.
- DataViewer.NameCellsFallBack: the record's county, element and item are names while the lookups compare them with numeric ids, so the cells always show the fallback; the model keeps that behaviour and does not guess another.

## Findings

| source | as written | input that shows it | evidently intended | confidence | as-written member | corrected member |
|---|---|---|---|---|---|---|
| src/components/DataViewer.tsx:217 | the Year cell shows `record.year`, a field the fact record does not have, so it renders empty | a record with `refyear` "2020" | the cell shows the record's `refyear` | not executed | DataViewer.YearCellCounterexample | DataViewer.RowCellsYear |
