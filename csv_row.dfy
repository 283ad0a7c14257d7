/** The row object both CSV loaders build (csvDataService.ts and
    dataService.ts): for each header position, `row[header] = values[index]
    || ''`, a later duplicate header overwriting an earlier one. */
module CsvRow {
  import opened Base

  type Row = map<string, string>

  /** `values[index] || ''`: a missing or empty value is ''. */
  function Cell(values: seq<string>, index: nat): string {
    if index < |values| then values[index] else ""
  }

  /** A row property, undefined (falsy) when the header is absent. */
  function Get(row: Row, key: string): string {
    if key in row then row[key] else ""
  }

  /** The row after the forEach over `headers`. */
  function RowOf(headers: seq<string>, values: seq<string>): Row {
    if headers == [] then map[]
    else RowOf(headers[..|headers| - 1], values)[headers[|headers| - 1] := Cell(values, |headers| - 1)]
  }

  /** headers.forEach((header, index) => row[header] = values[index] || ''). */
  method FillRow(headers: seq<string>, values: seq<string>) returns (row: Row)
    ensures row == RowOf(headers, values)
  {
    row := map[];
    for i := 0 to |headers|
      invariant row == RowOf(headers[..i], values)
    {
      assert headers[..i + 1][..i] == headers[..i];
      row := row[headers[i] := Cell(values, i)];
    }
    assert headers[..|headers|] == headers;
  }

  /** Position `i` is the last occurrence of its header. */
  predicate LastAt(headers: seq<string>, i: nat)
    requires i < |headers|
  {
    forall j :: i < j < |headers| ==> headers[j] != headers[i]
  }

  /** The row has exactly the header names as keys. */
  lemma {:induction false} RowOfKeys(headers: seq<string>, values: seq<string>)
    ensures RowOf(headers, values).Keys == set h | h in headers
  {
    if headers != [] {
      var n := |headers| - 1;
      RowOfKeys(headers[..n], values);
      assert headers == headers[..n] + [headers[n]];
    }
  }

  /** Each header reads the value at its last position. */
  lemma {:induction false} RowOfLast(headers: seq<string>, values: seq<string>)
    ensures forall i :: 0 <= i < |headers| && LastAt(headers, i) ==>
      headers[i] in RowOf(headers, values) && RowOf(headers, values)[headers[i]] == Cell(values, i)
  {
    if headers != [] {
      var n := |headers| - 1;
      var init := headers[..n];
      RowOfLast(init, values);
      forall i | 0 <= i < |headers| && LastAt(headers, i)
        ensures headers[i] in RowOf(headers, values) && RowOf(headers, values)[headers[i]] == Cell(values, i)
      {
        if i < n {
          assert headers[n] != headers[i];
          assert init[i] == headers[i];
          assert LastAt(init, i);
        }
      }
    }
  }

  /** With distinct headers every column maps to its own position, and a
      short line gives '' for each missing column. */
  lemma RowOfDistinct(headers: seq<string>, values: seq<string>)
    requires forall i, j :: 0 <= i < j < |headers| ==> headers[i] != headers[j]
    ensures forall i :: 0 <= i < |headers| ==> Get(RowOf(headers, values), headers[i]) == Cell(values, i)
    ensures forall i :: |values| <= i < |headers| ==> Get(RowOf(headers, values), headers[i]) == ""
  {
    RowOfLast(headers, values);
    assert forall i :: 0 <= i < |headers| ==> LastAt(headers, i);
  }
}
