/** The definitions page: a set of expanded section ids toggled one id at
    a time, a search over every field of a row, and the '-' shown for a
    falsy cell. */
module DefinitionsStandards {
  import opened Base

  /** A field value of a loaded row: text or a number. */
  datatype Value = Text(s: string) | Num(n: int)

  /** A row as Object.values sees it: its fields in order. */
  type Obj = seq<(string, Value)>

  /** `String(value)`. */
  function Show(v: Value): string {
    match v
    case Text(s) => s
    case Num(n) => IntToString(n)
  }

  /** JavaScript truthiness of a field value. */
  predicate Truthy(v: Value) {
    match v
    case Text(s) => s != ""
    case Num(n) => n != 0
  }

  /** The expanded-or-collapsed state of the sections. */
  function Toggle(expanded: set<string>, id: string): (r: set<string>)
    ensures id in r <==> id !in expanded
    ensures forall other :: other != id ==> (other in r <==> other in expanded)
  {
    if id in expanded then expanded - {id} else expanded + {id}
  }

  /** Toggling the same id twice restores the set. */
  lemma ToggleTwice(expanded: set<string>, id: string)
    ensures Toggle(Toggle(expanded, id), id) == expanded
  {
    var once := Toggle(expanded, id);
    var twice := Toggle(once, id);
    assert forall x :: x in twice <==> x in expanded;
  }

  /** Toggles of different ids commute. */
  lemma ToggleCommutes(expanded: set<string>, a: string, b: string)
    ensures Toggle(Toggle(expanded, a), b) == Toggle(Toggle(expanded, b), a)
  {
    var ab, ba := Toggle(Toggle(expanded, a), b), Toggle(Toggle(expanded, b), a);
    assert forall x :: x in ab <==> x in ba;
  }

  class Sections {
    var expanded: set<string>

    constructor ()
      ensures expanded == {}
    {
      expanded := {};
    }

    /** toggleSection: copy the set, add or delete the id, store it. */
    method ToggleSection(id: string)
      modifies this
      ensures expanded == Toggle(old(expanded), id)
    {
      var next := expanded;
      if id in next {
        next := next - {id};
      } else {
        next := next + {id};
      }
      expanded := next;
    }
  }

  /** Some field's string form contains the query, case-insensitively. */
  predicate RowMatches(row: Obj, query: string) {
    exists k :: 0 <= k < |row| && ContainsIgnoreCase(Show(row[k].1), query)
  }

  /** filterData: an empty query keeps every row. */
  function FilterData(data: seq<Obj>, query: string): (r: seq<Obj>)
    ensures query == "" ==> r == data
    ensures |r| <= |data|
  {
    if query == "" then data else Filter(data, (row: Obj) => RowMatches(row, query))
  }

  /** With a query, exactly the matching rows are kept. */
  lemma FilterDataExact(data: seq<Obj>, query: string, row: Obj)
    requires query != ""
    ensures row in FilterData(data, query) <==> row in data && RowMatches(row, query)
  {
    var r := FilterData(data, query);
    if row in r {
      var k :| 0 <= k < |r| && r[k] == row;
    }
    if row in data && RowMatches(row, query) {
      var k :| 0 <= k < |data| && data[k] == row;
    }
  }

  /** The rows keep their order: filtering a concatenation concatenates. */
  lemma FilterDataKeepsOrder(a: seq<Obj>, b: seq<Obj>, query: string)
    ensures FilterData(a + b, query) == FilterData(a, query) + FilterData(b, query)
  {
    if query != "" {
      FilterAppend(a, b, (row: Obj) => RowMatches(row, query));
    }
  }

  /** `item[column.key]`, undefined when the row has no such field. */
  function Field(row: Obj, key: string): Option<Value> {
    match Find(row, (f: (string, Value)) => f.0 == key)
    case Some(f) => Some(f.1)
    case None => None
  }

  /** `String(item[column.key] || '-')`. */
  function CellText(row: Obj, key: string): (r: string)
    ensures r != ""
    ensures Field(row, key).None? ==> r == "-"
    ensures Field(row, key).Some? && !Truthy(Field(row, key).value) ==> r == "-"
    ensures Field(row, key).Some? && Truthy(Field(row, key).value) ==> r == Show(Field(row, key).value)
  {
    match Field(row, key)
    case Some(v) => if Truthy(v) then Show(v) else "-"
    case None => "-"
  }

  /** The number 0 and the empty text both show as '-'. */
  lemma FalsyShowsDash(key: string, v: Value, rest: Obj)
    requires v == Num(0) || v == Text("")
    ensures CellText([(key, v)] + rest, key) == "-"
  {
    var row := [(key, v)] + rest;
    assert row[0] == (key, v);
  }
}
