/** The domain table's row selection: a list of selected ids changed by
    the header checkbox and the row checkboxes, and the chosen bulk
    action. */
module DataTable {
  import opened Base
  import opened ApiService

  function DomainIds(domains: seq<Domain>): (r: seq<int>)
    ensures |r| == |domains|
    ensures forall i :: 0 <= i < |r| ==> r[i] == domains[i].id
  {
    seq(|domains|, i requires 0 <= i < |domains| => domains[i].id)
  }

  /** The selection after unchecking a row: every occurrence of its id is
      dropped, the rest keep their order. */
  function Deselect(selected: seq<int>, id: int): (r: seq<int>)
    ensures id !in r
    ensures forall x :: x != id ==> multiset(r)[x] == multiset(selected)[x]
  {
    if selected == [] then []
    else
      var rest := Deselect(selected[1..], id);
      assert selected == [selected[0]] + selected[1..];
      if selected[0] == id then rest else [selected[0]] + rest
  }

  /** Deselecting keeps the order: it works piecewise. */
  lemma {:induction false} DeselectAppend(a: seq<int>, b: seq<int>, id: int)
    ensures Deselect(a + b, id) == Deselect(a, id) + Deselect(b, id)
  {
    if a == [] {
      assert a + b == b;
    } else {
      assert (a + b)[1..] == a[1..] + b;
      DeselectAppend(a[1..], b, id);
    }
  }

  /** The header checkbox is checked when the selection is as long as the
      table, which holds for an empty table with nothing selected. */
  predicate HeaderChecked(selected: seq<int>, domains: seq<Domain>) {
    |selected| == |domains|
  }

  /** handleAction runs only with an action chosen and a non-empty
      selection. */
  predicate ActionRuns(action: string, selected: seq<int>) {
    action != "" && |selected| > 0
  }

  /** The Go button is disabled without an action or without a selection. */
  predicate GoDisabled(action: string, selected: seq<int>) {
    action == "" || |selected| == 0
  }

  /** The button is enabled exactly when pressing it runs the action, so
      the guard inside handleAction never refuses an enabled press. */
  lemma GoEnabledIffRuns(action: string, selected: seq<int>)
    ensures !GoDisabled(action, selected) <==> ActionRuns(action, selected)
  {
  }

  class Selection {
    var selected: seq<int>
    var action: string

    constructor ()
      ensures selected == [] && action == ""
    {
      selected := [];
      action := "";
    }

    /** handleSelectAll. */
    method SelectAll(domains: seq<Domain>, checked: bool)
      modifies this
      ensures selected == (if checked then DomainIds(domains) else [])
      ensures action == old(action)
    {
      if checked {
        selected := DomainIds(domains);
      } else {
        selected := [];
      }
    }

    /** handleSelectDomain: checking appends without a duplicate check,
        unchecking drops every occurrence. */
    method SelectDomain(id: int, checked: bool)
      modifies this
      ensures checked ==> selected == old(selected) + [id]
      ensures !checked ==> selected == Deselect(old(selected), id)
      ensures action == old(action)
    {
      if checked {
        selected := selected + [id];
      } else {
        selected := Deselect(selected, id);
      }
    }

    /** The bulk-action dropdown. */
    method ChooseAction(a: string)
      modifies this
      ensures action == a && selected == old(selected)
    {
      action := a;
    }

    /** handleAction: whether the chosen action runs on the selection. */
    method HandleAction() returns (runs: bool)
      ensures runs <==> ActionRuns(action, selected)
    {
      runs := action != "" && |selected| > 0;
    }
  }

  /** Clearing the selection disables every action; selecting all rows of
      a non-empty table with an action chosen enables it. */
  lemma SelectAllActions(domains: seq<Domain>, action: string)
    ensures !ActionRuns(action, [])
    ensures action != "" && domains != [] ==> ActionRuns(action, DomainIds(domains))
  {
  }

  /** After select-all the header checkbox is checked; after clearing it
      it is checked only for an empty table. */
  lemma SelectAllHeader(domains: seq<Domain>, checked: bool)
    ensures checked ==> HeaderChecked(DomainIds(domains), domains)
    ensures !checked ==> (HeaderChecked([], domains) <==> domains == [])
  {
  }

  /** Checking an already-selected row selects its id twice. */
  lemma CheckTwiceDuplicates(selected: seq<int>, id: int)
    requires id in selected
    ensures multiset(selected + [id])[id] >= 2
  {
    var k :| 0 <= k < |selected| && selected[k] == id;
    assert multiset(selected)[id] >= 1;
  }
}
