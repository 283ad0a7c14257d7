/** Array.prototype.sort with a comparator, as the dashboard uses it: the
    JavaScript engine's sort is stable, so the result is the sorted
    permutation that keeps equivalent elements in their input order.
    Modelled as an insertion sort with a "sorts no later than" relation `le`
    (`le(a, b)` exactly when the comparator does not return a positive number
    for `a, b`). */
module Sorting {
  import opened Base

  ghost predicate TotalPreorder<T(!new)>(le: (T, T) -> bool) {
    && (forall a, b :: le(a, b) || le(b, a))
    && (forall a, b, c :: le(a, b) && le(b, c) ==> le(a, c))
  }

  ghost predicate Sorted<T>(s: seq<T>, le: (T, T) -> bool) {
    forall i, j :: 0 <= i < j < |s| ==> le(s[i], s[j])
  }

  predicate Equiv<T>(a: T, b: T, le: (T, T) -> bool) {
    le(a, b) && le(b, a)
  }

  /** Places `x` after every element of `t` that sorts no later than it. */
  function Insert<T>(t: seq<T>, x: T, le: (T, T) -> bool): (r: seq<T>)
    ensures multiset(r) == multiset(t) + multiset{x}
  {
    if t == [] then [x]
    else if le(t[0], x) then
      assert t == [t[0]] + t[1..];
      [t[0]] + Insert(t[1..], x, le)
    else [x] + t
  }

  /** The stable sort of `s` by `le`. */
  function SortBy<T>(s: seq<T>, le: (T, T) -> bool): (r: seq<T>)
    ensures multiset(r) == multiset(s)
    ensures |r| == |s|
  {
    if s == [] then []
    else
      assert s == s[..|s| - 1] + [s[|s| - 1]];
      var r := Insert(SortBy(s[..|s| - 1], le), s[|s| - 1], le);
      assert |r| == |multiset(r)|;
      r
  }

  /** The elements of `s` equivalent to `y`, in their order in `s`. */
  function Equivs<T>(s: seq<T>, y: T, le: (T, T) -> bool): seq<T> {
    if s == [] then []
    else (if Equiv(s[0], y, le) then [s[0]] else []) + Equivs(s[1..], y, le)
  }

  lemma {:induction false} EquivsAppend<T>(a: seq<T>, b: seq<T>, y: T, le: (T, T) -> bool)
    ensures Equivs(a + b, y, le) == Equivs(a, y, le) + Equivs(b, y, le)
  {
    if a == [] {
      assert a + b == b;
    } else {
      assert (a + b)[0] == a[0] && (a + b)[1..] == a[1..] + b;
      EquivsAppend(a[1..], b, y, le);
      var h := if Equiv(a[0], y, le) then [a[0]] else [];
      var ea, eb := Equivs(a[1..], y, le), Equivs(b, y, le);
      assert h + (ea + eb) == (h + ea) + eb;
    }
  }

  lemma {:induction false} EquivsNone<T>(s: seq<T>, y: T, le: (T, T) -> bool)
    requires forall k :: 0 <= k < |s| ==> !Equiv(s[k], y, le)
    ensures Equivs(s, y, le) == []
  {
    if s != [] {
      EquivsNone(s[1..], y, le);
    }
  }

  lemma {:induction false} InsertSorted<T(!new)>(t: seq<T>, x: T, le: (T, T) -> bool)
    requires TotalPreorder(le) && Sorted(t, le)
    ensures Sorted(Insert(t, x, le), le)
  {
    if t != [] && le(t[0], x) {
      InsertSorted(t[1..], x, le);
      var r := Insert(t, x, le);
      var tail := Insert(t[1..], x, le);
      assert multiset(tail) == multiset(t[1..]) + multiset{x};
      forall j | 0 < j < |r|
        ensures le(t[0], r[j])
      {
        assert r[j] == tail[j - 1];
        assert r[j] in multiset(tail);
        if r[j] != x {
          assert r[j] in multiset(t[1..]);
          var k :| 0 <= k < |t[1..]| && t[1..][k] == r[j];
          assert t[k + 1] == r[j];
        }
      }
    }
  }

  /** The sort's result is ordered by `le`. */
  lemma {:induction false} SortBySorted<T(!new)>(s: seq<T>, le: (T, T) -> bool)
    requires TotalPreorder(le)
    ensures Sorted(SortBy(s, le), le)
  {
    if s != [] {
      SortBySorted(s[..|s| - 1], le);
      InsertSorted(SortBy(s[..|s| - 1], le), s[|s| - 1], le);
    }
  }

  lemma EquivsSingle<T>(x: T, y: T, le: (T, T) -> bool)
    ensures Equivs([x], y, le) == if Equiv(x, y, le) then [x] else []
  {
    assert [x][1..] == [];
  }

  /** Inserting `x` in front of a sorted `t` whose head sorts later: no
      element of `t` is equivalent to anything `x` is equivalent to. */
  lemma InsertEquivsFront<T(!new)>(t: seq<T>, x: T, y: T, le: (T, T) -> bool)
    requires TotalPreorder(le) && Sorted(t, le)
    requires t != [] && !le(t[0], x)
    ensures Equivs([x] + t, y, le)
         == Equivs(t, y, le) + (if Equiv(x, y, le) then [x] else [])
  {
    EquivsAppend([x], t, y, le);
    EquivsSingle(x, y, le);
    if Equiv(x, y, le) {
      forall k | 0 <= k < |t|
        ensures !Equiv(t[k], y, le)
      {
        assert k == 0 || le(t[0], t[k]);
        NotEquivAfter(t[0], t[k], x, y, le);
      }
      EquivsNone(t, y, le);
    }
  }

  /** Whatever sorts no earlier than an element that sorts later than `x`
      is not equivalent to anything `x` is equivalent to. */
  lemma NotEquivAfter<T(!new)>(a: T, b: T, x: T, y: T, le: (T, T) -> bool)
    requires TotalPreorder(le) && Equiv(x, y, le)
    requires !le(a, x) && le(a, b)
    ensures !Equiv(b, y, le)
  {
  }

  /** Equivs read off the front of a non-empty sequence. */
  lemma EquivsFront<T>(r: seq<T>, y: T, le: (T, T) -> bool)
    requires r != []
    ensures Equivs(r, y, le) == (if Equiv(r[0], y, le) then [r[0]] else []) + Equivs(r[1..], y, le)
  {
  }

  /** Inserting past the head keeps the head in front. */
  lemma InsertPastHead<T>(t: seq<T>, x: T, le: (T, T) -> bool)
    requires t != [] && le(t[0], x)
    ensures Insert(t, x, le) != [] && Insert(t, x, le)[0] == t[0]
    ensures Insert(t, x, le)[1..] == Insert(t[1..], x, le)
  {
  }

  /** Inserting past the head: the head's contribution stays in front. */
  lemma InsertEquivsCons<T>(t: seq<T>, x: T, y: T, le: (T, T) -> bool)
    requires t != [] && le(t[0], x)
    requires Equivs(Insert(t[1..], x, le), y, le)
          == Equivs(t[1..], y, le) + (if Equiv(x, y, le) then [x] else [])
    ensures Equivs(Insert(t, x, le), y, le)
         == Equivs(t, y, le) + (if Equiv(x, y, le) then [x] else [])
  {
    InsertPastHead(t, x, le);
    EquivsFront(Insert(t, x, le), y, le);
    EquivsFront(t, y, le);
    AppendAssoc(if Equiv(t[0], y, le) then [t[0]] else [], Equivs(t[1..], y, le),
                if Equiv(x, y, le) then [x] else []);
  }

  lemma {:induction false} InsertEquivs<T(!new)>(t: seq<T>, x: T, y: T, le: (T, T) -> bool)
    requires TotalPreorder(le) && Sorted(t, le)
    ensures Equivs(Insert(t, x, le), y, le)
         == Equivs(t, y, le) + (if Equiv(x, y, le) then [x] else [])
  {
    if t == [] {
      EquivsSingle(x, y, le);
    } else if le(t[0], x) {
      assert Sorted(t[1..], le);
      InsertEquivs(t[1..], x, y, le);
      InsertEquivsCons(t, x, y, le);
    } else {
      InsertEquivsFront(t, x, y, le);
    }
  }

  /** Stability: for every `y`, the elements equivalent to `y` come out in
      the order they went in. */
  lemma {:induction false} SortByStable<T(!new)>(s: seq<T>, y: T, le: (T, T) -> bool)
    requires TotalPreorder(le)
    ensures Equivs(SortBy(s, le), y, le) == Equivs(s, y, le)
  {
    if s != [] {
      var init, last := s[..|s| - 1], s[|s| - 1];
      SortByStable(init, y, le);
      SortBySorted(init, le);
      InsertEquivs(SortBy(init, le), last, y, le);
      assert init + [last] == s;
      EquivsAppend(init, [last], y, le);
      EquivsSingle(last, y, le);
    }
  }

  lemma {:induction false} InsertAtEnd<T>(t: seq<T>, x: T, le: (T, T) -> bool)
    requires forall k :: 0 <= k < |t| ==> le(t[k], x)
    ensures Insert(t, x, le) == t + [x]
  {
    if t != [] {
      InsertAtEnd(t[1..], x, le);
      assert t == [t[0]] + t[1..];
    }
  }

  /** Sorting input that is already in order changes nothing. */
  lemma {:induction false} SortBySortedInput<T>(s: seq<T>, le: (T, T) -> bool)
    requires Sorted(s, le)
    ensures SortBy(s, le) == s
  {
    if s != [] {
      var init := s[..|s| - 1];
      assert Sorted(init, le);
      SortBySortedInput(init, le);
      InsertAtEnd(init, s[|s| - 1], le);
    }
  }

  // ---------------------------------------------------------------------
  // String order

  /** Lexicographic order on UTF-16 code units: the order of the default
      Array.prototype.sort, and the fixed order taken for localeCompare. */
  predicate StrLe(a: string, b: string) {
    a == [] || (b != [] && (a[0] < b[0] || (a[0] == b[0] && StrLe(a[1..], b[1..]))))
  }

  lemma {:induction false} StrLeTotal(a: string, b: string)
    ensures StrLe(a, b) || StrLe(b, a)
  {
    if a != [] && b != [] && a[0] == b[0] {
      StrLeTotal(a[1..], b[1..]);
    }
  }

  lemma {:induction false} StrLeTrans(a: string, b: string, c: string)
    requires StrLe(a, b) && StrLe(b, c)
    ensures StrLe(a, c)
  {
    if a != [] && a[0] == b[0] && b[0] == c[0] {
      StrLeTrans(a[1..], b[1..], c[1..]);
    }
  }

  /** Strings that start with different characters are ordered by them. */
  lemma StrLeHead(a: string, b: string)
    requires a != [] && b != [] && a[0] != b[0]
    ensures StrLe(a, b) <==> a[0] < b[0]
  {
  }

  /** Ordering values by a string key is a total preorder. */
  lemma StrLeByKey<T(!new)>(key: T -> string, le: (T, T) -> bool)
    requires forall x, y :: le(x, y) == StrLe(key(x), key(y))
    ensures TotalPreorder(le)
  {
    forall x, y
      ensures le(x, y) || le(y, x)
    {
      StrLeTotal(key(x), key(y));
    }
    forall x, y, z | le(x, y) && le(y, z)
      ensures le(x, z)
    {
      StrLeTrans(key(x), key(y), key(z));
    }
  }

  /** An element that sorts no later than every element of a sorted
      sequence can go in front of it. */
  lemma SortedCons<T>(a: T, rest: seq<T>, le: (T, T) -> bool)
    requires Sorted(rest, le) && forall k :: 0 <= k < |rest| ==> le(a, rest[k])
    ensures Sorted([a] + rest, le)
  {
    var r := [a] + rest;
    forall i, j | 0 <= i < j < |r|
      ensures le(r[i], r[j])
    {
      assert r[j] == rest[j - 1];
      if i > 0 {
        assert r[i] == rest[i - 1];
      }
    }
  }

  /** Filtering keeps a sorted sequence sorted. */
  lemma {:induction false} FilterSorted<T>(s: seq<T>, p: T -> bool, le: (T, T) -> bool)
    requires Sorted(s, le)
    ensures Sorted(Filter(s, p), le)
  {
    if s != [] {
      var tail := s[1..];
      assert Sorted(tail, le);
      FilterSorted(tail, p, le);
      var rest := Filter(tail, p);
      if p(s[0]) {
        forall k | 0 <= k < |rest|
          ensures le(s[0], rest[k])
        {
          assert rest[k] in tail;
          var m :| 0 <= m < |tail| && tail[m] == rest[k];
          assert s[m + 1] == tail[m];
        }
        SortedCons(s[0], rest, le);
        assert Filter(s, p) == [s[0]] + rest;
      } else {
        assert Filter(s, p) == rest;
      }
    }
  }
}
