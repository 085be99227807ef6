/**
 * `[...orders].sort((a, b) => dueA - dueB)` and its descending twin: a
 * copy of the order list sorted by due date.  The sort is stable, like
 * the engine's `Array.prototype.sort`; an element is inserted after the
 * ones with the same due date.
 */
module OrderSort {
  import opened Types
  import opened Lists

  /** The value the comparator subtracts: due date, negated for the descending sort. */
  function Key(o: WorkOrder, desc: bool): int
  {
    if desc then -o.dueDate else o.dueDate
  }

  /** `a` may come before `b`: ascending or descending by due date. */
  predicate InOrder(a: WorkOrder, b: WorkOrder, desc: bool)
  {
    Key(a, desc) <= Key(b, desc)
  }

  predicate Sorted(s: seq<WorkOrder>, desc: bool)
  {
    forall i, j :: 0 <= i < j < |s| ==> InOrder(s[i], s[j], desc)
  }

  /** Each element may precede the next one. */
  predicate Chained(s: seq<WorkOrder>, desc: bool)
  {
    forall i :: 0 < i < |s| ==> InOrder(s[i - 1], s[i], desc)
  }

  lemma {:induction false} ChainedIsSorted(s: seq<WorkOrder>, desc: bool)
    requires Chained(s, desc)
    ensures Sorted(s, desc)
    decreases |s|
  {
    if |s| > 1 {
      var init := s[..|s| - 1];
      ChainedIsSorted(init, desc);
      forall i | 0 <= i < |s| - 1 ensures InOrder(s[i], s[|s| - 1], desc) {
        assert InOrder(init[i], init[|init| - 1], desc) || i == |init| - 1;
      }
    }
  }

  /** Puts `o` into chained `s` after every element it does not strictly precede. */
  function Insert(o: WorkOrder, s: seq<WorkOrder>, desc: bool): (r: seq<WorkOrder>)
    requires Chained(s, desc)
    ensures Chained(r, desc)
    ensures multiset(r) == multiset(s) + multiset{o}
    ensures |r| == |s| + 1
    ensures r[0] == o || (|s| > 0 && r[0] == s[0])
    decreases |s|
  {
    if |s| == 0 then [o]
    else if !InOrder(s[0], o, desc) then [o] + s
    else
      var rest := Insert(o, s[1..], desc);
      assert s == [s[0]] + s[1..];
      [s[0]] + rest
  }

  /** The sorted copy: every order of the input, each as often, ordered by due date. */
  function SortByDueDate(orders: seq<WorkOrder>, desc: bool): (r: seq<WorkOrder>)
    ensures Sorted(r, desc)
    ensures multiset(r) == multiset(orders)
    ensures |r| == |orders|
  {
    var r := InsertionSort(orders, desc);
    ChainedIsSorted(r, desc);
    r
  }

  function InsertionSort(orders: seq<WorkOrder>, desc: bool): (r: seq<WorkOrder>)
    ensures Chained(r, desc)
    ensures multiset(r) == multiset(orders)
    ensures |r| == |orders|
    decreases |orders|
  {
    if |orders| == 0 then []
    else
      assert orders == orders[..|orders| - 1] + [orders[|orders| - 1]];
      Insert(orders[|orders| - 1], InsertionSort(orders[..|orders| - 1], desc), desc)
  }

  /** A list already in order comes back unchanged. */
  lemma {:induction false} SortSortedIsIdentity(orders: seq<WorkOrder>, desc: bool)
    requires Sorted(orders, desc)
    ensures InsertionSort(orders, desc) == orders && SortByDueDate(orders, desc) == orders
    decreases |orders|
  {
    if |orders| > 0 {
      var init, last := orders[..|orders| - 1], orders[|orders| - 1];
      SortSortedIsIdentity(init, desc);
      InsertAfterAll(last, init, desc);
    }
  }

  /** An element that every element of `s` may precede goes at the end. */
  lemma {:induction false} InsertAfterAll(o: WorkOrder, s: seq<WorkOrder>, desc: bool)
    requires Chained(s, desc)
    requires forall i :: 0 <= i < |s| ==> InOrder(s[i], o, desc)
    ensures Insert(o, s, desc) == s + [o]
    decreases |s|
  {
    if |s| > 0 {
      InsertAfterAll(o, s[1..], desc);
      assert [s[0]] + (s[1..] + [o]) == s + [o];
    }
  }

  // ---------------------------------------------------------------------
  // Stability
  // ---------------------------------------------------------------------

  /** `[o]` when `o` is due at `due`, otherwise nothing. */
  function Tie(o: WorkOrder, due: int): seq<WorkOrder>
  {
    if o.dueDate == due then [o] else []
  }

  /** The orders of `s` due at `due`, in their order in `s`. */
  function Ties(s: seq<WorkOrder>, due: int): seq<WorkOrder>
    decreases |s|
  {
    if |s| == 0 then [] else Tie(s[0], due) + Ties(s[1..], due)
  }

  /** The test "is due at `due`", the filter that picks one group of ties. */
  function DueAt(due: int): WorkOrder -> bool
  {
    (o: WorkOrder) => o.dueDate == due
  }

  /**
   * The sort is stable: for every due date, the orders due then appear in
   * the result in the same order as in the input.
   */
  lemma SortByDueDateStable(orders: seq<WorkOrder>, desc: bool, due: int)
    ensures Filter(SortByDueDate(orders, desc), DueAt(due)) == Filter(orders, DueAt(due))
  {
    InsertionSortStable(orders, desc, due);
    TiesAreFilter(orders, due);
    TiesAreFilter(SortByDueDate(orders, desc), due);
  }

  /** `Ties` is the generic filter with the test `DueAt(due)`. */
  lemma {:induction false} TiesAreFilter(s: seq<WorkOrder>, due: int)
    ensures Ties(s, due) == Filter(s, DueAt(due))
    decreases |s|
  {
    if |s| > 0 {
      TiesAreFilter(s[1..], due);
      FilterFirst(s, DueAt(due));
      OneTieIsFilter(s[0], due);
    }
  }

  lemma OneTieIsFilter(o: WorkOrder, due: int)
    ensures Tie(o, due) == Filter([o], DueAt(due))
  {
    FilterLast([o], DueAt(due));
  }

  lemma {:induction false} InsertionSortStable(orders: seq<WorkOrder>, desc: bool, due: int)
    ensures Ties(InsertionSort(orders, desc), due) == Ties(orders, due)
    decreases |orders|
  {
    if |orders| > 0 {
      var init, last := orders[..|orders| - 1], orders[|orders| - 1];
      InsertionSortStable(init, desc, due);
      InsertKeepsTies(last, InsertionSort(init, desc), desc, due);
      TiesAppend(init, [last], due);
      TiesCons(last, [], due);
      InitLast(orders);
    }
  }

  lemma TiesCons(x: WorkOrder, b: seq<WorkOrder>, due: int)
    ensures Ties([x] + b, due) == Tie(x, due) + Ties(b, due)
  {
    assert ([x] + b)[1..] == b;
  }

  lemma {:induction false} TiesAppend(a: seq<WorkOrder>, b: seq<WorkOrder>, due: int)
    ensures Ties(a + b, due) == Ties(a, due) + Ties(b, due)
    decreases |a|
  {
    if |a| > 0 {
      TiesAppend(a[1..], b, due);
      assert (a + b)[1..] == a[1..] + b;
      ConcatAssoc(Tie(a[0], due), Ties(a[1..], due), Ties(b, due));
    } else {
      assert a + b == b;
    }
  }

  /** Inserting `o` puts it after every element due at the same time, and keeps their order. */
  lemma {:induction false} InsertKeepsTies(o: WorkOrder, s: seq<WorkOrder>, desc: bool, due: int)
    requires Chained(s, desc)
    ensures Ties(Insert(o, s, desc), due) == Ties(s, due) + Tie(o, due)
    decreases |s|
  {
    if |s| == 0 {
      TiesCons(o, [], due);
    } else if !InOrder(s[0], o, desc) {
      InsertInFront(o, s, desc, due);
    } else {
      InsertKeepsTies(o, s[1..], desc, due);
      InsertBehindShape(o, s, desc);
      TiesCons(s[0], Insert(o, s[1..], desc), due);
      ConcatAssoc(Tie(s[0], due), Ties(s[1..], due), Tie(o, due));
    }
  }

  /** When `o` goes in front, every element of `s` is due strictly on the far side of it. */
  lemma InsertInFront(o: WorkOrder, s: seq<WorkOrder>, desc: bool, due: int)
    requires Chained(s, desc) && |s| > 0 && !InOrder(s[0], o, desc)
    ensures Ties(Insert(o, s, desc), due) == Ties(s, due) + Tie(o, due)
  {
    assert Insert(o, s, desc) == [o] + s;
    TiesCons(o, s, due);
    if o.dueDate == due {
      ChainedIsSorted(s, desc);
      forall i | 0 <= i < |s| ensures s[i].dueDate != due {
        assert i == 0 || InOrder(s[0], s[i], desc);
      }
      NoTies(s, due);
    }
  }

  lemma InsertBehindShape(o: WorkOrder, s: seq<WorkOrder>, desc: bool)
    requires Chained(s, desc) && |s| > 0 && InOrder(s[0], o, desc)
    ensures Insert(o, s, desc) == [s[0]] + Insert(o, s[1..], desc)
  {
  }

  /** No element of `s` is due at `due`, so it has no ties there. */
  lemma {:induction false} NoTies(s: seq<WorkOrder>, due: int)
    requires forall i :: 0 <= i < |s| ==> s[i].dueDate != due
    ensures Ties(s, due) == []
    decreases |s|
  {
    if |s| > 0 {
      NoTies(s[1..], due);
    }
  }
}
