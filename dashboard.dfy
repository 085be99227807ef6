/**
 * The dashboard (src/components/Dashboard.tsx): the pending-orders count
 * and the five orders with the latest due dates.  Each recent row shows
 * the client's name with the same "N/A" fallback as the order list
 * (`OrderList.ClientName`).
 */
module Dashboard {
  import opened Types
  import opened Lists
  import OrderSort
  import Financials

  /** `orders.filter(o => o.status !== Entregado).length`. */
  function PendingOrders(orders: seq<WorkOrder>): (n: nat)
    ensures n <= |orders|
    ensures n + |Filter(orders, Financials.IsDelivered)| == |orders|
  {
    FilterPartitionLength(orders, Financials.NotDelivered, Financials.IsDelivered);
    |Filter(orders, Financials.NotDelivered)|
  }

  /** The dashboard's pending count is the pending count of the Financials KPIs over all orders. */
  lemma {:induction false} PendingMatchesFinancials(orders: seq<WorkOrder>)
    ensures PendingOrders(orders) == Financials.CountOrders(orders, false)
    decreases |orders|
  {
    if |orders| > 0 {
      PendingMatchesFinancials(orders[..|orders| - 1]);
    }
  }

  /** How many recent orders are shown. */
  const RecentCount: nat := 5

  /**
   * `recentOrders`: a copy sorted by due date, latest first, cut to five.
   * It holds `min(5, |orders|)` of the orders, latest first, and none of
   * the orders left out is due later than any shown.
   */
  function RecentOrders(orders: seq<WorkOrder>): (r: seq<WorkOrder>)
    ensures |r| == Min(RecentCount, |orders|)
    ensures forall i, j :: 0 <= i < j < |r| ==> r[i].dueDate >= r[j].dueDate
    ensures multiset(r) <= multiset(orders)
    ensures forall x, y :: x in r && y in multiset(orders) - multiset(r) ==> x.dueDate >= y.dueDate
  {
    var sorted := OrderSort.SortByDueDate(orders, true);
    var r := sorted[..Min(RecentCount, |orders|)];
    PrefixIsLatest(sorted, Min(RecentCount, |orders|));
    r
  }

  /** A prefix of a latest-first list is latest-first, and no element after it is due later than any in it. */
  lemma PrefixIsLatest(sorted: seq<WorkOrder>, k: nat)
    requires OrderSort.Sorted(sorted, true) && k <= |sorted|
    ensures forall i, j :: 0 <= i < j < k ==> sorted[..k][i].dueDate >= sorted[..k][j].dueDate
    ensures multiset(sorted[..k]) <= multiset(sorted)
    ensures forall x, y :: x in sorted[..k] && y in multiset(sorted) - multiset(sorted[..k]) ==> x.dueDate >= y.dueDate
  {
    var r, rest := sorted[..k], sorted[k..];
    forall i, j | 0 <= i < j < k ensures r[i].dueDate >= r[j].dueDate {
      LaterFirst(sorted, i, j);
    }
    assert sorted == r + rest;
    assert multiset(sorted) - multiset(r) == multiset(rest);
    forall x, y | x in r && y in rest ensures x.dueDate >= y.dueDate {
      var i :| 0 <= i < k && r[i] == x;
      var j :| 0 <= j < |rest| && rest[j] == y;
      LaterFirst(sorted, i, k + j);
    }
  }

  /** In a latest-first list an earlier position is due no earlier than a later one. */
  lemma LaterFirst(sorted: seq<WorkOrder>, i: nat, m: nat)
    requires OrderSort.Sorted(sorted, true) && i < m < |sorted|
    ensures sorted[i].dueDate >= sorted[m].dueDate
  {
    assert OrderSort.InOrder(sorted[i], sorted[m], true);
  }
}
