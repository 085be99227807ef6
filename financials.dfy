/**
 * The Financials view (src/components/Financials.tsx): its copy of the
 * order total, the filter over orders, the KPI accumulator and the
 * monthly revenue buckets.
 *
 * A due date is an instant in milliseconds.  A date filter is a day
 * number; its bounds are that day's 00:00:00 and 23:59:59.  The month an
 * instant falls in is given by `monthOf`, because it depends on the
 * browser's time zone.
 */
module Financials {
  import opened Types
  import opened Lists

  // ---------------------------------------------------------------------
  // Order total
  // ---------------------------------------------------------------------

  /** `(product?.price || 0) * (item.quantity || 0)` for one line. */
  function LineValue(products: seq<Product>, item: OrderItem): int
  {
    var product := FindById(products, ProductId, item.productId);
    (if product.Some? && product.value.price != 0 then product.value.price else 0) * item.quantity
  }

  /** The `reduce` over the line items, from the left, starting at 0. */
  function ItemsTotal(products: seq<Product>, items: seq<OrderItem>): (total: int)
    ensures (forall p :: p in products ==> p.price >= 0) && (forall it :: it in items ==> it.quantity >= 0) ==> total >= 0
    decreases |items|
  {
    if |items| == 0 then 0
    else
      var init := items[..|items| - 1];
      assert forall it :: it in init ==> it in items;
      ItemsTotal(products, init) + LineValue(products, items[|items| - 1])
  }

  /** `calculateOrderTotal`. */
  function CalculateOrderTotal(products: seq<Product>, order: WorkOrder): int
  {
    ItemsTotal(products, order.items)
  }

  /** An order without items is worth 0. */
  lemma EmptyOrderIsZero(products: seq<Product>, order: WorkOrder)
    requires order.items == []
    ensures CalculateOrderTotal(products, order) == 0
  {
  }

  /** A line whose product is not in the catalog contributes 0. */
  lemma UnknownProductLineIsZero(products: seq<Product>, item: OrderItem)
    requires forall p :: p in products ==> p.id != item.productId
    ensures LineValue(products, item) == 0
  {
  }

  /** A line whose product is in the catalog is worth the first such product's price times the quantity. */
  lemma KnownProductLine(products: seq<Product>, item: OrderItem, k: nat)
    requires k < |products| && products[k].id == item.productId
    requires forall j :: 0 <= j < k ==> products[j].id != item.productId
    ensures LineValue(products, item) == products[k].price * item.quantity
  {
    assert ProductId(products[k]) == item.productId;
  }

  /** The total of a concatenation is the sum of the totals. */
  lemma {:induction false} ItemsTotalAppend(products: seq<Product>, xs: seq<OrderItem>, ys: seq<OrderItem>)
    ensures ItemsTotal(products, xs + ys) == ItemsTotal(products, xs) + ItemsTotal(products, ys)
    decreases |ys|
  {
    if |ys| == 0 {
      assert xs + ys == xs;
    } else {
      var ys' := ys[..|ys| - 1];
      assert (xs + ys)[..|xs + ys| - 1] == xs + ys';
      ItemsTotalAppend(products, xs, ys');
    }
  }

  /** When no line's product is in the catalog, the order is worth 0. */
  lemma {:induction false} NoKnownProductsIsZero(products: seq<Product>, items: seq<OrderItem>)
    requires forall it, p :: it in items && p in products ==> p.id != it.productId
    ensures ItemsTotal(products, items) == 0
    decreases |items|
  {
    if |items| > 0 {
      var init := items[..|items| - 1];
      assert forall it :: it in init ==> it in items;
      NoKnownProductsIsZero(products, init);
      UnknownProductLineIsZero(products, items[|items| - 1]);
    }
  }

  /** `find` over a concatenation looks in the second part only when the first has no match. */
  lemma {:induction false} FindIndexAppend<T>(xs: seq<T>, ys: seq<T>, idOf: T -> string, id: string)
    ensures var k := FindIndex(xs + ys, idOf, id);
      var kx := FindIndex(xs, idOf, id);
      var ky := FindIndex(ys, idOf, id);
      k == if kx >= 0 then kx else if ky >= 0 then |xs| + ky else -1
    decreases |xs|
  {
    if |xs| > 0 {
      assert (xs + ys)[1..] == xs[1..] + ys;
      FindIndexAppend(xs[1..], ys, idOf, id);
    } else {
      assert xs + ys == ys;
    }
  }

  lemma FindByIdAppend<T>(xs: seq<T>, ys: seq<T>, idOf: T -> string, id: string)
    ensures FindById(xs + ys, idOf, id) == if FindById(xs, idOf, id).Some? then FindById(xs, idOf, id) else FindById(ys, idOf, id)
  {
    FindIndexAppend(xs, ys, idOf, id);
    var ky := FindIndex(ys, idOf, id);
    if FindIndex(xs, idOf, id) < 0 && ky >= 0 {
      assert (xs + ys)[|xs| + ky] == ys[ky];
    }
  }

  /** `find` on a non-empty sequence: the hit among all but the last record, else the last record if it matches. */
  lemma FindByIdLast<T>(xs: seq<T>, idOf: T -> string, id: string)
    requires |xs| > 0
    ensures var init := FindById(xs[..|xs| - 1], idOf, id);
      FindById(xs, idOf, id) == if init.Some? then init else FindById([xs[|xs| - 1]], idOf, id)
  {
    assert xs == xs[..|xs| - 1] + [xs[|xs| - 1]];
    FindByIdAppend(xs[..|xs| - 1], [xs[|xs| - 1]], idOf, id);
  }

  /** A filter that keeps every record carrying `id` does not change what `find` returns for `id`. */
  lemma {:induction false} FindAfterFilter<T(!new)>(xs: seq<T>, p: T -> bool, idOf: T -> string, id: string)
    requires forall x :: idOf(x) == id ==> p(x)
    ensures FindById(Filter(xs, p), idOf, id) == FindById(xs, idOf, id)
    decreases |xs|
  {
    if |xs| > 0 {
      var init, last := xs[..|xs| - 1], xs[|xs| - 1];
      FindAfterFilter(init, p, idOf, id);
      FilterLast(xs, p);
      FindByIdLast(xs, idOf, id);
      if p(last) {
        FindByIdAppend(Filter(init, p), [last], idOf, id);
      } else {
        assert FindById([last], idOf, id).None?;
      }
    }
  }

  /** Deleting the products with one id does not change what `find` returns for another id. */
  lemma FindAfterRemove(products: seq<Product>, removed: string, id: string)
    requires id != removed
    ensures FindById(RemoveById(products, ProductId, removed), ProductId, id) == FindById(products, ProductId, id)
  {
    FindAfterFilter(products, KeepOtherIds(ProductId, removed), ProductId, id);
  }

  /** One line after a catalog deletion: 0 if its product was deleted, unchanged otherwise. */
  lemma DeleteProductLine(products: seq<Product>, removed: string, item: OrderItem)
    requires forall p :: p in products ==> p.price >= 0
    requires item.quantity >= 0
    ensures LineValue(RemoveById(products, ProductId, removed), item) <= LineValue(products, item)
    ensures item.productId != removed ==> LineValue(RemoveById(products, ProductId, removed), item) == LineValue(products, item)
  {
    if item.productId == removed {
      DeletedProductLine(products, removed, item);
      LineValueNonNegative(products, item);
    } else {
      FindAfterRemove(products, removed, item.productId);
    }
  }

  /** A line whose product was deleted is worth 0. */
  lemma DeletedProductLine(products: seq<Product>, removed: string, item: OrderItem)
    requires item.productId == removed
    ensures LineValue(RemoveById(products, ProductId, removed), item) == 0
  {
    var rest := RemoveById(products, ProductId, removed);
    RemovedIdsGone(products, ProductId, removed);
    UnknownProductLineIsZero(rest, item);
  }

  /** With non-negative prices and quantity, a line is worth at least 0. */
  lemma LineValueNonNegative(products: seq<Product>, item: OrderItem)
    requires forall p :: p in products ==> p.price >= 0
    requires item.quantity >= 0
    ensures LineValue(products, item) >= 0
  {
    var found := FindById(products, ProductId, item.productId);
    if found.Some? {
      assert found.value.price >= 0;
    }
  }

  /**
   * Deleting a product from the catalog never raises an order's total
   * (prices and quantities being non-negative): its lines drop to 0 and
   * every other line keeps its value.
   */
  lemma {:induction false} DeleteProductLowersTotal(products: seq<Product>, removed: string, items: seq<OrderItem>)
    requires forall p :: p in products ==> p.price >= 0
    requires forall it :: it in items ==> it.quantity >= 0
    ensures ItemsTotal(RemoveById(products, ProductId, removed), items) <= ItemsTotal(products, items)
    ensures (forall it :: it in items ==> it.productId != removed) ==>
              ItemsTotal(RemoveById(products, ProductId, removed), items) == ItemsTotal(products, items)
    decreases |items|
  {
    if |items| > 0 {
      var init, last := items[..|items| - 1], items[|items| - 1];
      assert forall it :: it in init ==> it in items;
      DeleteProductLowersTotal(products, removed, init);
      DeleteProductLine(products, removed, last);
    }
  }

  // ---------------------------------------------------------------------
  // Filter
  // ---------------------------------------------------------------------

  /** The filter form: `''` dates are `None`; `"all"` disables the client or product filter. */
  datatype Filters = Filters(startDate: Option<int>, endDate: Option<int>, clientId: string, productId: string)

  const All: string := "all"

  /** The unset filters the view starts with. */
  const NoFilters: Filters := Filters(None, None, All, All)

  const MsPerDay: int := 86400000

  /** `new Date(day + 'T00:00:00')`. */
  function DayStart(day: int): int { day * MsPerDay }

  /** `new Date(day + 'T23:59:59')`. */
  function DayEnd(day: int): int { day * MsPerDay + 86399000 }

  predicate InWindow(f: Filters, due: int)
  {
    (f.startDate.Some? ==> DayStart(f.startDate.value) <= due)
    && (f.endDate.Some? ==> due <= DayEnd(f.endDate.value))
  }

  predicate ClientMatches(f: Filters, o: WorkOrder)
  {
    f.clientId == All || o.clientId == f.clientId
  }

  /** `order.items.some(item => item.productId === productId)`. */
  predicate HasProduct(items: seq<OrderItem>, productId: string)
  {
    exists i :: 0 <= i < |items| && items[i].productId == productId
  }

  predicate ProductMatches(f: Filters, o: WorkOrder)
  {
    f.productId == All || HasProduct(o.items, f.productId)
  }

  /** The filter callback, with its early returns in source order. */
  predicate Passes(f: Filters, o: WorkOrder)
    ensures Passes(f, o) <==> InWindow(f, o.dueDate) && ClientMatches(f, o) && ProductMatches(f, o)
  {
    if f.startDate.Some? && o.dueDate < DayStart(f.startDate.value) then false
    else if f.endDate.Some? && o.dueDate > DayEnd(f.endDate.value) then false
    else if f.clientId != All && o.clientId != f.clientId then false
    else if f.productId != All && !HasProduct(o.items, f.productId) then false
    else true
  }

  /** `filteredOrders`: the orders passing the filter, in their original order. */
  function FilteredOrders(orders: seq<WorkOrder>, f: Filters): (r: seq<WorkOrder>)
    ensures IsSubsequence(r, orders)
    ensures forall o :: o in r <==> o in orders && Passes(f, o)
    ensures forall o :: Passes(f, o) ==> multiset(r)[o] == multiset(orders)[o]
  {
    var r := Filter(orders, o => Passes(f, o));
    assert forall o :: multiset(r)[o] == if Passes(f, o) then multiset(orders)[o] else 0;
    r
  }

  /** With every filter unset the list comes back whole. */
  lemma UnsetFiltersKeepAll(orders: seq<WorkOrder>)
    ensures FilteredOrders(orders, NoFilters) == orders
  {
    FilterKeepsAll(orders, o => Passes(NoFilters, o));
  }

  // ---------------------------------------------------------------------
  // KPIs
  // ---------------------------------------------------------------------

  predicate IsDelivered(o: WorkOrder) { o.status == Entregado }

  predicate NotDelivered(o: WorkOrder) { o.status != Entregado }

  /** Sum of the totals of the orders whose delivered-ness is `delivered`. */
  function Revenue(products: seq<Product>, orders: seq<WorkOrder>, delivered: bool): int
    decreases |orders|
  {
    if |orders| == 0 then 0
    else
      var last := orders[|orders| - 1];
      Revenue(products, orders[..|orders| - 1], delivered)
      + (if IsDelivered(last) == delivered then CalculateOrderTotal(products, last) else 0)
  }

  /** Number of orders whose delivered-ness is `delivered`. */
  function CountOrders(orders: seq<WorkOrder>, delivered: bool): nat
    decreases |orders|
  {
    if |orders| == 0 then 0
    else CountOrders(orders[..|orders| - 1], delivered) + (if IsDelivered(orders[|orders| - 1]) == delivered then 1 else 0)
  }

  /** Sum of the totals of all orders. */
  function SumOfTotals(products: seq<Product>, orders: seq<WorkOrder>): int
    decreases |orders|
  {
    if |orders| == 0 then 0
    else SumOfTotals(products, orders[..|orders| - 1]) + CalculateOrderTotal(products, orders[|orders| - 1])
  }

  datatype KPIs = KPIs(totalRevenue: int, projectedRevenue: int, completedOrders: int, pendingOrders: int)

  /**
   * `financialKPIs`: one pass over the filtered orders adding each total
   * to realized revenue (Entregado) or projected revenue (the rest), and
   * counting each order as completed or pending.
   */
  method FinancialKPIs(products: seq<Product>, filtered: seq<WorkOrder>) returns (k: KPIs)
    ensures k.totalRevenue == Revenue(products, filtered, true)
    ensures k.projectedRevenue == Revenue(products, filtered, false)
    ensures k.completedOrders == CountOrders(filtered, true)
    ensures k.pendingOrders == CountOrders(filtered, false)
  {
    k := KPIs(0, 0, 0, 0);
    for i := 0 to |filtered|
      invariant k.totalRevenue == Revenue(products, filtered[..i], true)
      invariant k.projectedRevenue == Revenue(products, filtered[..i], false)
      invariant k.completedOrders == CountOrders(filtered[..i], true)
      invariant k.pendingOrders == CountOrders(filtered[..i], false)
    {
      var order := filtered[i];
      assert filtered[..i + 1][..i] == filtered[..i];
      var orderValue := CalculateOrderTotal(products, order);
      if order.status == Entregado {
        k := k.(totalRevenue := k.totalRevenue + orderValue, completedOrders := k.completedOrders + 1);
      } else {
        k := k.(projectedRevenue := k.projectedRevenue + orderValue, pendingOrders := k.pendingOrders + 1);
      }
    }
    assert filtered[..|filtered|] == filtered;
  }

  /** Realized plus projected revenue is the total of all the filtered orders. */
  lemma {:induction false} RevenuePartition(products: seq<Product>, orders: seq<WorkOrder>)
    ensures Revenue(products, orders, true) + Revenue(products, orders, false) == SumOfTotals(products, orders)
    decreases |orders|
  {
    if |orders| > 0 {
      RevenuePartition(products, orders[..|orders| - 1]);
    }
  }

  /** Completed plus pending orders is the number of filtered orders. */
  lemma {:induction false} CountPartition(orders: seq<WorkOrder>)
    ensures CountOrders(orders, true) + CountOrders(orders, false) == |orders|
    decreases |orders|
  {
    if |orders| > 0 {
      CountPartition(orders[..|orders| - 1]);
    }
  }

  /** Realized revenue is the total of the Entregado orders and of nothing else. */
  lemma {:induction false} RevenueIsDeliveredTotal(products: seq<Product>, orders: seq<WorkOrder>)
    ensures Revenue(products, orders, true) == SumOfTotals(products, Filter(orders, IsDelivered))
    ensures Revenue(products, orders, false) == SumOfTotals(products, Filter(orders, NotDelivered))
    decreases |orders|
  {
    if |orders| > 0 {
      var init, last := orders[..|orders| - 1], orders[|orders| - 1];
      RevenueIsDeliveredTotal(products, init);
      FilterLast(orders, IsDelivered);
      FilterLast(orders, NotDelivered);
      SumOfTotalsSnoc(products, Filter(init, IsDelivered), last);
      SumOfTotalsSnoc(products, Filter(init, NotDelivered), last);
    }
  }

  /** The total of a sequence with one more order at the end. */
  lemma SumOfTotalsSnoc(products: seq<Product>, orders: seq<WorkOrder>, o: WorkOrder)
    ensures SumOfTotals(products, orders + [o]) == SumOfTotals(products, orders) + CalculateOrderTotal(products, o)
  {
    assert (orders + [o])[..|orders|] == orders;
  }

  // ---------------------------------------------------------------------
  // Monthly revenue
  // ---------------------------------------------------------------------

  /** A `YYYY-MM` bucket key as the pair it encodes. */
  datatype MonthKey = MonthKey(year: int, month: int)

  /** `keyA.localeCompare(keyB) < 0` on `YYYY-MM` keys with four-digit years. */
  predicate KeyBefore(a: MonthKey, b: MonthKey)
  {
    a.year < b.year || (a.year == b.year && a.month < b.month)
  }

  /** One bar of the chart: `{ label, value }`. */
  datatype MonthPoint = MonthPoint(key: MonthKey, value: int)

  /** The months in which some Entregado order is due. */
  function DeliveredMonths(orders: seq<WorkOrder>, monthOf: int -> MonthKey): set<MonthKey>
    decreases |orders|
  {
    if |orders| == 0 then {}
    else
      var last := orders[|orders| - 1];
      DeliveredMonths(orders[..|orders| - 1], monthOf) + (if IsDelivered(last) then {monthOf(last.dueDate)} else {})
  }

  /** The revenue of month `key`: total of the Entregado orders due in it. */
  function Bucket(products: seq<Product>, orders: seq<WorkOrder>, monthOf: int -> MonthKey, key: MonthKey): int
    decreases |orders|
  {
    if |orders| == 0 then 0
    else
      var last := orders[|orders| - 1];
      Bucket(products, orders[..|orders| - 1], monthOf, key)
      + (if IsDelivered(last) && monthOf(last.dueDate) == key then CalculateOrderTotal(products, last) else 0)
  }

  /** The chart data is strictly ascending by key, so no key appears twice. */
  predicate StrictlyAscending(data: seq<MonthPoint>)
  {
    forall i, j :: 0 <= i < j < |data| ==> KeyBefore(data[i].key, data[j].key)
  }

  function SumValues(data: seq<MonthPoint>): int
    decreases |data|
  {
    if |data| == 0 then 0 else data[0].value + SumValues(data[1..])
  }

  /** The smallest key of a non-empty set of keys. */
  method Earliest(keys: set<MonthKey>) returns (m: MonthKey)
    requires keys != {}
    ensures m in keys
    ensures forall k :: k in keys && k != m ==> KeyBefore(m, k)
  {
    m :| m in keys;
    var rest := keys - {m};
    while rest != {}
      invariant rest <= keys && m in keys && m !in rest
      invariant forall k :: k in keys && k !in rest && k != m ==> KeyBefore(m, k)
      decreases rest
    {
      var k :| k in rest;
      if KeyBefore(k, m) {
        m := k;
      }
      rest := rest - {k};
    }
  }

  /**
   * The first half of `monthlyRevenueData`: adds the total of each
   * Entregado order to the entry of its month, creating the entry at 0
   * when it is missing (or 0).  The entries are exactly the delivered
   * months, each holding that month's revenue.
   */
  method GroupByMonth(products: seq<Product>, filtered: seq<WorkOrder>, monthOf: int -> MonthKey)
    returns (monthlyData: map<MonthKey, int>)
    ensures monthlyData.Keys == DeliveredMonths(filtered, monthOf)
    ensures forall k :: k in monthlyData ==> monthlyData[k] == Bucket(products, filtered, monthOf, k)
  {
    monthlyData := map[];
    for i := 0 to |filtered|
      invariant monthlyData.Keys == DeliveredMonths(filtered[..i], monthOf)
      invariant forall k :: k in monthlyData ==> monthlyData[k] == Bucket(products, filtered[..i], monthOf, k)
    {
      var order := filtered[i];
      assert filtered[..i + 1][..i] == filtered[..i];
      BucketOutsideMonths(products, filtered[..i], monthOf, monthOf(order.dueDate));
      if order.status == Entregado {
        var monthKey := monthOf(order.dueDate);
        var value := CalculateOrderTotal(products, order);
        if monthKey !in monthlyData || monthlyData[monthKey] == 0 {
          monthlyData := monthlyData[monthKey := 0];
        }
        monthlyData := monthlyData[monthKey := monthlyData[monthKey] + value];
      }
    }
    assert filtered[..|filtered|] == filtered;
  }

  /**
   * The second half of `monthlyRevenueData`: the entries of the
   * dictionary, each key once, in strictly ascending key order.
   */
  method SortedEntries(monthlyData: map<MonthKey, int>) returns (data: seq<MonthPoint>)
    ensures StrictlyAscending(data)
    ensures forall i :: 0 <= i < |data| ==> data[i].key in monthlyData && data[i].value == monthlyData[data[i].key]
    ensures forall k :: k in monthlyData ==> exists i :: 0 <= i < |data| && data[i].key == k
  {
    var remaining := monthlyData.Keys;
    data := [];
    while remaining != {}
      invariant remaining <= monthlyData.Keys
      invariant forall i :: 0 <= i < |data| ==> data[i].key in monthlyData && data[i].key !in remaining
      invariant forall k :: k in monthlyData && k !in remaining ==> exists i :: 0 <= i < |data| && data[i].key == k
      invariant forall i :: 0 <= i < |data| ==> data[i].value == monthlyData[data[i].key]
      invariant StrictlyAscending(data)
      invariant forall i, k :: 0 <= i < |data| && k in remaining ==> KeyBefore(data[i].key, k)
      decreases remaining
    {
      var key := Earliest(remaining);
      AppendEarliest(data, MonthPoint(key, monthlyData[key]), remaining);
      AppendCovers(data, MonthPoint(key, monthlyData[key]), monthlyData.Keys, remaining);
      data := data + [MonthPoint(key, monthlyData[key])];
      remaining := remaining - {key};
    }
  }

  /** Appending the earliest remaining key keeps the bars ascending and ahead of what remains. */
  lemma AppendEarliest(data: seq<MonthPoint>, point: MonthPoint, remaining: set<MonthKey>)
    requires StrictlyAscending(data)
    requires forall i, k :: 0 <= i < |data| && k in remaining ==> KeyBefore(data[i].key, k)
    requires point.key in remaining && forall k :: k in remaining && k != point.key ==> KeyBefore(point.key, k)
    ensures StrictlyAscending(data + [point])
    ensures forall i, k :: 0 <= i < |data| + 1 && k in remaining - {point.key} ==> KeyBefore((data + [point])[i].key, k)
  {
    var next := data + [point];
    forall i, j | 0 <= i < j < |next| ensures KeyBefore(next[i].key, next[j].key) {
      if j == |data| {
        assert next[i] == data[i];
      } else {
        assert next[i] == data[i] && next[j] == data[j];
      }
    }
    forall i, k | 0 <= i < |next| && k in remaining - {point.key} ensures KeyBefore(next[i].key, k) {
      if i < |data| {
        assert next[i] == data[i];
      }
    }
  }

  /** Appending a key moves it from the remaining keys to the listed ones. */
  lemma AppendCovers(data: seq<MonthPoint>, point: MonthPoint, keys: set<MonthKey>, remaining: set<MonthKey>)
    requires forall k :: k in keys && k !in remaining ==> exists i :: 0 <= i < |data| && data[i].key == k
    ensures forall k :: k in keys && k !in remaining - {point.key} ==> exists i :: 0 <= i < |data| + 1 && (data + [point])[i].key == k
  {
    var next := data + [point];
    forall k | k in keys && k !in remaining - {point.key} ensures exists i :: 0 <= i < |next| && next[i].key == k {
      if k == point.key {
        assert next[|data|].key == k;
      } else {
        var i :| 0 <= i < |data| && data[i].key == k;
        assert next[i].key == k;
      }
    }
  }

  /**
   * `monthlyRevenueData`: one bar per month with Entregado orders, holding
   * that month's revenue, in strictly ascending month order; the bars add
   * up to the realized revenue.
   */
  method MonthlyRevenueData(products: seq<Product>, filtered: seq<WorkOrder>, monthOf: int -> MonthKey)
    returns (data: seq<MonthPoint>)
    ensures StrictlyAscending(data)
    ensures forall i :: 0 <= i < |data| ==> data[i].key in DeliveredMonths(filtered, monthOf)
    ensures forall k :: k in DeliveredMonths(filtered, monthOf) ==> exists i :: 0 <= i < |data| && data[i].key == k
    ensures forall i :: 0 <= i < |data| ==> data[i].value == Bucket(products, filtered, monthOf, data[i].key)
    ensures SumValues(data) == Revenue(products, filtered, true)
  {
    var monthlyData := GroupByMonth(products, filtered, monthOf);
    data := SortedEntries(monthlyData);
    MonthlySumIsRevenue(products, filtered, monthOf, data);
  }

  /** A month with no Entregado order has an empty bucket. */
  lemma {:induction false} BucketOutsideMonths(products: seq<Product>, orders: seq<WorkOrder>, monthOf: int -> MonthKey, key: MonthKey)
    ensures key !in DeliveredMonths(orders, monthOf) ==> Bucket(products, orders, monthOf, key) == 0
    decreases |orders|
  {
    if |orders| > 0 {
      BucketOutsideMonths(products, orders[..|orders| - 1], monthOf, key);
    }
  }

  /** The sum of the buckets named by `keys`. */
  function SumBuckets(products: seq<Product>, orders: seq<WorkOrder>, monthOf: int -> MonthKey, keys: seq<MonthKey>): int
    decreases |keys|
  {
    if |keys| == 0 then 0 else Bucket(products, orders, monthOf, keys[0]) + SumBuckets(products, orders, monthOf, keys[1..])
  }

  predicate Distinct(keys: seq<MonthKey>)
  {
    forall i, j :: 0 <= i < j < |keys| ==> keys[i] != keys[j]
  }

  /** Adding one order to the list adds its total to the buckets exactly once, if its month is listed. */
  lemma {:induction false} SumBucketsStep(products: seq<Product>, orders: seq<WorkOrder>, o: WorkOrder, monthOf: int -> MonthKey, keys: seq<MonthKey>)
    requires Distinct(keys)
    ensures SumBuckets(products, orders + [o], monthOf, keys)
         == SumBuckets(products, orders, monthOf, keys)
            + (if IsDelivered(o) && monthOf(o.dueDate) in keys then CalculateOrderTotal(products, o) else 0)
    decreases |keys|
  {
    if |keys| > 0 {
      assert (orders + [o])[..|orders|] == orders;
      assert Distinct(keys[1..]) by {
        forall i, j | 0 <= i < j < |keys[1..]| ensures keys[1..][i] != keys[1..][j] {
          assert keys[1..][i] == keys[i + 1] && keys[1..][j] == keys[j + 1];
        }
      }
      SumBucketsStep(products, orders, o, monthOf, keys[1..]);
      assert keys == [keys[0]] + keys[1..];
      forall j | 0 <= j < |keys[1..]| ensures keys[1..][j] != keys[0] {
        assert keys[1..][j] == keys[j + 1];
      }
    }
  }

  /** Summing the buckets of distinct keys covering every delivered month gives the realized revenue. */
  lemma {:induction false} BucketsCoverRevenue(products: seq<Product>, orders: seq<WorkOrder>, monthOf: int -> MonthKey, keys: seq<MonthKey>)
    requires Distinct(keys)
    requires forall k :: k in DeliveredMonths(orders, monthOf) ==> k in keys
    ensures SumBuckets(products, orders, monthOf, keys) == Revenue(products, orders, true)
    decreases |orders|
  {
    if |orders| == 0 {
      ZeroBuckets(products, orders, monthOf, keys);
    } else {
      var init, last := orders[..|orders| - 1], orders[|orders| - 1];
      assert orders == init + [last];
      BucketsCoverRevenue(products, init, monthOf, keys);
      SumBucketsStep(products, init, last, monthOf, keys);
    }
  }

  lemma {:induction false} ZeroBuckets(products: seq<Product>, orders: seq<WorkOrder>, monthOf: int -> MonthKey, keys: seq<MonthKey>)
    requires orders == []
    ensures SumBuckets(products, orders, monthOf, keys) == 0
    decreases |keys|
  {
    if |keys| > 0 {
      ZeroBuckets(products, orders, monthOf, keys[1..]);
    }
  }

  function KeyList(data: seq<MonthPoint>): (keys: seq<MonthKey>)
    ensures |keys| == |data| && forall i :: 0 <= i < |data| ==> keys[i] == data[i].key
    decreases |data|
  {
    if |data| == 0 then [] else [data[0].key] + KeyList(data[1..])
  }

  /** Bars whose values are the buckets of their keys add up to the sum of those buckets. */
  lemma {:induction false} SumValuesIsSumBuckets(products: seq<Product>, orders: seq<WorkOrder>, monthOf: int -> MonthKey, data: seq<MonthPoint>)
    requires forall i :: 0 <= i < |data| ==> data[i].value == Bucket(products, orders, monthOf, data[i].key)
    ensures SumValues(data) == SumBuckets(products, orders, monthOf, KeyList(data))
    decreases |data|
  {
    if |data| > 0 {
      SumValuesIsSumBuckets(products, orders, monthOf, data[1..]);
      assert KeyList(data)[1..] == KeyList(data[1..]);
    }
  }

  /**
   * Chart data that is strictly ascending, lists every delivered month and
   * holds each month's bucket adds up to the realized revenue.
   */
  lemma MonthlySumIsRevenue(products: seq<Product>, orders: seq<WorkOrder>, monthOf: int -> MonthKey, data: seq<MonthPoint>)
    requires StrictlyAscending(data)
    requires forall k :: k in DeliveredMonths(orders, monthOf) ==> exists i :: 0 <= i < |data| && data[i].key == k
    requires forall i :: 0 <= i < |data| ==> data[i].value == Bucket(products, orders, monthOf, data[i].key)
    ensures SumValues(data) == Revenue(products, orders, true)
  {
    var keys := KeyList(data);
    assert Distinct(keys) by {
      forall i, j | 0 <= i < j < |keys| ensures keys[i] != keys[j] {
        assert KeyBefore(data[i].key, data[j].key);
      }
    }
    forall k | k in DeliveredMonths(orders, monthOf) ensures k in keys {
      var i :| 0 <= i < |data| && data[i].key == k;
      assert keys[i] == k;
    }
    SumValuesIsSumBuckets(products, orders, monthOf, data);
    BucketsCoverRevenue(products, orders, monthOf, keys);
  }

  /**
   * The worked example: an Entregado order due in March 2024 with two
   * units of a product priced 100.00 adds 200.00 to the 2024-03 bucket and
   * nothing to projected revenue.
   */
  lemma DeliveredOrderExample(monthOf: int -> MonthKey, product: Product, order: WorkOrder)
    requires product.price == 10000
    requires order.status == Entregado && order.items == [OrderItem(product.id, 2)]
    requires monthOf(order.dueDate) == MonthKey(2024, 3)
    ensures Bucket([product], [order], monthOf, MonthKey(2024, 3)) == 20000
    ensures Revenue([product], [order], false) == 0
  {
    KnownProductLine([product], order.items[0], 0);
    assert order.items[..0] == [];
    assert LineValue([product], order.items[0]) == 20000;
    assert ItemsTotal([product], order.items) == ItemsTotal([product], []) + LineValue([product], order.items[0]);
    assert CalculateOrderTotal([product], order) == 20000;
    assert [order][..0] == [];
  }
}
