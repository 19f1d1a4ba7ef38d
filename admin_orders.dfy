/**
 * The order list of the admin dashboard, src/pages/dashboard/Orders.jsx: the order total,
 * the status change and the delete as list updates, and the status, customer-name and
 * time-window filters followed by the newest-first sort. Dates are integer milliseconds
 * and the current time `now` is a parameter.
 */
module AdminOrders {
  import opened Wrappers
  import opened Text
  import Seqs

  /** A product line of a stored order. */
  datatype OrderItem = OrderItem(name: string, price: int, quantity: int)

  /** An order as the API returns it; `products` may be missing. */
  datatype Order = Order(
    id: int, customerName: Option<string>, status: string, date: int,
    products: Option<seq<OrderItem>>)

  /** `items.reduce((sum, p) => sum + p.price * p.quantity, 0)`, folded from the left. */
  function ItemsTotal(items: seq<OrderItem>): int {
    if |items| == 0 then 0
    else ItemsTotal(items[..|items| - 1]) + items[|items| - 1].price * items[|items| - 1].quantity
  }

  /** The total of the items in two parts is the sum of the parts' totals. */
  lemma {:induction false} ItemsTotalConcat(a: seq<OrderItem>, b: seq<OrderItem>)
    ensures ItemsTotal(a + b) == ItemsTotal(a) + ItemsTotal(b)
  {
    if |b| > 0 {
      var last := b[|b| - 1];
      assert a + b == (a + b[..|b| - 1]) + [last];
      ItemsTotalConcat(a, b[..|b| - 1]);
    } else {
      assert a + b == a;
    }
  }

  /** With non-negative prices and quantities a total is never negative. */
  lemma {:induction false} ItemsTotalNonNegative(items: seq<OrderItem>)
    requires forall i :: 0 <= i < |items| ==> items[i].price >= 0 && items[i].quantity >= 0
    ensures ItemsTotal(items) >= 0
  {
    if |items| > 0 {
      ItemsTotalNonNegative(items[..|items| - 1]);
    }
  }

  /** `calculateOrderTotal(order)`: 0 when the order has no product list. */
  function OrderTotal(o: Order): (r: int)
    ensures o.products.None? ==> r == 0
    ensures o.products.Some? && |o.products.value| == 0 ==> r == 0
    ensures o.products.Some? && |o.products.value| == 1 ==>
      r == o.products.value[0].price * o.products.value[0].quantity
  {
    if o.products.None? then 0
    else
      var items := o.products.value;
      assert |items| == 1 ==> items[..0] == [] && ItemsTotal(items[..0]) == 0;
      ItemsTotal(items)
  }

  /** Adding a product line raises the order total by that line's price times quantity. */
  lemma OrderTotalAppend(o: Order, item: OrderItem)
    requires o.products.Some?
    ensures OrderTotal(o.(products := Some(o.products.value + [item])))
         == OrderTotal(o) + item.price * item.quantity
  {
    ItemsTotalConcat(o.products.value, [item]);
    assert ItemsTotal([item]) == item.price * item.quantity;
  }

  /** `changeStatus`: `prev.map(o => o.id === id ? { ...o, status: newStatus } : o)`. */
  function ChangeStatus(orders: seq<Order>, id: int, newStatus: string): (r: seq<Order>)
    ensures |r| == |orders|
    ensures forall i :: 0 <= i < |r| && orders[i].id == id ==> r[i] == orders[i].(status := newStatus)
    ensures forall i :: 0 <= i < |r| && orders[i].id != id ==> r[i] == orders[i]
  {
    if |orders| == 0 then []
    else
      [if orders[0].id == id then orders[0].(status := newStatus) else orders[0]]
      + ChangeStatus(orders[1..], id, newStatus)
  }

  /** A second status change of the same order overrides the first. */
  lemma ChangeStatusTwice(orders: seq<Order>, id: int, s: string, t: string)
    ensures ChangeStatus(ChangeStatus(orders, id, s), id, t) == ChangeStatus(orders, id, t)
  {
    var a := ChangeStatus(ChangeStatus(orders, id, s), id, t);
    var b := ChangeStatus(orders, id, t);
    forall i | 0 <= i < |orders|
      ensures a[i] == b[i]
    {
    }
  }

  /** A status change touches nothing but statuses: totals, dates and customers stay. */
  lemma ChangeStatusKeepsTotals(orders: seq<Order>, id: int, newStatus: string, i: int)
    requires 0 <= i < |orders|
    ensures var o := ChangeStatus(orders, id, newStatus)[i];
      o.id == orders[i].id && o.date == orders[i].date && o.customerName == orders[i].customerName
      && OrderTotal(o) == OrderTotal(orders[i])
  {
  }

  /** The order a pending delete keeps: `o.id !== deleteOrderId`; a `null` id matches no order. */
  predicate Kept(o: Order, pending: Option<int>) {
    pending.None? || o.id != pending.value
  }

  /** `deleteOrder`: `prev.filter(o => o.id !== deleteOrderId)`. */
  function DeleteOrder(orders: seq<Order>, pending: Option<int>): (r: seq<Order>)
    ensures pending.Some? ==> forall i :: 0 <= i < |r| ==> r[i].id != pending.value
    ensures forall o :: multiset(r)[o] == if Kept(o, pending) then multiset(orders)[o] else 0
  {
    Seqs.Filter(orders, (o: Order) => Kept(o, pending))
  }

  /**
   * A delete keeps the other orders in their order, a second delete changes nothing, and
   * a status change just before the delete of the same order makes no difference.
   */
  lemma DeleteOrderProperties(a: seq<Order>, b: seq<Order>, id: int, newStatus: string)
    ensures DeleteOrder(a + b, Some(id)) == DeleteOrder(a, Some(id)) + DeleteOrder(b, Some(id))
    ensures DeleteOrder(DeleteOrder(a, Some(id)), Some(id)) == DeleteOrder(a, Some(id))
    ensures DeleteOrder(ChangeStatus(a, id, newStatus), Some(id)) == DeleteOrder(a, Some(id))
  {
    var keep := (o: Order) => Kept(o, Some(id));
    Seqs.FilterConcat(a, b, keep);
    Seqs.FilterAllPass(DeleteOrder(a, Some(id)), keep);
    DeleteAfterChange(a, id, newStatus);
  }

  lemma {:induction false} DeleteAfterChange(a: seq<Order>, id: int, newStatus: string)
    ensures DeleteOrder(ChangeStatus(a, id, newStatus), Some(id)) == DeleteOrder(a, Some(id))
  {
    if |a| > 0 {
      DeleteAfterChange(a[1..], id, newStatus);
      var c := ChangeStatus(a, id, newStatus);
      assert c[1..] == ChangeStatus(a[1..], id, newStatus);
    }
  }

  /** A null pending id deletes nothing. */
  lemma DeleteNothingPending(orders: seq<Order>)
    ensures DeleteOrder(orders, None) == orders
  {
    Seqs.FilterAllPass(orders, (o: Order) => Kept(o, None));
  }

  /** Milliseconds in a day: `24 * 60 * 60 * 1000`. */
  const Day: int := 24 * 60 * 60 * 1000

  /** The status select: an empty choice keeps every order. */
  predicate StatusPasses(o: Order, statusFilter: string) {
    statusFilter == "" || o.status == statusFilter
  }

  /**
   * The name search: a blank search keeps every order, otherwise the lower-cased customer
   * name must contain the lower-cased (untrimmed) search; an order without a name fails.
   */
  predicate NamePasses(o: Order, searchName: string) {
    IsBlank(searchName)
    || (o.customerName.Some? && Contains(ToLower(o.customerName.value), ToLower(searchName)))
  }

  /** The time window: at most a day, a week or 30 days old; any other range keeps all. */
  predicate InRange(o: Order, sortRange: string, now: int) {
    var diff := now - o.date;
    if sortRange == "day" then diff <= Day
    else if sortRange == "week" then diff <= 7 * Day
    else if sortRange == "month" then diff <= 30 * Day
    else true
  }

  predicate PassesAll(o: Order, statusFilter: string, searchName: string, sortRange: string, now: int) {
    StatusPasses(o, statusFilter) && NamePasses(o, searchName) && InRange(o, sortRange, now)
  }

  /** The comparator `(a, b) => new Date(b.date) - new Date(a.date)` as "may stay before". */
  function NewestFirst(): (Order, Order) -> bool {
    (a: Order, b: Order) => b.date <= a.date
  }

  /** `filteredOrders`: the three filters in turn, then the newest-first sort. */
  function FilteredOrders(orders: seq<Order>, statusFilter: string, searchName: string, sortRange: string, now: int): (r: seq<Order>)
    ensures |r| <= |orders|
  {
    var byStatus := Seqs.Filter(orders, (o: Order) => StatusPasses(o, statusFilter));
    var byName := Seqs.Filter(byStatus, (o: Order) => NamePasses(o, searchName));
    var byRange := Seqs.Filter(byName, (o: Order) => InRange(o, sortRange, now));
    Seqs.SortBy(byRange, NewestFirst())
  }

  /** The list holds exactly the orders passing every filter, as often as the input does. */
  lemma FilteredOrdersExact(orders: seq<Order>, statusFilter: string, searchName: string, sortRange: string, now: int)
    ensures var r := FilteredOrders(orders, statusFilter, searchName, sortRange, now);
      forall o :: multiset(r)[o] == if PassesAll(o, statusFilter, searchName, sortRange, now) then multiset(orders)[o] else 0
  {
  }

  /** Every listed order passes every filter. */
  lemma FilteredOrdersPass(orders: seq<Order>, statusFilter: string, searchName: string, sortRange: string, now: int)
    ensures var r := FilteredOrders(orders, statusFilter, searchName, sortRange, now);
      forall i :: 0 <= i < |r| ==> PassesAll(r[i], statusFilter, searchName, sortRange, now)
  {
    var r := FilteredOrders(orders, statusFilter, searchName, sortRange, now);
    FilteredOrdersExact(orders, statusFilter, searchName, sortRange, now);
    forall i | 0 <= i < |r|
      ensures PassesAll(r[i], statusFilter, searchName, sortRange, now)
    {
      assert r[i] in multiset(r);
    }
  }

  /** The newest-first comparator is a total preorder. */
  lemma NewestFirstPreorder()
    ensures Seqs.TotalPreorder(NewestFirst())
  {
  }

  /** The list is sorted by date, newest first. */
  lemma FilteredOrdersNewestFirst(orders: seq<Order>, statusFilter: string, searchName: string, sortRange: string, now: int)
    ensures var r := FilteredOrders(orders, statusFilter, searchName, sortRange, now);
      forall i, j :: 0 <= i < j < |r| ==> r[i].date >= r[j].date
  {
    var byStatus := Seqs.Filter(orders, (o: Order) => StatusPasses(o, statusFilter));
    var byName := Seqs.Filter(byStatus, (o: Order) => NamePasses(o, searchName));
    var byRange := Seqs.Filter(byName, (o: Order) => InRange(o, sortRange, now));
    NewestFirstPreorder();
    Seqs.SortBySorted(byRange, NewestFirst());
  }

  /** With no status, a blank search and the "all" range every order is listed. */
  lemma NoFilterListsAll(orders: seq<Order>, searchName: string, now: int)
    requires IsBlank(searchName)
    ensures multiset(FilteredOrders(orders, "", searchName, "all", now)) == multiset(orders)
  {
    FilteredOrdersExact(orders, "", searchName, "all", now);
  }

  /** A wider time window never lists fewer orders: day, then week, then month, then all. */
  lemma WindowsNest(orders: seq<Order>, statusFilter: string, searchName: string, now: int)
    ensures |FilteredOrders(orders, statusFilter, searchName, "day", now)|
         <= |FilteredOrders(orders, statusFilter, searchName, "week", now)|
         <= |FilteredOrders(orders, statusFilter, searchName, "month", now)|
         <= |FilteredOrders(orders, statusFilter, searchName, "all", now)|
  {
    var byStatus := Seqs.Filter(orders, (o: Order) => StatusPasses(o, statusFilter));
    var byName := Seqs.Filter(byStatus, (o: Order) => NamePasses(o, searchName));
    Seqs.FilterMono(byName, (o: Order) => InRange(o, "day", now), (o: Order) => InRange(o, "week", now));
    Seqs.FilterMono(byName, (o: Order) => InRange(o, "week", now), (o: Order) => InRange(o, "month", now));
    Seqs.FilterMono(byName, (o: Order) => InRange(o, "month", now), (o: Order) => InRange(o, "all", now));
  }
}
