/**
 * The new-order badge of the admin sidebar, src/components/Sidebar.jsx. The last order id
 * the admin saw is kept in browser storage as a string; here the stored value is a field of
 * the badge, and each `getOrders()` answer is a parameter (`None` when the call fails).
 */
module Sidebar {
  import opened Wrappers
  import opened Text
  import Seqs
  import opened AdminOrders

  /** `localStorage.getItem("lastSeenOrderId") || 0`, then `parseInt`; `None` stands for `NaN`. */
  function LastSeen(stored: Option<string>): (r: Option<int>)
    ensures stored.None? || stored.value == "" ==> r == Some(0)
  {
    if stored.None? || stored.value == "" then Some(0) else ParseInt(stored.value)
  }

  /** A new order: newer than the last seen id and still pending; nothing is newer than `NaN`. */
  predicate IsNew(o: Order, lastSeen: Option<int>)
    ensures lastSeen.None? ==> !IsNew(o, lastSeen)
  {
    lastSeen.Some? && o.id > lastSeen.value && o.status == "Pending"
  }

  /** The badge count: how many fetched orders are new. */
  function NewOrdersCount(orders: seq<Order>, stored: Option<string>): (n: nat)
    ensures n <= |orders|
    ensures LastSeen(stored).None? ==> n == 0
  {
    var lastSeen := LastSeen(stored);
    var r := Seqs.Filter(orders, (o: Order) => IsNew(o, lastSeen));
    if lastSeen.None? then
      assert forall o :: multiset(r)[o] == 0;
      assert multiset(r) == multiset{};
      |r|
    else |r|
  }

  /** `Math.max(...ids)` over a non-empty list. */
  function MaxId(orders: seq<Order>): (m: int)
    requires |orders| > 0
    ensures forall i :: 0 <= i < |orders| ==> orders[i].id <= m
    ensures exists i :: 0 <= i < |orders| && orders[i].id == m
  {
    if |orders| == 1 then orders[0].id
    else
      var rest := MaxId(orders[1..]);
      if orders[0].id >= rest then orders[0].id else rest
  }

  /** The badge's state: the count shown and the stored last-seen id. */
  class Badge {
    var newOrdersCount: nat
    var lastSeenStored: Option<string>

    constructor (stored: Option<string>)
      ensures newOrdersCount == 0 && lastSeenStored == stored
    {
      newOrdersCount := 0;
      lastSeenStored := stored;
    }

    /** `checkNewOrders`: recounts only when the fetch succeeds with a non-empty list. */
    method CheckNewOrders(fetched: Option<seq<Order>>)
      modifies this
      ensures fetched.Some? && |fetched.value| > 0 ==>
        newOrdersCount == NewOrdersCount(fetched.value, lastSeenStored)
      ensures fetched.None? || |fetched.value| == 0 ==> newOrdersCount == old(newOrdersCount)
      ensures lastSeenStored == old(lastSeenStored)
    {
      if fetched.Some? && |fetched.value| > 0 {
        newOrdersCount := NewOrdersCount(fetched.value, lastSeenStored);
      }
    }

    /**
     * `handleOrdersClick`: a non-empty list stores its highest id as seen and clears the
     * count; a failed fetch clears the count only; an empty list changes nothing.
     */
    method HandleOrdersClick(fetched: Option<seq<Order>>)
      modifies this
      ensures fetched.None? ==> newOrdersCount == 0 && lastSeenStored == old(lastSeenStored)
      ensures fetched.Some? && |fetched.value| > 0 ==>
        newOrdersCount == 0 && lastSeenStored == Some(IntToString(MaxId(fetched.value)))
      ensures fetched.Some? && |fetched.value| == 0 ==>
        newOrdersCount == old(newOrdersCount) && lastSeenStored == old(lastSeenStored)
    {
      if fetched.None? {
        newOrdersCount := 0;
        return;
      }
      var list := fetched.value;
      if |list| > 0 {
        var maxId := MaxId(list);
        lastSeenStored := Some(IntToString(maxId));
        newOrdersCount := 0;
      }
    }
  }

  /** Once the highest id of a list is stored as seen, recounting that list gives 0. */
  lemma RecountAfterClick(orders: seq<Order>)
    requires |orders| > 0
    ensures NewOrdersCount(orders, Some(IntToString(MaxId(orders)))) == 0
  {
    var m := MaxId(orders);
    ParseIntToString(m);
    assert LastSeen(Some(IntToString(m))) == Some(m);
    var r := Seqs.Filter(orders, (o: Order) => IsNew(o, Some(m)));
    if |r| > 0 {
      Seqs.FilterSubset(orders, (o: Order) => IsNew(o, Some(m)), 0);
    }
  }

  /** The count never exceeds the number of pending orders. */
  lemma CountAtMostPending(orders: seq<Order>, stored: Option<string>)
    ensures NewOrdersCount(orders, stored) <= |Seqs.Filter(orders, (o: Order) => o.status == "Pending")|
  {
    var lastSeen := LastSeen(stored);
    Seqs.FilterMono(orders, (o: Order) => IsNew(o, lastSeen), (o: Order) => o.status == "Pending");
  }

  /** With nothing stored, every pending order with a positive id is new. */
  lemma NothingStoredCountsPositiveIds(orders: seq<Order>)
    ensures NewOrdersCount(orders, None) == |Seqs.Filter(orders, (o: Order) => o.id > 0 && o.status == "Pending")|
  {
    Seqs.FilterExt(orders, (o: Order) => IsNew(o, Some(0)), (o: Order) => o.id > 0 && o.status == "Pending");
  }
}
