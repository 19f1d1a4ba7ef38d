/**
 * The counters of the admin dashboard's overview, src/pages/Dashboard.jsx: delivered
 * orders overall and this month, and the five latest orders, taken after the orders list
 * is sorted in place. The month of a date (`new Date(d).getMonth() + 1`) is the parameter
 * `monthOf`, the current month the parameter `currentMonth`.
 */
module Dashboard {
  import Seqs
  import opened AdminOrders

  predicate Delivered(o: Order) {
    o.status == "Delivered"
  }

  /** `totalSales`: the delivered orders, counted by a left fold. */
  function TotalSales(orders: seq<Order>): (n: nat)
    ensures n <= |orders|
  {
    if |orders| == 0 then 0
    else TotalSales(orders[..|orders| - 1]) + (if Delivered(orders[|orders| - 1]) then 1 else 0)
  }

  /** `salesThisMonth`: delivered orders dated in the current month, whatever the year. */
  function SalesThisMonth(orders: seq<Order>, monthOf: int -> int, currentMonth: int): (n: nat)
    ensures n <= |orders|
  {
    if |orders| == 0 then 0
    else
      var o := orders[|orders| - 1];
      SalesThisMonth(orders[..|orders| - 1], monthOf, currentMonth)
      + (if Delivered(o) && monthOf(o.date) == currentMonth then 1 else 0)
  }

  /** The count of delivered orders is the length of the list of delivered orders. */
  lemma {:induction false} TotalSalesIsDeliveredCount(orders: seq<Order>)
    ensures TotalSales(orders) == |Seqs.Filter(orders, Delivered)|
  {
    if |orders| > 0 {
      var init, last := orders[..|orders| - 1], orders[|orders| - 1];
      TotalSalesIsDeliveredCount(init);
      var tail := Seqs.Filter([last], Delivered);
      assert Seqs.Filter(orders, Delivered) == Seqs.Filter(init, Delivered) + tail by {
        Seqs.InitLast(orders);
        Seqs.FilterConcat(init, [last], Delivered);
      }
      assert |tail| == if Delivered(last) then 1 else 0 by {
        assert [last][1..] == [];
      }
    }
  }

  /** The sales of this month never exceed the sales overall. */
  lemma {:induction false} MonthWithinTotal(orders: seq<Order>, monthOf: int -> int, currentMonth: int)
    ensures SalesThisMonth(orders, monthOf, currentMonth) <= TotalSales(orders)
  {
    if |orders| > 0 {
      MonthWithinTotal(orders[..|orders| - 1], monthOf, currentMonth);
    }
  }

  /** Reordering the orders (as the in-place sort does) leaves the sales count as it was. */
  lemma TotalSalesPermutation(a: seq<Order>, b: seq<Order>)
    requires multiset(a) == multiset(b)
    ensures TotalSales(a) == TotalSales(b)
  {
    TotalSalesIsDeliveredCount(a);
    TotalSalesIsDeliveredCount(b);
    var fa, fb := Seqs.Filter(a, Delivered), Seqs.Filter(b, Delivered);
    assert multiset(fa) == multiset(fb);
    assert |fa| == |multiset(fa)| && |fb| == |multiset(fb)|;
  }

  /** How many orders the overview lists. */
  const LatestCount: nat := 5

  /** The overview's state: the orders the API returned. */
  class Overview {
    var orders: seq<Order>

    constructor (fetched: seq<Order>)
      ensures orders == fetched
    {
      orders := fetched;
    }

    /**
     * `latestOrders`: `orders.sort(...)` reorders the state list itself, newest first,
     * and the first five of it are listed.
     */
    method LatestOrders() returns (latest: seq<Order>)
      modifies this
      ensures orders == Seqs.SortBy(old(orders), NewestFirst())
      ensures latest == Seqs.Take(orders, LatestCount)
    {
      orders := Seqs.SortBy(orders, NewestFirst());
      latest := orders[..Seqs.Min(LatestCount, |orders|)];
    }
  }

  /**
   * The latest orders are at most five, newest first, each of them an order of the list,
   * and no unlisted order is newer than the last one listed.
   */
  lemma LatestOrdersShape(orders: seq<Order>)
    ensures var sorted := Seqs.SortBy(orders, NewestFirst());
      var latest := Seqs.Take(sorted, LatestCount);
      && |latest| <= LatestCount
      && (|orders| >= LatestCount ==> |latest| == LatestCount)
      && (forall i, j :: 0 <= i < j < |latest| ==> latest[i].date >= latest[j].date)
      && (forall i :: 0 <= i < |latest| ==> latest[i] in orders)
      && (forall i, j :: 0 <= i < |latest| && |latest| <= j < |sorted| ==> sorted[j].date <= latest[i].date)
  {
    var sorted := Seqs.SortBy(orders, NewestFirst());
    NewestFirstPreorder();
    Seqs.SortBySorted(orders, NewestFirst());
    forall i | 0 <= i < |sorted|
      ensures sorted[i] in orders
    {
      assert sorted[i] in multiset(sorted);
    }
  }

  /** Sorting the already sorted state list again changes nothing, so each render agrees. */
  lemma LatestOrdersStable(orders: seq<Order>)
    ensures var sorted := Seqs.SortBy(orders, NewestFirst());
      Seqs.SortBy(sorted, NewestFirst()) == sorted
  {
    NewestFirstPreorder();
    Seqs.SortBySorted(orders, NewestFirst());
    Seqs.SortByOfSorted(Seqs.SortBy(orders, NewestFirst()), NewestFirst());
  }

  /** The in-place sort keeps both counters. */
  lemma SortKeepsCounters(orders: seq<Order>)
    ensures TotalSales(Seqs.SortBy(orders, NewestFirst())) == TotalSales(orders)
  {
    TotalSalesPermutation(Seqs.SortBy(orders, NewestFirst()), orders);
  }
}
