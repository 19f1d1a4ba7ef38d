/**
 * The cart page, src/components/Cart.jsx: the totals it shows, the empty-cart condition,
 * the list handed to the checkout, and the per-line buttons, which call the cart store.
 */
module CartView {
  import opened Wrappers
  import opened CartContext

  /** A line as the checkout receives it: `{ id, name, price, quantity }`. */
  datatype CheckoutLine = CheckoutLine(id: Id, name: string, price: int, quantity: int)

  /** `handleCheckoutClick`'s `simplifiedCartItems`. */
  function Simplified(items: seq<CartLine>): (r: seq<CheckoutLine>)
    ensures |r| == |items|
    ensures forall i :: 0 <= i < |r| ==>
      r[i] == CheckoutLine(items[i].id, items[i].name, items[i].price, items[i].quantity)
  {
    seq(|items|, i requires 0 <= i < |items| => CheckoutLine(items[i].id, items[i].name, items[i].price, items[i].quantity))
  }

  /** The shipping cost: delivery is free. */
  const DeliveryCost: int := 0

  /** `grandTotal = subtotal + deliveryCost`. */
  function GrandTotal(items: seq<CartLine>): (r: int)
    ensures r == CartTotal(items)
  {
    CartTotal(items) + DeliveryCost
  }

  /** The sum over the simplified list, which is what the checkout can recompute. */
  function CheckoutTotal(lines: seq<CheckoutLine>): int {
    if |lines| == 0 then 0
    else CheckoutTotal(lines[..|lines| - 1]) + lines[|lines| - 1].price * lines[|lines| - 1].quantity
  }

  /** The hand-off keeps the money: the checkout lines add up to the grand total. */
  lemma {:induction false} HandOffKeepsTotal(items: seq<CartLine>)
    ensures CheckoutTotal(Simplified(items)) == GrandTotal(items)
  {
    if |items| > 0 {
      HandOffKeepsTotal(items[..|items| - 1]);
      assert Simplified(items)[..|items| - 1] == Simplified(items[..|items| - 1]);
    }
  }

  /** The empty-cart view: `totalItems === 0`. */
  predicate ShowsEmpty(items: seq<CartLine>) {
    TotalItems(items) == 0
  }

  /** With positive quantities the empty view shows exactly for an empty cart. */
  lemma EmptyViewIffNoLines(items: seq<CartLine>)
    requires PositiveQuantities(items)
    ensures ShowsEmpty(items) <==> items == []
  {
    TotalItemsAtLeastLines(items);
  }

  /** What `addItem` reads of a cart line passed to it as the product. */
  function AsProduct(l: CartLine): (p: ProductInput)
    ensures p.id == Some(l.id) && p.images.None? && p.image == l.image
  {
    ProductInput(Some(l.id), Some(l.name), Some(l.price), None, l.image)
  }

  /**
   * The increase button, `addItem(item, 1)`, on a line of a cart with one line per key:
   * that line gains one unit and nothing else changes. A line whose id is falsy (`0` or
   * `""`) is refused by `addItem` and stays as it is.
   */
  lemma IncreaseAddsOne(items: seq<CartLine>, i: int)
    requires UniqueKeys(items) && 0 <= i < |items|
    ensures var r := Added(items, Some(AsProduct(items[i])), 1);
      && (IsTruthy(items[i].id) ==> r == items[i := items[i].(quantity := items[i].quantity + 1)])
      && (!IsTruthy(items[i].id) ==> r == items)
  {
    var p := Some(AsProduct(items[i]));
    if IsTruthy(items[i].id) {
      assert Accepts(p);
      UniqueIndex(items, Key(items[i].id), i);
      assert IndexOfKey(items, Key(p.value.id.value)) == i;
    }
  }

  /**
   * The decrease button is enabled only above quantity 1, and then `removeItem(id, 1)`
   * takes one unit off that line, which stays where it is.
   */
  lemma DecreaseNeverDeletes(items: seq<CartLine>, i: int)
    requires UniqueKeys(items) && 0 <= i < |items| && items[i].quantity > 1
    ensures Removed(items, Key(items[i].id), 1) == items[i := items[i].(quantity := items[i].quantity - 1)]
  {
    UniqueIndex(items, Key(items[i].id), i);
  }

  /** The remove button, `removeProduct(id)`, drops that line and keeps the others in order. */
  lemma RemoveDropsLine(items: seq<CartLine>, i: int)
    requires UniqueKeys(items) && 0 <= i < |items|
    ensures WithoutKey(items, Key(items[i].id)) == items[..i] + items[i + 1..]
  {
    var key := Key(items[i].id);
    var before, after := items[..i], items[i + 1..];
    assert !HasKey(before, key) by {
      forall j | 0 <= j < |before| ensures Key(before[j].id) != key {
        assert before[j] == items[j];
      }
    }
    assert !HasKey(after, key) by {
      forall j | 0 <= j < |after| ensures Key(after[j].id) != key {
        assert after[j] == items[i + 1 + j];
      }
    }
    assert items == before + [items[i]] + after;
    DropBetween(before, items[i], after);
  }

  /** Dropping the only line with a key out of the middle of a list. */
  lemma DropBetween(before: seq<CartLine>, x: CartLine, after: seq<CartLine>)
    requires !HasKey(before, Key(x.id)) && !HasKey(after, Key(x.id))
    ensures WithoutKey(before + [x] + after, Key(x.id)) == before + after
  {
    var keep := OtherThan(Key(x.id));
    assert Seqs.Filter(before, keep) == before by {
      Seqs.FilterAllPass(before, keep);
    }
    assert Seqs.Filter(after, keep) == after by {
      Seqs.FilterAllPass(after, keep);
    }
    assert Seqs.Filter([x], keep) == [] by {
      assert [x][1..] == [];
    }
    assert Seqs.Filter(before + [x], keep) == before by {
      Seqs.FilterConcat(before, [x], keep);
    }
    assert Seqs.Filter(before + [x] + after, keep) == before + after by {
      Seqs.FilterConcat(before + [x], after, keep);
    }
  }

  /** The handlers of one line, each a call on the cart store. */
  method HandleIncrease(cart: Cart, item: CartLine)
    modifies cart
    ensures cart.items == Added(old(cart.items), Some(AsProduct(item)), 1)
  {
    var _ := cart.AddItem(Some(AsProduct(item)), 1);
  }

  /** The decrease button; while it is disabled (quantity at most 1) a click does nothing. */
  method HandleDecrease(cart: Cart, item: CartLine)
    modifies cart
    ensures item.quantity <= 1 ==> cart.items == old(cart.items)
    ensures item.quantity > 1 ==> cart.items == Removed(old(cart.items), Key(item.id), 1)
  {
    if item.quantity > 1 {
      cart.RemoveItem(item.id, 1);
    }
  }

  method HandleRemoveProduct(cart: Cart, item: CartLine)
    modifies cart
    ensures cart.items == WithoutKey(old(cart.items), Key(item.id))
  {
    cart.RemoveProduct(item.id);
  }
}
