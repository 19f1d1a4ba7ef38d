/**
 * The cart store of src/context/CartContext.jsx: a list of cart lines, at most one per
 * `String(id)`, updated by `addItem`, `removeItem`, `removeProduct` and `clearCart`, with
 * the derived totals `totalItems` and `cartTotal`.
 *
 * Every `setCartItems(prev => ...)` is taken as one sequential update of `items`; the
 * persistence write after each update is a no-op here.
 */
module CartContext {
  import opened Wrappers
  import opened Text
  import Seqs

  /** A product id as the cart receives it: a number or a string. */
  datatype Id = Num(n: int) | Str(s: string)

  /** `String(id)`, the key by which lines are compared. */
  function Key(id: Id): string {
    match id
    case Num(n) => IntToString(n)
    case Str(s) => s
  }

  /** JavaScript truthiness of an id: `0` and `""` are falsy. */
  predicate IsTruthy(id: Id) {
    match id
    case Num(n) => n != 0
    case Str(s) => s != ""
  }

  datatype CartLine = CartLine(id: Id, name: string, price: int, image: Option<string>, quantity: int)

  /**
   * What `addItem` reads of the product it is given. Every field may be missing; `images`
   * holds the `url` of each image entry (`None` for an entry without one).
   */
  datatype ProductInput = ProductInput(
    id: Option<Id>,
    name: Option<string>,
    price: Option<int>,
    images: Option<seq<Option<string>>>,
    image: Option<string>)

  /** What the store reads from local storage at start-up. */
  datatype Stored = Absent | Unparsable | Parsed(lines: seq<CartLine>)

  const DefaultName: string := "Unnamed Product"

  /** `addItem` does anything at all: `product` and `product.id` are truthy. */
  predicate Accepts(product: Option<ProductInput>) {
    product.Some? && product.value.id.Some? && IsTruthy(product.value.id.value)
  }

  /** `(product.images && product.images[0]?.url) || product.image || null` */
  function FirstImage(p: ProductInput): (r: Option<string>)
    ensures r.Some? ==> r.value != ""
    ensures r.Some? ==> r == p.image || (p.images.Some? && |p.images.value| > 0 && r == p.images.value[0])
  {
    if p.images.Some? && |p.images.value| > 0 && p.images.value[0].Some? && p.images.value[0].value != "" then
      p.images.value[0]
    else if p.image.Some? && p.image.value != "" then p.image
    else None
  }

  /** The line `addItem` appends for a product not yet in the cart. */
  function NewLine(p: ProductInput, qty: int): (l: CartLine)
    requires p.id.Some?
    ensures l.id == p.id.value && l.quantity == qty && l.image == FirstImage(p)
    ensures l.name != ""
    ensures l.name == DefaultName <==> p.name.None? || p.name.value in {"", DefaultName}
    ensures l.price == if p.price.Some? then p.price.value else 0
  {
    CartLine(
      p.id.value,
      if p.name.Some? && p.name.value != "" then p.name.value else DefaultName,
      p.price.GetOr(0),
      FirstImage(p),
      qty)
  }

  predicate HasKey(items: seq<CartLine>, key: string) {
    exists j :: 0 <= j < |items| && Key(items[j].id) == key
  }

  /** `items.findIndex(it => String(it.id) === key)`. */
  function IndexOfKey(items: seq<CartLine>, key: string): (i: int)
    ensures -1 <= i < |items|
    ensures i == -1 <==> !HasKey(items, key)
    ensures 0 <= i ==> Key(items[i].id) == key
    ensures 0 <= i ==> forall j :: 0 <= j < i ==> Key(items[j].id) != key
  {
    if |items| == 0 then -1
    else if Key(items[0].id) == key then 0
    else
      var k := IndexOfKey(items[1..], key);
      if k == -1 then -1 else k + 1
  }

  /** The cart invariant: at most one line per `String(id)`. */
  predicate UniqueKeys(items: seq<CartLine>) {
    forall i, j :: 0 <= i < j < |items| ==> Key(items[i].id) != Key(items[j].id)
  }

  /** Every stored quantity is at least 1. */
  predicate PositiveQuantities(items: seq<CartLine>) {
    forall i :: 0 <= i < |items| ==> items[i].quantity >= 1
  }

  /** With unique keys, the line holding a key is the one `IndexOfKey` finds. */
  lemma UniqueIndex(items: seq<CartLine>, key: string, j: int)
    requires UniqueKeys(items) && 0 <= j < |items| && Key(items[j].id) == key
    ensures IndexOfKey(items, key) == j
  {
  }

  /** The list `addItem(product, qty)` leaves behind. */
  function Added(items: seq<CartLine>, product: Option<ProductInput>, qty: int): (r: seq<CartLine>)
    ensures !Accepts(product) ==> r == items
    ensures Accepts(product) && HasKey(items, Key(product.value.id.value)) ==>
      var i := IndexOfKey(items, Key(product.value.id.value));
      && |r| == |items|
      && r[i] == items[i].(quantity := items[i].quantity + qty)
      && forall j :: 0 <= j < |items| && j != i ==> r[j] == items[j]
    ensures Accepts(product) && !HasKey(items, Key(product.value.id.value)) ==>
      && |r| == |items| + 1 && r[..|items|] == items
      && r[|items|] == NewLine(product.value, qty)
  {
    if !Accepts(product) then items
    else
      var i := IndexOfKey(items, Key(product.value.id.value));
      if i != -1 then items[i := items[i].(quantity := items[i].quantity + qty)]
      else items + [NewLine(product.value, qty)]
  }

  /** The list `removeItem(id, qty)` leaves behind, the index being looked up in that same list. */
  function Removed(items: seq<CartLine>, key: string, qty: int): (r: seq<CartLine>)
    ensures !HasKey(items, key) ==> r == items
    ensures HasKey(items, key) ==>
      var i := IndexOfKey(items, key);
      if items[i].quantity - qty > 0 then
        |r| == |items| && r[i] == items[i].(quantity := items[i].quantity - qty)
        && forall j :: 0 <= j < |items| && j != i ==> r[j] == items[j]
      else
        r == items[..i] + items[i + 1..]
  {
    var i := IndexOfKey(items, key);
    if i == -1 then items
    else if items[i].quantity - qty > 0 then items[i := items[i].(quantity := items[i].quantity - qty)]
    else
      var r := items[..i] + items[i + 1..];
      assert forall j :: 0 <= j < |r| ==> r[j] == items[if j < i then j else j + 1];
      r
  }

  /** `addItem` keeps the cart invariant, and positive quantities when it adds a positive amount. */
  lemma AddedKeepsInvariant(items: seq<CartLine>, product: Option<ProductInput>, qty: int)
    ensures UniqueKeys(items) ==> UniqueKeys(Added(items, product, qty))
    ensures PositiveQuantities(items) && qty >= 1 ==> PositiveQuantities(Added(items, product, qty))
  {
    if Accepts(product) && UniqueKeys(items) {
      var key := Key(product.value.id.value);
      var i := IndexOfKey(items, key);
      if i != -1 {
        var l := items[i].(quantity := items[i].quantity + qty);
        assert Added(items, product, qty) == items[i := l];
        UpdatedUnique(items, i, l);
      }
    }
  }

  /**
   * `removeItem` keeps the cart invariant and positive quantities, and once it takes away
   * at least the line's quantity the key is gone from the cart.
   */
  lemma RemovedKeepsInvariant(items: seq<CartLine>, key: string, qty: int)
    ensures UniqueKeys(items) ==> UniqueKeys(Removed(items, key, qty))
    ensures PositiveQuantities(items) ==> PositiveQuantities(Removed(items, key, qty))
    ensures UniqueKeys(items) && HasKey(items, key) && items[IndexOfKey(items, key)].quantity <= qty ==>
      !HasKey(Removed(items, key, qty), key)
  {
    if UniqueKeys(items) {
      RemovedUnique(items, key, qty);
    }
    if PositiveQuantities(items) {
      RemovedPositive(items, key, qty);
    }
    if UniqueKeys(items) && HasKey(items, key) && items[IndexOfKey(items, key)].quantity <= qty {
      RemovedDropsKey(items, key, qty);
    }
  }

  lemma RemovedUnique(items: seq<CartLine>, key: string, qty: int)
    requires UniqueKeys(items)
    ensures UniqueKeys(Removed(items, key, qty))
  {
    var i := IndexOfKey(items, key);
    if i != -1 && items[i].quantity - qty > 0 {
      var l := items[i].(quantity := items[i].quantity - qty);
      assert Removed(items, key, qty) == items[i := l];
      UpdatedUnique(items, i, l);
    } else if i != -1 {
      assert Removed(items, key, qty) == items[..i] + items[i + 1..];
      DeletedUnique(items, i);
    }
  }

  /** Replacing a line by one with the same id keeps the keys unique. */
  lemma UpdatedUnique(items: seq<CartLine>, i: int, l: CartLine)
    requires UniqueKeys(items) && 0 <= i < |items| && l.id == items[i].id
    ensures UniqueKeys(items[i := l])
  {
    var r := items[i := l];
    forall j, k | 0 <= j < k < |r|
      ensures Key(r[j].id) != Key(r[k].id)
    {
      assert r[j].id == items[j].id && r[k].id == items[k].id;
    }
  }

  /** Deleting a line keeps the keys unique. */
  lemma DeletedUnique(items: seq<CartLine>, i: int)
    requires UniqueKeys(items) && 0 <= i < |items|
    ensures UniqueKeys(items[..i] + items[i + 1..])
  {
    var r := items[..i] + items[i + 1..];
    forall j, k | 0 <= j < k < |r|
      ensures Key(r[j].id) != Key(r[k].id)
    {
      assert r[j] == items[if j < i then j else j + 1];
      assert r[k] == items[if k < i then k else k + 1];
    }
  }

  lemma RemovedPositive(items: seq<CartLine>, key: string, qty: int)
    requires PositiveQuantities(items)
    ensures PositiveQuantities(Removed(items, key, qty))
  {
    var i := IndexOfKey(items, key);
    var r := Removed(items, key, qty);
    if i != -1 && items[i].quantity - qty <= 0 {
      forall j | 0 <= j < |r|
        ensures r[j].quantity >= 1
      {
        assert r[j] == items[if j < i then j else j + 1];
      }
    }
  }

  lemma RemovedDropsKey(items: seq<CartLine>, key: string, qty: int)
    requires UniqueKeys(items) && HasKey(items, key) && items[IndexOfKey(items, key)].quantity <= qty
    ensures !HasKey(Removed(items, key, qty), key)
  {
    var i := IndexOfKey(items, key);
    assert Removed(items, key, qty) == items[..i] + items[i + 1..];
    DeletedDropsKey(items, i);
  }

  /** Deleting a line from a cart with unique keys leaves no line with its key. */
  lemma DeletedDropsKey(items: seq<CartLine>, i: int)
    requires UniqueKeys(items) && 0 <= i < |items|
    ensures !HasKey(items[..i] + items[i + 1..], Key(items[i].id))
  {
    var r := items[..i] + items[i + 1..];
    forall j | 0 <= j < |r|
      ensures Key(r[j].id) != Key(items[i].id)
    {
      var k := if j < i then j else j + 1;
      assert r[j] == items[k];
      if k < i {
        assert 0 <= k < i < |items|;
      } else {
        assert 0 <= i < k < |items|;
      }
    }
  }

  /** The test `removeProduct` filters by: `p => String(p.id) !== key`. */
  function OtherThan(key: string): CartLine -> bool {
    (l: CartLine) => Key(l.id) != key
  }

  /** `prev.filter(p => String(p.id) !== key)`. */
  function WithoutKey(items: seq<CartLine>, key: string): (r: seq<CartLine>)
    ensures !HasKey(r, key)
    ensures !HasKey(items, key) ==> r == items
    ensures forall l :: l in items && Key(l.id) != key ==> l in r
    ensures forall l :: l in r ==> l in items
  {
    var r := Seqs.Filter(items, OtherThan(key));
    assert forall l :: l in r ==> l in multiset(r);
    assert forall l :: l in items ==> l in multiset(items);
    if HasKey(items, key) then r
    else
      Seqs.FilterAllPass(items, OtherThan(key));
      r
  }

  lemma {:induction false} FilterKeepsUnique(items: seq<CartLine>, p: CartLine -> bool)
    requires UniqueKeys(items)
    ensures UniqueKeys(Seqs.Filter(items, p))
  {
    if |items| > 0 {
      var tail := items[1..];
      FilterKeepsUnique(tail, p);
      var ft := Seqs.Filter(tail, p);
      HeadKeyNotFiltered(items, p);
      if p(items[0]) {
        ConsKeepsUnique(items[0], ft);
      }
    }
  }

  /** No line kept from the tail of a cart with unique keys has the key of its head. */
  lemma HeadKeyNotFiltered(items: seq<CartLine>, p: CartLine -> bool)
    requires UniqueKeys(items) && |items| > 0
    ensures forall k :: 0 <= k < |Seqs.Filter(items[1..], p)| ==> Key(Seqs.Filter(items[1..], p)[k].id) != Key(items[0].id)
  {
    var tail := items[1..];
    var ft := Seqs.Filter(tail, p);
    forall k | 0 <= k < |ft|
      ensures Key(ft[k].id) != Key(items[0].id)
    {
      Seqs.FilterSubset(tail, p, k);
      var m :| 0 <= m < |tail| && tail[m] == ft[k];
      assert items[m + 1] == tail[m];
    }
  }

  /** A line whose key differs from every key of a cart with unique keys can head it. */
  lemma ConsKeepsUnique(x: CartLine, t: seq<CartLine>)
    requires UniqueKeys(t)
    requires forall k :: 0 <= k < |t| ==> Key(t[k].id) != Key(x.id)
    ensures UniqueKeys([x] + t)
  {
    var r := [x] + t;
    forall a, b | 0 <= a < b < |r|
      ensures Key(r[a].id) != Key(r[b].id)
    {
      assert r[b] == t[b - 1];
      if a > 0 {
        assert r[a] == t[a - 1];
      }
    }
  }

  /** `removeProduct` keeps the cart invariant and the positive quantities. */
  lemma WithoutKeyKeepsInvariant(items: seq<CartLine>, key: string)
    ensures UniqueKeys(items) ==> UniqueKeys(WithoutKey(items, key))
    ensures PositiveQuantities(items) ==> PositiveQuantities(WithoutKey(items, key))
  {
    if UniqueKeys(items) {
      FilterKeepsUnique(items, OtherThan(key));
    }
    var r := WithoutKey(items, key);
    forall i | 0 <= i < |r| ensures r[i] in items { }
  }

  /** `removeProduct` keeps the remaining lines in their relative order. */
  lemma WithoutKeyKeepsOrder(a: seq<CartLine>, b: seq<CartLine>, key: string)
    ensures WithoutKey(a + b, key) == WithoutKey(a, key) + WithoutKey(b, key)
  {
    Seqs.FilterConcat(a, b, OtherThan(key));
  }

  /** `totalItems`: the quantities summed in list order, as `reduce` does. */
  function TotalItems(items: seq<CartLine>): int {
    if |items| == 0 then 0 else TotalItems(items[..|items| - 1]) + items[|items| - 1].quantity
  }

  /** `cartTotal`: the sum of price times quantity over the lines. */
  function CartTotal(items: seq<CartLine>): int {
    if |items| == 0 then 0
    else CartTotal(items[..|items| - 1]) + items[|items| - 1].price * items[|items| - 1].quantity
  }

  /** No line with a negative quantity means a non-negative item count. */
  lemma {:induction false} TotalItemsNonNegative(items: seq<CartLine>)
    requires forall i :: 0 <= i < |items| ==> items[i].quantity >= 0
    ensures TotalItems(items) >= 0
  {
    if |items| > 0 {
      TotalItemsNonNegative(items[..|items| - 1]);
    }
  }

  /** No negative price or quantity means a non-negative cart total. */
  lemma {:induction false} CartTotalNonNegative(items: seq<CartLine>)
    requires forall i :: 0 <= i < |items| ==> items[i].price >= 0 && items[i].quantity >= 0
    ensures CartTotal(items) >= 0
  {
    if |items| > 0 {
      var n := |items| - 1;
      CartTotalNonNegative(items[..n]);
      assert items[n].price * items[n].quantity >= 0;
    }
  }

  /** With positive quantities the item count is at least the number of lines, so it is 0 exactly when the cart is empty. */
  lemma {:induction false} TotalItemsAtLeastLines(items: seq<CartLine>)
    requires PositiveQuantities(items)
    ensures TotalItems(items) >= |items|
    ensures TotalItems(items) == 0 <==> items == []
  {
    if |items| > 0 {
      TotalItemsAtLeastLines(items[..|items| - 1]);
    }
  }

  lemma {:induction false} TotalsConcat(a: seq<CartLine>, b: seq<CartLine>)
    ensures TotalItems(a + b) == TotalItems(a) + TotalItems(b)
    ensures CartTotal(a + b) == CartTotal(a) + CartTotal(b)
  {
    if |b| > 0 {
      assert (a + b)[..|a + b| - 1] == a + b[..|b| - 1];
      TotalsConcat(a, b[..|b| - 1]);
    } else {
      assert a + b == a;
    }
  }

  /** Replacing one line changes the totals by that line's difference. */
  lemma {:induction false} TotalsUpdate(items: seq<CartLine>, i: int, l: CartLine)
    requires 0 <= i < |items|
    ensures TotalItems(items[i := l]) == TotalItems(items) - items[i].quantity + l.quantity
    ensures CartTotal(items[i := l]) == CartTotal(items) - items[i].price * items[i].quantity + l.price * l.quantity
  {
    assert items == items[..i] + [items[i]] + items[i + 1..];
    assert items[i := l] == items[..i] + [l] + items[i + 1..];
    TotalsConcat(items[..i] + [items[i]], items[i + 1..]);
    TotalsConcat(items[..i] + [l], items[i + 1..]);
    TotalsConcat(items[..i], [items[i]]);
    TotalsConcat(items[..i], [l]);
  }

  /** Removing one line subtracts its share from both totals. */
  lemma {:induction false} TotalsDelete(items: seq<CartLine>, i: int)
    requires 0 <= i < |items|
    ensures TotalItems(items[..i] + items[i + 1..]) == TotalItems(items) - items[i].quantity
    ensures CartTotal(items[..i] + items[i + 1..]) == CartTotal(items) - items[i].price * items[i].quantity
  {
    assert items == items[..i] + [items[i]] + items[i + 1..];
    TotalsConcat(items[..i] + [items[i]], items[i + 1..]);
    TotalsConcat(items[..i], [items[i]]);
    TotalsConcat(items[..i], items[i + 1..]);
  }

  /** The unit price `addItem` charges for a product: the stored line's, or the new line's. */
  function UnitPrice(items: seq<CartLine>, p: ProductInput): int
    requires p.id.Some?
  {
    var i := IndexOfKey(items, Key(p.id.value));
    if i == -1 then NewLine(p, 0).price else items[i].price
  }

  lemma Distributes(p: int, q: int, d: int)
    ensures p * (q + d) == p * q + p * d
  {
  }

  /** `addItem(product, qty)` raises the item count by `qty` and the total by `qty` units. */
  lemma {:induction false} AddedTotals(items: seq<CartLine>, product: Option<ProductInput>, qty: int)
    requires Accepts(product)
    ensures TotalItems(Added(items, product, qty)) == TotalItems(items) + qty
    ensures CartTotal(Added(items, product, qty)) == CartTotal(items) + UnitPrice(items, product.value) * qty
  {
    if IndexOfKey(items, Key(product.value.id.value)) != -1 {
      AddedToLineTotals(items, product, qty);
    } else {
      AddedNewLineTotals(items, product, qty);
    }
  }

  lemma AddedToLineTotals(items: seq<CartLine>, product: Option<ProductInput>, qty: int)
    requires Accepts(product) && IndexOfKey(items, Key(product.value.id.value)) != -1
    ensures TotalItems(Added(items, product, qty)) == TotalItems(items) + qty
    ensures CartTotal(Added(items, product, qty)) == CartTotal(items) + UnitPrice(items, product.value) * qty
  {
    var i := IndexOfKey(items, Key(product.value.id.value));
    var r := Added(items, product, qty);
    var l := items[i].(quantity := items[i].quantity + qty);
    assert |r| == |items| && r[i] == l;
    assert forall j :: 0 <= j < |r| ==> r[j] == items[i := l][j];
    assert r == items[i := l];
    RaisedTotals(items, i, qty);
    assert UnitPrice(items, product.value) == items[i].price;
  }

  /** Raising one line's quantity by `d` raises the item count by `d` and the total by `d` units. */
  lemma RaisedTotals(items: seq<CartLine>, i: int, d: int)
    requires 0 <= i < |items|
    ensures var l := items[i].(quantity := items[i].quantity + d);
      && TotalItems(items[i := l]) == TotalItems(items) + d
      && CartTotal(items[i := l]) == CartTotal(items) + items[i].price * d
  {
    var l := items[i].(quantity := items[i].quantity + d);
    TotalsUpdate(items, i, l);
    Distributes(items[i].price, items[i].quantity, d);
  }

  lemma AddedNewLineTotals(items: seq<CartLine>, product: Option<ProductInput>, qty: int)
    requires Accepts(product) && IndexOfKey(items, Key(product.value.id.value)) == -1
    ensures TotalItems(Added(items, product, qty)) == TotalItems(items) + qty
    ensures CartTotal(Added(items, product, qty)) == CartTotal(items) + UnitPrice(items, product.value) * qty
  {
    var l := NewLine(product.value, qty);
    assert Added(items, product, qty) == items + [l];
    TotalsConcat(items, [l]);
    assert [l][..0] == [];
  }

  /**
   * `removeItem(id, qty)` lowers the item count by `qty`, or by the whole line's quantity
   * when the line is dropped; an absent id changes nothing.
   */
  lemma {:induction false} RemovedTotals(items: seq<CartLine>, key: string, qty: int)
    ensures !HasKey(items, key) ==> TotalItems(Removed(items, key, qty)) == TotalItems(items)
    ensures HasKey(items, key) ==>
      var q := items[IndexOfKey(items, key)].quantity;
      TotalItems(Removed(items, key, qty)) == TotalItems(items) - (if q - qty > 0 then qty else q)
  {
    var i := IndexOfKey(items, key);
    if i != -1 {
      if items[i].quantity - qty > 0 {
        RemovedDecrementsTotal(items, key, qty);
      } else {
        RemovedDropsLineTotal(items, key, qty);
      }
    }
  }

  lemma RemovedDecrementsTotal(items: seq<CartLine>, key: string, qty: int)
    requires IndexOfKey(items, key) != -1 && items[IndexOfKey(items, key)].quantity - qty > 0
    ensures TotalItems(Removed(items, key, qty)) == TotalItems(items) - qty
  {
    var i := IndexOfKey(items, key);
    var l := items[i].(quantity := items[i].quantity - qty);
    var r := Removed(items, key, qty);
    assert |r| == |items|;
    assert r[i] == l;
    assert forall j :: 0 <= j < |r| ==> r[j] == items[i := l][j];
    assert r == items[i := l];
    TotalsUpdate(items, i, l);
  }

  lemma RemovedDropsLineTotal(items: seq<CartLine>, key: string, qty: int)
    requires IndexOfKey(items, key) != -1 && items[IndexOfKey(items, key)].quantity - qty <= 0
    ensures TotalItems(Removed(items, key, qty)) == TotalItems(items) - items[IndexOfKey(items, key)].quantity
  {
    var i := IndexOfKey(items, key);
    assert Removed(items, key, qty) == items[..i] + items[i + 1..];
    TotalsDelete(items, i);
  }

  /** A run of `addItem` calls with the same product. */
  function AddAll(items: seq<CartLine>, product: Option<ProductInput>, qtys: seq<int>): seq<CartLine> {
    if |qtys| == 0 then items else Added(AddAll(items, product, qtys[..|qtys| - 1]), product, qtys[|qtys| - 1])
  }

  function Sum(xs: seq<int>): int {
    if |xs| == 0 then 0 else Sum(xs[..|xs| - 1]) + xs[|xs| - 1]
  }

  /**
   * Adding the same product several times to a cart that does not hold it yields exactly
   * one line for it, at the end, whose quantity is the sum of the added quantities.
   */
  lemma {:induction false} AddAllSums(items: seq<CartLine>, product: Option<ProductInput>, qtys: seq<int>)
    requires Accepts(product) && |qtys| > 0
    requires !HasKey(items, Key(product.value.id.value))
    ensures var r := AddAll(items, product, qtys);
      && |r| == |items| + 1 && r[..|items|] == items
      && Key(r[|items|].id) == Key(product.value.id.value)
      && r[|items|].quantity == Sum(qtys)
  {
    var key := Key(product.value.id.value);
    var last := qtys[|qtys| - 1];
    if |qtys| == 1 {
      assert qtys[..0] == [];
    } else {
      var init := qtys[..|qtys| - 1];
      AddAllSums(items, product, init);
      var prev := AddAll(items, product, init);
      assert AddAll(items, product, qtys) == Added(prev, product, last);
      assert HasKey(prev, key) by {
        assert Key(prev[|items|].id) == key;
      }
      var i := IndexOfKey(prev, key);
      assert i == |items| by {
        forall j | 0 <= j < |items|
          ensures Key(prev[j].id) != key
        {
          assert prev[j] == items[j];
        }
      }
    }
  }

  /** The cart scenario: adding two shirts at 100 to an empty cart. */
  lemma ShirtScenario()
    ensures var shirt := Some(ProductInput(Some(Num(1)), Some("Shirt"), Some(100), None, None));
      var r := Added([], shirt, 2);
      TotalItems(r) == 2 && CartTotal(r) == 200
  {
    var shirt := Some(ProductInput(Some(Num(1)), Some("Shirt"), Some(100), None, None));
    AddedTotals([], shirt, 2);
  }

  /**
   * `removeItem` exactly as written: the index is looked up in `rendered` (the list of the
   * last render, captured by `findIndex`) and applied to `prev` (the list the update
   * receives). `None` stands for the TypeError raised when `copy[i]` does not exist.
   */
  function RemovedAtRenderedIndex(rendered: seq<CartLine>, prev: seq<CartLine>, key: string, qty: int)
    : (r: Option<seq<CartLine>>)
    ensures rendered == prev ==> r == Some(Removed(prev, key, qty))
  {
    var i := IndexOfKey(rendered, key);
    if i == -1 then Some(prev)
    else if i >= |prev| then None
    else if prev[i].quantity - qty > 0 then Some(prev[i := prev[i].(quantity := prev[i].quantity - qty)])
    else Some(prev[..i] + prev[i + 1..])
  }

  /**
   * When an earlier queued update has already dropped line A, `removeItem(A, 1)` decrements
   * line B instead, and with the roles swapped it throws.
   */
  lemma RenderedIndexHitsWrongLine()
    ensures var a := CartLine(Num(1), "A", 10, None, 1);
      var b := CartLine(Num(2), "B", 20, None, 3);
      && RemovedAtRenderedIndex([a, b], [b], Key(Num(1)), 1) == Some([b.(quantity := 2)])
      && Removed([b], Key(Num(1)), 1) == [b]
      && RemovedAtRenderedIndex([a, b], [a], Key(Num(2)), 1) == None
  {
    var a := CartLine(Num(1), "A", 10, None, 1);
    var b := CartLine(Num(2), "B", 20, None, 3);
    assert Key(Num(1)) == "1" && Key(Num(2)) == "2";
    assert IndexOfKey([a, b], "1") == 0;
    assert [b][0 := b.(quantity := 2)] == [b.(quantity := 2)];
    assert RemovedAtRenderedIndex([a, b], [b], "1", 1) == Some([b.(quantity := 2)]);
    assert IndexOfKey([a, b], "2") == 1;
    assert RemovedAtRenderedIndex([a, b], [a], "2", 1) == None;
    assert IndexOfKey([b], "1") == -1;
    assert Removed([b], "1", 1) == [b];
  }

  /**
   * The cart store: the `cartItems` state cell and the operations that update it.
   *
   * There is no class invariant. The list read back from storage is taken as it is, and
   * it may hold two lines with the same id, which no operation ever merges. So each
   * operation promises instead that one line per id stays so: `old(UniqueKeys(items))
   * ==> UniqueKeys(items)`.
   */
  class Cart {
    var items: seq<CartLine>

    /** The store's first state: the stored list, or the empty cart when there is none or it does not parse. */
    constructor (stored: Stored)
      ensures stored.Parsed? ==> items == stored.lines
      ensures !stored.Parsed? ==> items == []
    {
      match stored
      case Parsed(lines) => items := lines;
      case _ => items := [];
    }

    /** `findIndex(id)`: a linear scan for the first line whose key is `String(id)`. */
    method FindIndex(id: Id) returns (i: int)
      ensures i == IndexOfKey(items, Key(id))
    {
      var key := Key(id);
      i := 0;
      while i < |items|
        invariant 0 <= i <= |items|
        invariant forall j :: 0 <= j < i ==> Key(items[j].id) != key
      {
        if Key(items[i].id) == key {
          return;
        }
        i := i + 1;
      }
      i := -1;
    }

    /** `addItem(product, qty, callback)`; `notified` says whether the callback runs. */
    method AddItem(product: Option<ProductInput>, qty: int) returns (notified: bool)
      modifies this
      ensures notified == Accepts(product)
      ensures items == Added(old(items), product, qty)
      ensures !Accepts(product) ==> items == old(items)
      ensures old(UniqueKeys(items)) ==> UniqueKeys(items)
    {
      if !Accepts(product) {
        return false;
      }
      var p := product.value;
      var i := FindIndex(p.id.value);
      if i != -1 {
        items := items[i := items[i].(quantity := items[i].quantity + qty)];
      } else {
        items := items + [NewLine(p, qty)];
      }
      notified := true;
    }

    /** `removeItem(productId, qty)`. */
    method RemoveItem(id: Id, qty: int)
      modifies this
      ensures items == Removed(old(items), Key(id), qty)
      ensures old(UniqueKeys(items)) ==> UniqueKeys(items)
      ensures old(PositiveQuantities(items)) ==> PositiveQuantities(items)
    {
      var i := FindIndex(id);
      if i == -1 {
        return;
      }
      var newQty := items[i].quantity - qty;
      if newQty > 0 {
        items := items[i := items[i].(quantity := newQty)];
      } else {
        items := items[..i] + items[i + 1..];
      }
    }

    /** `removeProduct(productId)`. */
    method RemoveProduct(id: Id)
      modifies this
      ensures items == WithoutKey(old(items), Key(id))
      ensures old(UniqueKeys(items)) ==> UniqueKeys(items)
    {
      WithoutKeyKeepsInvariant(items, Key(id));
      items := WithoutKey(items, Key(id));
    }

    /** `clearCart()`. */
    method ClearCart()
      modifies this
      ensures items == []
      ensures TotalItems(items) == 0 && CartTotal(items) == 0
    {
      items := [];
    }
  }
}
