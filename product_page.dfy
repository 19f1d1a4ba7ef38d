/**
 * The product detail page, src/pages/ProductPage.jsx: looking the product up by the URL
 * id, the related-products strip, the image gallery, the quantity picker and the
 * add-to-cart button. The page's own `getFullImageUrl`, `parseBoolean` and
 * `processProductData` have the same bodies as the catalogue page's, so the model uses
 * `Shop.GetFullImageUrl`, `Js.ParseBoolean` and `Shop.ProcessProduct` for them.
 */
module ProductPage {
  import opened Wrappers
  import opened Text
  import opened Shop
  import Seqs
  import CartContext

  const DefaultImage: string := "/placeholder.jpg"
  const NotFound: string := "Product not found."

  /** The first product whose `String(id)` is the URL id. */
  function FindProduct(products: seq<Product>, id: string): (r: Result<Product>)
    ensures r.Failure? <==> forall i :: 0 <= i < |products| ==> IntToString(products[i].fields.id) != id
    ensures r.Failure? ==> r.error == NotFound
    ensures r.Success? ==> IntToString(r.value.fields.id) == id
    ensures r.Success? ==> exists i :: (0 <= i < |products| && products[i] == r.value
      && forall j :: 0 <= j < i ==> IntToString(products[j].fields.id) != id)
  {
    if |products| == 0 then Failure(NotFound)
    else if IntToString(products[0].fields.id) == id then
      assert products[0] == products[0];
      Success(products[0])
    else
      var r := FindProduct(products[1..], id);
      if r.Success? then
        ghost var i :| 0 <= i < |products[1..]| && products[1..][i] == r.value
          && forall j :: 0 <= j < i ==> IntToString(products[1..][j].fields.id) != id;
        assert products[i + 1] == r.value;
        r
      else r
  }

  /** Opening the page of a listed product (ids being unique) finds that product. */
  lemma {:induction false} FindOwnProduct(products: seq<Product>, k: int)
    requires 0 <= k < |products|
    requires forall i, j :: 0 <= i < j < |products| ==> products[i].fields.id != products[j].fields.id
    ensures FindProduct(products, IntToString(products[k].fields.id)) == Success(products[k])
  {
    var id := IntToString(products[k].fields.id);
    if k > 0 {
      IntToStringInjective(products[0].fields.id, products[k].fields.id);
      assert products[1..][k - 1] == products[k];
      FindOwnProduct(products[1..], k - 1);
    }
  }

  /** `found.images?.[0]?.url || DEFAULT_IMAGE`: the image shown first. */
  function FirstActiveImage(p: Product): (r: string)
    ensures r != ""
    ensures |p.images| > 0 && p.images[0].url != "" ==> r == p.images[0].url
    ensures |p.images| == 0 || p.images[0].url == "" ==> r == DefaultImage
  {
    if |p.images| > 0 && p.images[0].url != "" then p.images[0].url else DefaultImage
  }

  /** `category?.toLowerCase().trim()`. */
  function CategoryKey(category: Option<string>): (r: Option<string>)
    ensures r.Some? <==> category.Some?
    ensures r.Some? ==> |r.value| <= |category.value| && forall i :: 0 <= i < |r.value| ==> !IsUpper(r.value[i])
  {
    if category.Some? then Some(Trim(ToLower(category.value))) else None
  }

  /** A product that the strip may show next to `product`. */
  predicate IsRelated(product: Product, p: Product)
    ensures IsRelated(product, p) ==> p.fields.id != product.fields.id
  {
    IntToStringInjective(p.fields.id, product.fields.id);
    && CategoryKey(p.fields.category) == CategoryKey(product.fields.category)
    && IntToString(p.fields.id) != IntToString(product.fields.id)
    && p.isAvailable
  }

  /** `relatedProducts`. */
  function RelatedProducts(product: Option<Product>, all: seq<Product>): (r: seq<Product>)
    ensures |r| <= 4
    ensures product.None? || product.value.fields.category in {None, Some("")} || all == [] ==> r == []
    ensures product.Some? ==> forall i :: 0 <= i < |r| ==>
      && r[i] in all
      && r[i].isAvailable
      && r[i].fields.id != product.value.fields.id
      && r[i].fields.category.Some?
      && Trim(ToLower(r[i].fields.category.value)) == Trim(ToLower(product.value.fields.category.value))
  {
    if product.None? || product.value.fields.category in {None, Some("")} || |all| == 0 then []
    else
      var related := Seqs.Filter(all, (p: Product) => IsRelated(product.value, p));
      var r := Seqs.Take(related, 4);
      forall i | 0 <= i < |r|
        ensures r[i] in all && r[i].fields.id != product.value.fields.id
      {
        Seqs.FilterSubset(all, (p: Product) => IsRelated(product.value, p), i);
        IntToStringInjective(r[i].fields.id, product.value.fields.id);
      }
      r
  }

  /**
   * The strip is the first four related products in catalogue order: no related product
   * is skipped for a later one.
   */
  lemma RelatedIsPrefix(product: Product, all: seq<Product>)
    requires product.fields.category !in {None, Some("")} && all != []
    ensures var related := Seqs.Filter(all, (p: Product) => IsRelated(product, p));
      var r := RelatedProducts(Some(product), all);
      && |r| == Seqs.Min(4, |related|)
      && r == related[..|r|]
  {
  }

  // ----- The gallery -----

  /** The index `handleNext` moves to. */
  function NextIndex(i: int, n: int): (r: int)
    requires 0 <= i < n
    ensures 0 <= r < n
    ensures r == (i + 1) % n
  {
    if i == n - 1 then 0 else i + 1
  }

  /** The index `handlePrev` moves to. */
  function PrevIndex(i: int, n: int): (r: int)
    requires 0 <= i < n
    ensures 0 <= r < n
    ensures r == (i - 1 + n) % n
  {
    if i == 0 then n - 1 else i - 1
  }

  /** "Previous" undoes "next" and "next" undoes "previous". */
  lemma PrevNextInverse(i: int, n: int)
    requires 0 <= i < n
    ensures PrevIndex(NextIndex(i, n), n) == i
    ensures NextIndex(PrevIndex(i, n), n) == i
  {
  }

  /** The index after `k` presses of "next". */
  function NextTimes(i: int, n: int, k: nat): (r: int)
    requires 0 <= i < n
    ensures 0 <= r < n
  {
    if k == 0 then i else NextIndex(NextTimes(i, n, k - 1), n)
  }

  /** Pressing "next" `a` times and then `b` times is pressing it `a + b` times. */
  lemma {:induction false} NextTimesAdd(i: int, n: int, a: nat, b: nat)
    requires 0 <= i < n
    ensures NextTimes(NextTimes(i, n, a), n, b) == NextTimes(i, n, a + b)
  {
    if b > 0 {
      NextTimesAdd(i, n, a, b - 1);
    }
  }

  /** Before the last image, `k` presses of "next" move `k` places forward. */
  lemma {:induction false} NextTimesForward(i: int, n: int, k: nat)
    requires 0 <= i && i + k < n
    ensures NextTimes(i, n, k) == i + k
  {
    if k > 0 {
      NextTimesForward(i, n, k - 1);
    }
  }

  /** `n` presses of "next" on `n` images come back to the image the gallery started on. */
  lemma FullTurn(i: int, n: int)
    requires 0 <= i < n
    ensures NextTimes(i, n, n as nat) == i
  {
    NextTimesForward(i, n, (n - 1 - i) as nat);
    assert NextTimes(i, n, (n - i) as nat) == 0;
    NextTimesAdd(i, n, (n - i) as nat, i as nat);
    NextTimesForward(0, n, i as nat);
  }

  /**
   * The gallery of one product: its images (never empty: the component shows a
   * placeholder instead of a gallery otherwise), the selected index, and the page's
   * `activeImage` cell that the gallery sets.
   */
  class Gallery {
    const images: seq<Image>
    var currentIndex: int
    var activeImage: Option<string>

    ghost predicate Valid()
      reads this
    {
      |images| > 0 && 0 <= currentIndex < |images|
    }

    /** The large image shown: `activeImage || images[0].url`. */
    function Shown(): string
      reads this
      requires Valid()
    {
      if activeImage.Some? && activeImage.value != "" then activeImage.value else images[0].url
    }

    constructor (images: seq<Image>, activeImage: Option<string>)
      requires |images| > 0
      ensures Valid()
      ensures this.images == images && currentIndex == 0 && this.activeImage == activeImage
    {
      this.images := images;
      currentIndex := 0;
      this.activeImage := activeImage;
    }

    /** `handlePrev`. */
    method Prev()
      requires Valid()
      modifies this
      ensures Valid()
      ensures currentIndex == PrevIndex(old(currentIndex), |images|)
      ensures activeImage == Some(images[currentIndex].url)
    {
      var target := if currentIndex == 0 then |images| - 1 else currentIndex - 1;
      currentIndex := target;
      activeImage := Some(images[target].url);
    }

    /** `handleNext`. */
    method Next()
      requires Valid()
      modifies this
      ensures Valid()
      ensures currentIndex == NextIndex(old(currentIndex), |images|)
      ensures activeImage == Some(images[currentIndex].url)
    {
      var target := if currentIndex == |images| - 1 then 0 else currentIndex + 1;
      currentIndex := target;
      activeImage := Some(images[target].url);
    }

    /** `handleThumbnailClick(index)`, called with the index of a rendered thumbnail. */
    method ThumbnailClick(index: int)
      requires Valid() && 0 <= index < |images|
      modifies this
      ensures Valid()
      ensures currentIndex == index
      ensures activeImage == Some(images[index].url)
    {
      currentIndex := index;
      activeImage := Some(images[index].url);
    }
  }

  // ----- The quantity picker -----

  function Max(a: int, b: int): int { if a >= b then a else b }

  /** `Math.max(1, parseInt(value) || 1)`: the quantity typed into the field. */
  function TypedQuantity(text: string): (q: int)
    ensures q >= 1
    ensures ParseInt(text).Some? && ParseInt(text).value >= 1 ==> q == ParseInt(text).value
    ensures ParseInt(text).None? || ParseInt(text).value < 1 ==> q == 1
  {
    var parsed := ParseInt(text);
    Max(1, if parsed.Some? && parsed.value != 0 then parsed.value else 1)
  }

  /** Typing a positive number into the field selects that number. */
  lemma TypedNumber(n: int)
    requires n >= 1
    ensures TypedQuantity(IntToString(n)) == n
  {
    ParseIntToString(n);
  }

  /** The `quantity` cell of the page and its three setters. */
  class QuantityPicker {
    var quantity: int

    ghost predicate Valid()
      reads this
    {
      quantity >= 1
    }

    constructor ()
      ensures Valid() && quantity == 1
    {
      quantity := 1;
    }

    /** The "−" button: `Math.max(1, quantity - 1)`. */
    method Decrement()
      requires Valid()
      modifies this
      ensures Valid()
      ensures quantity == Max(1, old(quantity) - 1)
      ensures old(quantity) > 1 ==> quantity == old(quantity) - 1
    {
      quantity := Max(1, quantity - 1);
    }

    /** The "+" button. */
    method Increment()
      requires Valid()
      modifies this
      ensures Valid()
      ensures quantity == old(quantity) + 1
    {
      quantity := quantity + 1;
    }

    /** The number field's `onChange`. */
    method Type(text: string)
      modifies this
      ensures Valid()
      ensures quantity == TypedQuantity(text)
    {
      quantity := TypedQuantity(text);
    }
  }

  // ----- Adding to the cart -----

  /** What `addItem` reads of a processed product. */
  function AsCartProduct(p: Product): (r: CartContext.ProductInput)
    ensures r.id == Some(CartContext.Num(p.fields.id))
    ensures r.name == Some(p.fields.name) && r.price == Some(p.fields.price)
    ensures r.images.Some? && |r.images.value| == |p.images|
  {
    CartContext.ProductInput(
      Some(CartContext.Num(p.fields.id)),
      Some(p.fields.name),
      Some(p.fields.price),
      Some(seq(|p.images|, i requires 0 <= i < |p.images| => Some(p.images[i].url))),
      None)
  }

  /**
   * `handleAddToCart`: nothing for an unavailable product, otherwise `addItem` with the
   * picked quantity; `notified` says whether the "added" confirmation shows.
   */
  method AddToCart(cart: CartContext.Cart, product: Product, quantity: int) returns (notified: bool)
    modifies cart
    ensures !product.isAvailable ==> cart.items == old(cart.items) && !notified
    ensures product.isAvailable ==> cart.items == CartContext.Added(old(cart.items), Some(AsCartProduct(product)), quantity)
    ensures notified <==> product.isAvailable && product.fields.id != 0
  {
    if !product.isAvailable {
      return false;
    }
    notified := cart.AddItem(Some(AsCartProduct(product)), quantity);
  }

  /**
   * Adding an available product to a cart that does not hold it appends one line with the
   * product's name, price, first image and the picked quantity.
   */
  lemma AddToCartNewLine(items: seq<CartContext.CartLine>, product: Product, quantity: int)
    requires product.isAvailable && product.fields.id != 0 && product.fields.name != ""
    requires |product.images| > 0 && product.images[0].url != ""
    requires !CartContext.HasKey(items, IntToString(product.fields.id))
    ensures var r := CartContext.Added(items, Some(AsCartProduct(product)), quantity);
      && |r| == |items| + 1 && r[..|items|] == items
      && r[|items|] == CartContext.CartLine(CartContext.Num(product.fields.id), product.fields.name,
                                            product.fields.price, Some(product.images[0].url), quantity)
  {
    var input := AsCartProduct(product);
    assert CartContext.Key(input.id.value) == IntToString(product.fields.id);
    assert input.images.value[0] == Some(product.images[0].url);
  }
}
