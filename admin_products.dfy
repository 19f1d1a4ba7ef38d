/**
 * The product list of the admin dashboard, src/pages/dashboard/Products.jsx: normalising
 * the products the API returns, the search and category filter, and the list updates
 * after an add, an edit or a delete. `API_URL` is the parameter `base`.
 */
module AdminProducts {
  import opened Wrappers
  import opened Text
  import opened Js
  import Seqs

  datatype RawProduct = RawProduct(
    id: int, name: string, description: Option<string>, category: Option<string>, price: int,
    images: Option<seq<string>>, isAvailable: JsValue, onPromotion: JsValue)

  datatype Product = Product(
    id: int, name: string, description: Option<string>, category: Option<string>, price: int,
    images: seq<string>, isAvailable: bool, onPromotion: bool)

  /** The url the list shows for an image path: `http` urls as they are, others under `base`. */
  function ImageUrl(base: string, img: string): (r: string)
    ensures StartsWith(img, "http") ==> r == img
    ensures !StartsWith(img, "http") && StartsWith(img, "/") ==> r == base + img
    ensures !StartsWith(img, "http") && !StartsWith(img, "/") ==> r == base + "/" + img
  {
    if StartsWith(img, "http") then img
    else base + (if StartsWith(img, "/") then "" else "/") + img
  }

  /** A relative image path gets exactly one '/' between the base and itself. */
  lemma ImageUrlOneSlash(base: string, img: string)
    requires !StartsWith(img, "http")
    ensures var r := ImageUrl(base, img);
      StartsWith(r, base + "/") && r[|base| + 1..] == (if StartsWith(img, "/") then img[1..] else img)
  {
    var r := ImageUrl(base, img);
    if StartsWith(img, "/") {
      assert img == "/" + img[1..];
      assert r == base + "/" + img[1..];
    }
    assert r[..|base| + 1] == base + "/";
  }

  /** `processProductData(product)`. */
  function ProcessProduct(base: string, p: RawProduct): (r: Product)
    ensures r.id == p.id && r.name == p.name && r.description == p.description
    ensures r.category == p.category && r.price == p.price
    ensures |r.images| == |p.images.GetOr([])|
    ensures forall i :: 0 <= i < |r.images| ==> r.images[i] == ImageUrl(base, p.images.GetOr([])[i])
    ensures r.isAvailable == ParseBoolean(p.isAvailable) && r.onPromotion == ParseBoolean(p.onPromotion)
  {
    var imgs := p.images.GetOr([]);
    Product(p.id, p.name, p.description, p.category, p.price,
            seq(|imgs|, i requires 0 <= i < |imgs| => ImageUrl(base, imgs[i])),
            ParseBoolean(p.isAvailable), ParseBoolean(p.onPromotion))
  }

  /** The search box: the name, or else the description, contains the query, ignoring case. */
  predicate MatchesSearch(p: Product, query: string) {
    || Contains(ToLower(p.name), ToLower(query))
    || (p.description.Some? && Contains(ToLower(p.description.value), ToLower(query)))
  }

  /** The category select: an empty choice means every category. */
  predicate MatchesCategory(p: Product, filterCategory: string) {
    filterCategory == "" || p.category == Some(filterCategory)
  }

  /** `filteredProducts`. */
  function FilteredProducts(products: seq<Product>, query: string, filterCategory: string): (r: seq<Product>)
    ensures forall i :: 0 <= i < |r| ==> MatchesSearch(r[i], query) && MatchesCategory(r[i], filterCategory)
    ensures forall p :: multiset(r)[p] == if MatchesSearch(p, query) && MatchesCategory(p, filterCategory) then multiset(products)[p] else 0
  {
    Seqs.Filter(products, (p: Product) => MatchesSearch(p, query) && MatchesCategory(p, filterCategory))
  }

  /** With an empty query and no category chosen the whole list shows, in order. */
  lemma NoFilterShowsAll(products: seq<Product>)
    ensures FilteredProducts(products, "", "") == products
  {
    forall i | 0 <= i < |products|
      ensures MatchesSearch(products[i], "")
    {
      ContainsEmpty(ToLower(products[i].name));
    }
    Seqs.FilterAllPass(products, (p: Product) => MatchesSearch(p, "") && MatchesCategory(p, ""));
  }

  /** The filter keeps the list order: it distributes over concatenation. */
  lemma FilteredKeepsOrder(a: seq<Product>, b: seq<Product>, query: string, filterCategory: string)
    ensures FilteredProducts(a + b, query, filterCategory) == FilteredProducts(a, query, filterCategory) + FilteredProducts(b, query, filterCategory)
  {
    Seqs.FilterConcat(a, b, (p: Product) => MatchesSearch(p, query) && MatchesCategory(p, filterCategory));
  }

  /** After an edit: `products.map(p => p.id === updated.id ? updated : p)`. */
  function ReplaceById(products: seq<Product>, updated: Product): (r: seq<Product>)
    ensures |r| == |products|
    ensures forall i :: 0 <= i < |r| ==> r[i] == if products[i].id == updated.id then updated else products[i]
  {
    seq(|products|, i requires 0 <= i < |products| => if products[i].id == updated.id then updated else products[i])
  }

  /** Replacing twice with the same product is replacing once. */
  lemma ReplaceByIdIdempotent(products: seq<Product>, updated: Product)
    ensures ReplaceById(ReplaceById(products, updated), updated) == ReplaceById(products, updated)
  {
  }

  /** An edit leaves the list's ids as they were, so it never adds or drops a product. */
  lemma ReplaceByIdKeepsIds(products: seq<Product>, updated: Product)
    ensures forall i :: 0 <= i < |products| ==> ReplaceById(products, updated)[i].id == products[i].id
  {
  }

  /** A preview of a newly chosen image, of which the list uses the `url`. */
  datatype Preview = Preview(url: string)

  /**
   * After an add: the new product first, every field as the reply gave it except the
   * images, which are the previews' urls when there are any.
   */
  function Prepend(products: seq<Product>, added: Product, previews: seq<Preview>): (r: seq<Product>)
    ensures |r| == |products| + 1 && r[1..] == products
    ensures r[0].(images := added.images) == added
    ensures |previews| > 0 ==> |r[0].images| == |previews| && forall i :: 0 <= i < |previews| ==> r[0].images[i] == previews[i].url
    ensures |previews| == 0 ==> r[0].images == added.images
  {
    var images := if |previews| > 0 then seq(|previews|, i requires 0 <= i < |previews| => previews[i].url) else added.images;
    [added.(images := images)] + products
  }

  /** `handleDeleteProduct`: no pending id (or the falsy id 0) does nothing, else the id's products go. */
  function DeleteById(products: seq<Product>, pending: Option<int>): (r: seq<Product>)
    ensures pending.None? || pending.value == 0 ==> r == products
    ensures pending.Some? && pending.value != 0 ==> forall i :: 0 <= i < |r| ==> r[i].id != pending.value
    ensures forall p :: p in products && (pending.None? || pending.value == 0 || p.id != pending.value) ==> p in r
    ensures forall p :: p in r ==> p in products
  {
    if pending.None? || pending.value == 0 then products
    else
      var r := Seqs.Filter(products, (p: Product) => p.id != pending.value);
      assert forall p :: p in r ==> p in multiset(r);
      assert forall p :: p in products ==> p in multiset(products);
      r
  }

  /** Deleting keeps the other products in their order and a second delete of the same id changes nothing. */
  lemma DeleteByIdOrderAndIdempotent(a: seq<Product>, b: seq<Product>, pending: Option<int>)
    ensures DeleteById(a + b, pending) == DeleteById(a, pending) + DeleteById(b, pending)
    ensures DeleteById(DeleteById(a, pending), pending) == DeleteById(a, pending)
  {
    if pending.Some? && pending.value != 0 {
      var keep := (p: Product) => p.id != pending.value;
      Seqs.FilterConcat(a, b, keep);
      Seqs.FilterAllPass(DeleteById(a, pending), keep);
    }
  }
}
