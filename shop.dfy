/**
 * The catalogue page, src/pages/Shop.jsx: how raw products from the API are normalised
 * (`getFullImageUrl`, `processProductData`), how the URL's `categoryId` selects a category,
 * and the `filteredAndSortedProducts` pipeline behind the product grid.
 *
 * `BACKEND_URL` is the parameter `base`; `localeCompare` is the parameter `compare`.
 */
module Shop {
  import opened Wrappers
  import opened Text
  import opened Js
  import Seqs

  /** One entry of a raw product's `images` array. */
  datatype RawImage =
    | ImageObject(path: Option<string>, blurHash: Option<string>)  // `{ path, blurHash }`
    | ImagePath(text: string)                                     // a bare path string
    | NoImage                                                     // `null` or `undefined`

  /** A normalised image, `{ url, blurHash }`. */
  datatype Image = Image(url: string, blurHash: Option<string>)

  /** The fields `processProductData` copies unchanged through `...product`. */
  datatype Fields = Fields(id: int, name: string, category: Option<string>, price: int, description: Option<string>)

  datatype RawProduct = RawProduct(fields: Fields, images: Option<seq<RawImage>>, isAvailable: JsValue, onPromotion: JsValue)

  datatype Product = Product(fields: Fields, images: seq<Image>, isAvailable: bool, onPromotion: bool)

  /** A category as the API returns it. */
  datatype Category = Category(id: int, name: string, image: RawImage)

  /** `path` without one leading '/'. */
  function DropSlash(path: string): (r: string)
    ensures r == path || (StartsWith(path, "/") && r == path[1..])
  {
    if StartsWith(path, "/") then path[1..] else path
  }

  /** `getFullImageUrl(path)`. */
  function GetFullImageUrl(base: string, path: Option<string>): (r: Option<string>)
    ensures r.None? <==> path.None? || path.value == ""
    ensures path.Some? && StartsWith(path.value, "http") ==> r == path
    ensures path.Some? && path.value != "" && !StartsWith(path.value, "http") ==>
      r == Some(base + "/" + DropSlash(ReplaceBackslashes(path.value)))
  {
    if path.None? || path.value == "" then None
    else if StartsWith(path.value, "http") then path
    else
      var normalized := ReplaceBackslashes(path.value);
      if StartsWith(normalized, "/") then
        assert base + normalized == base + "/" + normalized[1..] by {
          assert normalized == "/" + normalized[1..];
        }
        Some(base + normalized)
      else Some(base + "/" + normalized)
  }

  /** A relative path resolves to the base, exactly one '/', and the path with '/' for every '\'. */
  lemma FullUrlShape(base: string, path: string)
    requires path != "" && !StartsWith(path, "http")
    ensures var u := GetFullImageUrl(base, Some(path)).value;
      && StartsWith(u, base + "/")
      && (forall i :: |base| < i < |u| ==> u[i] != '\\')
      && (!StartsWith(path, "/") && !StartsWith(path, "\\") ==> |u| == |base| + 1 + |path|)
  {
    var n := ReplaceBackslashes(path);
    var d := DropSlash(n);
    var u := base + "/" + d;
    assert u[..|base + "/"|] == base + "/";
    forall i | |base| < i < |u|
      ensures u[i] != '\\'
    {
      assert u[i] == d[i - |base| - 1];
      if StartsWith(n, "/") {
        assert d[i - |base| - 1] == n[i - |base|];
      }
    }
    if !StartsWith(path, "/") && !StartsWith(path, "\\") {
      assert path[..1] == [path[0]];
      assert n[..1] == [n[0]];
    }
  }

  /** The image `normalizeImageObject` keeps: one with a usable path, `null` otherwise. */
  function NormalizeImage(base: string, img: RawImage): (r: Option<Image>)
    ensures r.Some? ==> r.value.url != ""
    ensures r.Some? <==> (img.ImageObject? && img.path.Some? && img.path.value != "") || (img.ImagePath? && img.text != "")
  {
    match img
    case ImageObject(path, blurHash) =>
      if path.Some? && path.value != "" then
        Some(Image(GetFullImageUrl(base, path).value, if blurHash == Some("") then None else blurHash))
      else None
    case ImagePath(text) =>
      if text != "" then Some(Image(GetFullImageUrl(base, Some(text)).value, None)) else None
    case NoImage => None
  }

  /** `images.map(normalizeImageObject).filter(img => img && img.url)`. */
  function NormalizeImages(base: string, imgs: seq<RawImage>): (r: seq<Image>)
    ensures |r| <= |imgs|
    ensures forall i :: 0 <= i < |r| ==> r[i].url != ""
  {
    if |imgs| == 0 then []
    else
      var head := NormalizeImage(base, imgs[0]);
      (if head.Some? then [head.value] else []) + NormalizeImages(base, imgs[1..])
  }

  /** Exactly the entries with a usable path survive normalisation. */
  lemma {:induction false} NormalizeImagesCount(base: string, imgs: seq<RawImage>)
    ensures |NormalizeImages(base, imgs)| == |Seqs.Filter(imgs, (img: RawImage) => NormalizeImage(base, img).Some?)|
  {
    if |imgs| > 0 {
      NormalizeImagesCount(base, imgs[1..]);
    }
  }

  /** The kept images come in the order of the raw ones: normalising distributes over concatenation. */
  lemma {:induction false} NormalizeImagesConcat(base: string, a: seq<RawImage>, b: seq<RawImage>)
    ensures NormalizeImages(base, a + b) == NormalizeImages(base, a) + NormalizeImages(base, b)
  {
    if |a| > 0 {
      assert (a + b)[0] == a[0] && (a + b)[1..] == a[1..] + b;
      NormalizeImagesConcat(base, a[1..], b);
    } else {
      assert a + b == b;
    }
  }

  /** `processProductData(product)`. */
  function ProcessProduct(base: string, p: RawProduct): (r: Product)
    ensures r.fields == p.fields
    ensures r.isAvailable == ParseBoolean(p.isAvailable) && r.onPromotion == ParseBoolean(p.onPromotion)
    ensures p.images.None? ==> r.images == []
    ensures p.images.Some? ==> r.images == NormalizeImages(base, p.images.value)
  {
    Product(p.fields, NormalizeImages(base, p.images.GetOr([])), ParseBoolean(p.isAvailable), ParseBoolean(p.onPromotion))
  }

  /**
   * `normalizeImageObject` as written: for an object whose `path` is missing or empty,
   * `imageObject?.path || imageObject` is the object itself, which is truthy, and
   * `getFullImageUrl` then calls `startsWith` on it and throws.
   */
  function NormalizeImageAsWritten(base: string, img: RawImage): (r: Result<Option<Image>>)
    ensures r.Failure? <==> img.ImageObject? && (img.path.None? || img.path.value == "")
    ensures r.Success? ==> r.value == NormalizeImage(base, img)
  {
    if img.ImageObject? && (img.path.None? || img.path.value == "") then
      Failure("TypeError: path.startsWith is not a function")
    else Success(NormalizeImage(base, img))
  }

  /** `processProductData` as written: it throws as soon as one image entry throws. */
  function ProcessProductAsWritten(base: string, p: RawProduct): (r: Result<Product>)
    ensures r.Success? ==> r.value == ProcessProduct(base, p)
  {
    var imgs := p.images.GetOr([]);
    if exists i | 0 <= i < |imgs| :: NormalizeImageAsWritten(base, imgs[i]).Failure? then
      Failure("TypeError: path.startsWith is not a function")
    else Success(ProcessProduct(base, p))
  }

  /** An image object without a path makes the whole product fail to load instead of losing one image. */
  lemma PathlessImageObjectThrows(base: string)
    ensures var p := RawProduct(Fields(1, "Lamp", None, 10, None),
                                Some([ImageObject(None, Some("LKO2")), ImagePath("lamp.png")]),
                                Bool(true), Bool(false));
      && ProcessProductAsWritten(base, p).Failure?
      && ProcessProduct(base, p).images == [Image(base + "/lamp.png", None)]
  {
    var imgs := [ImageObject(None, Some("LKO2")), ImagePath("lamp.png")];
    assert NormalizeImageAsWritten(base, imgs[0]).Failure?;
    assert NormalizeImages(base, imgs[1..]) == [Image(base + "/lamp.png", None)] by {
      assert !StartsWith("lamp.png", "http") && !StartsWith("lamp.png", "/");
      assert ReplaceBackslashes("lamp.png") == "lamp.png";
      assert base + "/" + "lamp.png" == base + "/lamp.png";
      assert GetFullImageUrl(base, Some("lamp.png")) == Some(base + "/lamp.png");
      assert imgs[1..][0] == ImagePath("lamp.png") && imgs[1..][1..] == [];
    }
  }

  // ----- The category chosen by the URL -----

  /** The first category whose `String(id)` is `key`. */
  function FindCategory(categories: seq<Category>, key: string): (r: Option<Category>)
    ensures r.Some? ==> r.value in categories && IntToString(r.value.id) == key
    ensures r.None? <==> forall i :: 0 <= i < |categories| ==> IntToString(categories[i].id) != key
  {
    if |categories| == 0 then None
    else if IntToString(categories[0].id) == key then Some(categories[0])
    else FindCategory(categories[1..], key)
  }

  /** The `selectedCategory` the URL effect sets for the parameter `categoryId`. */
  function ResolveCategory(categoryId: Option<string>, categories: seq<Category>): (r: string)
    ensures categoryId.None? || categoryId == Some("") || categories == [] ==> r == "All"
    ensures categoryId.Some? && FindCategory(categories, categoryId.value).Some? ==>
      r == FindCategory(categories, categoryId.value).value.name
    ensures categoryId.Some? && FindCategory(categories, categoryId.value).None? ==> r == "All"
  {
    if categoryId.Some? && categoryId.value != "" && |categories| > 0 then
      match FindCategory(categories, categoryId.value)
      case Some(c) => c.name
      case None => "All"
    else "All"
  }

  /** Category ids are unique. */
  predicate UniqueIds(categories: seq<Category>) {
    forall i, j :: 0 <= i < j < |categories| ==> categories[i].id != categories[j].id
  }

  /** The decimal id of a listed category finds that category. */
  lemma {:induction false} FindOwnId(categories: seq<Category>, k: int)
    requires UniqueIds(categories) && 0 <= k < |categories|
    ensures FindCategory(categories, IntToString(categories[k].id)) == Some(categories[k])
  {
    var key := IntToString(categories[k].id);
    if k > 0 {
      var tail := categories[1..];
      assert FindCategory(categories, key) == FindCategory(tail, key) by {
        IntToStringInjective(categories[0].id, categories[k].id);
      }
      assert tail[k - 1] == categories[k] && UniqueIds(tail) by {
        UniqueIdsTail(categories);
      }
      FindOwnId(tail, k - 1);
    }
  }

  lemma UniqueIdsTail(categories: seq<Category>)
    requires UniqueIds(categories) && |categories| > 0
    ensures UniqueIds(categories[1..])
  {
    forall i, j | 0 <= i < j < |categories[1..]|
      ensures categories[1..][i].id != categories[1..][j].id
    {
      assert categories[1..][i] == categories[i + 1] && categories[1..][j] == categories[j + 1];
    }
  }

  /** The decimal id of a listed category selects that category's name. */
  lemma ResolveOwnId(categories: seq<Category>, k: int)
    requires UniqueIds(categories) && 0 <= k < |categories|
    ensures ResolveCategory(Some(IntToString(categories[k].id)), categories) == categories[k].name
  {
    FindOwnId(categories, k);
  }

  // ----- The filtered and sorted product list -----

  /** The filter and sort controls of the page. */
  datatype FilterState = FilterState(searchTerm: string, selectedCategory: string, sortMethod: string, showOnlyAvailable: bool)

  predicate MatchesSearch(p: Product, term: string) {
    term == "" || Contains(ToLower(p.fields.name), ToLower(term))
  }

  predicate MatchesCategory(p: Product, category: string) {
    category == "All" || p.fields.category == Some(category)
  }

  /** A product passes every active filter of `st`. */
  predicate Passes(st: FilterState, p: Product) {
    && (!st.showOnlyAvailable || p.isAvailable)
    && MatchesSearch(p, st.searchTerm)
    && MatchesCategory(p, st.selectedCategory)
  }

  /** The products that pass the filters, in catalogue order. */
  function Passing(products: seq<Product>, st: FilterState): seq<Product> {
    Seqs.Filter(products, (p: Product) => Passes(st, p))
  }

  /** The sort methods that reorder the list; any other value leaves the order as it is. */
  predicate Reorders(sortMethod: string) {
    sortMethod in {"price_asc", "price_desc", "name_asc", "newest"}
  }

  /**
   * "May stay before": `a` stays before a later `b` exactly when the comparator of
   * `sortMethod` returns at most 0 for them.
   */
  function SortLeq(sortMethod: string, compare: (string, string) -> int): (r: (Product, Product) -> bool)
    ensures sortMethod != "name_asc" ==> forall a, b :: r(a, b) || r(b, a)
  {
    if sortMethod == "price_asc" then (a: Product, b: Product) => a.fields.price <= b.fields.price
    else if sortMethod == "price_desc" then (a: Product, b: Product) => b.fields.price <= a.fields.price
    else if sortMethod == "name_asc" then (a: Product, b: Product) => compare(a.fields.name, b.fields.name) <= 0
    else (a: Product, b: Product) => b.fields.id <= a.fields.id
  }

  /** The list the grid shows. */
  function Displayed(products: seq<Product>, st: FilterState, compare: (string, string) -> int): (r: seq<Product>)
    ensures |r| <= |products|
  {
    var passing := Passing(products, st);
    if Reorders(st.sortMethod) then Seqs.SortBy(passing, SortLeq(st.sortMethod, compare)) else passing
  }

  /** `filteredAndSortedProducts`: three optional filters, then the sort the method selects. */
  method FilteredAndSorted(products: seq<Product>, st: FilterState, compare: (string, string) -> int)
    returns (r: seq<Product>)
    ensures r == Displayed(products, st, compare)
  {
    var temp := products;
    var query := ToLower(st.searchTerm);
    ghost var stage0 := (p: Product) => true;
    ghost var stage1 := (p: Product) => !st.showOnlyAvailable || p.isAvailable;
    ghost var stage2 := (p: Product) => stage1(p) && MatchesSearch(p, st.searchTerm);
    Seqs.FilterAllPass(products, stage0);
    var available := (p: Product) => p.isAvailable;
    Seqs.FilterStage(products, stage0, st.showOnlyAvailable, available, stage1);
    if st.showOnlyAvailable {
      temp := Seqs.Filter(temp, available);
    }
    var search := (p: Product) => Contains(ToLower(p.fields.name), query);
    Seqs.FilterStage(products, stage1, st.searchTerm != "", search, stage2);
    if st.searchTerm != "" {
      temp := Seqs.Filter(temp, search);
    }
    var category := (p: Product) => p.fields.category == Some(st.selectedCategory);
    Seqs.FilterStage(products, stage2, st.selectedCategory != "All", category, (p: Product) => Passes(st, p));
    if st.selectedCategory != "All" {
      temp := Seqs.Filter(temp, category);
    }
    if Reorders(st.sortMethod) {
      temp := Seqs.SortBy(temp, SortLeq(st.sortMethod, compare));
    }
    r := temp;
  }

  /** The "may stay before" relation of `localeCompare`, a total preorder when `compare` is consistent. */
  ghost predicate ConsistentCompare(compare: (string, string) -> int) {
    Seqs.TotalPreorder((a: Product, b: Product) => compare(a.fields.name, b.fields.name) <= 0)
  }

  /** Each comparator the page sorts with (the name one when `compare` is consistent) is a total preorder. */
  lemma SortLeqPreorder(sortMethod: string, compare: (string, string) -> int)
    requires sortMethod == "name_asc" ==> ConsistentCompare(compare)
    ensures Seqs.TotalPreorder(SortLeq(sortMethod, compare))
  {
  }

  /**
   * Every shown product passes every active filter, and the shown list holds exactly the
   * passing products, each as often as in the catalogue.
   */
  lemma DisplayedIsFilteredPermutation(products: seq<Product>, st: FilterState, compare: (string, string) -> int)
    ensures var r := Displayed(products, st, compare);
      && (forall i :: 0 <= i < |r| ==> Passes(st, r[i]))
      && multiset(r) == multiset(Passing(products, st))
      && (forall p :: multiset(r)[p] == if Passes(st, p) then multiset(products)[p] else 0)
  {
    var r := Displayed(products, st, compare);
    forall i | 0 <= i < |r|
      ensures Passes(st, r[i])
    {
      assert r[i] in multiset(r);
    }
  }

  /** With `best_match` (or any unknown method) the passing products keep their catalogue order. */
  lemma BestMatchKeepsOrder(products: seq<Product>, st: FilterState, compare: (string, string) -> int)
    requires !Reorders(st.sortMethod)
    ensures Displayed(products, st, compare) == Passing(products, st)
    ensures forall a, b :: Displayed(a + b, st, compare) == Displayed(a, st, compare) + Displayed(b, st, compare)
  {
    forall a, b
      ensures Displayed(a + b, st, compare) == Displayed(a, st, compare) + Displayed(b, st, compare)
    {
      Seqs.FilterConcat(a, b, (p: Product) => Passes(st, p));
    }
  }

  /** Each sort method orders the shown list by its key. */
  lemma DisplayedSorted(products: seq<Product>, st: FilterState, compare: (string, string) -> int)
    requires st.sortMethod == "name_asc" ==> ConsistentCompare(compare)
    ensures var r := Displayed(products, st, compare);
      && (st.sortMethod == "price_asc" ==> forall i, j :: 0 <= i < j < |r| ==> r[i].fields.price <= r[j].fields.price)
      && (st.sortMethod == "price_desc" ==> forall i, j :: 0 <= i < j < |r| ==> r[i].fields.price >= r[j].fields.price)
      && (st.sortMethod == "newest" ==> forall i, j :: 0 <= i < j < |r| ==> r[i].fields.id >= r[j].fields.id)
      && (st.sortMethod == "name_asc" ==> forall i, j :: 0 <= i < j < |r| ==> compare(r[i].fields.name, r[j].fields.name) <= 0)
  {
    if Reorders(st.sortMethod) {
      SortLeqPreorder(st.sortMethod, compare);
      Seqs.SortBySorted(Passing(products, st), SortLeq(st.sortMethod, compare));
    }
  }

  /**
   * When no two passing products cost the same, sorting from high to low price shows
   * exactly the reverse of sorting from low to high.
   */
  lemma PriceDescReversesPriceAsc(products: seq<Product>, st: FilterState, compare: (string, string) -> int)
    requires Seqs.DistinctKeys(Passing(products, st), (p: Product) => p.fields.price)
    ensures Displayed(products, st.(sortMethod := "price_desc"), compare)
         == Seqs.Reverse(Displayed(products, st.(sortMethod := "price_asc"), compare))
  {
    var asc, desc := st.(sortMethod := "price_asc"), st.(sortMethod := "price_desc");
    var price := (p: Product) => p.fields.price;
    var passing := Passing(products, st);
    Seqs.FilterExt(products, (p: Product) => Passes(st, p), (p: Product) => Passes(asc, p));
    Seqs.FilterExt(products, (p: Product) => Passes(st, p), (p: Product) => Passes(desc, p));
    var a, b := Displayed(products, asc, compare), Displayed(products, desc, compare);
    DisplayedIsFilteredPermutation(products, asc, compare);
    DisplayedIsFilteredPermutation(products, desc, compare);
    DisplayedSorted(products, asc, compare);
    DisplayedSorted(products, desc, compare);
    Seqs.DistinctKeysPermutation(passing, a, price);
    Seqs.DistinctKeysPermutation(passing, b, price);
    Seqs.OppositeOrdersReverse(a, b, price);
  }

  /** Running the pipeline again on what it shows, with the same controls, shows the same list. */
  lemma DisplayedIdempotent(products: seq<Product>, st: FilterState, compare: (string, string) -> int)
    requires st.sortMethod == "name_asc" ==> ConsistentCompare(compare)
    ensures Displayed(Displayed(products, st, compare), st, compare) == Displayed(products, st, compare)
  {
    var r := Displayed(products, st, compare);
    DisplayedIsFilteredPermutation(products, st, compare);
    Seqs.FilterAllPass(r, (p: Product) => Passes(st, p));
    if Reorders(st.sortMethod) {
      DisplayedSorted(products, st, compare);
      SortLeqPreorder(st.sortMethod, compare);
      Seqs.SortBySorted(Passing(products, st), SortLeq(st.sortMethod, compare));
      Seqs.SortByOfSorted(r, SortLeq(st.sortMethod, compare));
    }
  }

  /** `resultCount` is the number of products that pass the filters, whatever the sort. */
  lemma ResultCount(products: seq<Product>, st: FilterState, compare: (string, string) -> int)
    ensures |Displayed(products, st, compare)| == |Passing(products, st)|
    ensures |Displayed(products, st, compare)| <= |products|
  {
  }

  /** An empty search term filters nothing out, just as skipping the search stage does. */
  lemma EmptySearchKeepsAll(p: Product)
    ensures Contains(ToLower(p.fields.name), ToLower(""))
  {
    ContainsEmpty(ToLower(p.fields.name));
  }
}
