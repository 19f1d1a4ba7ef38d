/**
 * The landing page, src/pages/Home.jsx: the first eight available products, as the API
 * returns them, and the first four categories as tiles.
 */
module Home {
  import opened Wrappers
  import opened Js
  import Seqs
  import Shop
  import CategoriesPage
  import Url

  const FeaturedCount: nat := 8
  const TileCount: nat := 4

  /** The raw `isAvailable` test: JavaScript truthiness, without `parseBoolean`. */
  predicate RawAvailable(p: Shop.RawProduct)
    ensures ParseBoolean(p.isAvailable) && p.isAvailable != Str("") ==> RawAvailable(p)
  {
    Truthy(p.isAvailable)
  }

  /** `productResponse.data.filter(p => p.isAvailable).slice(0, 8)`. */
  function Featured(products: seq<Shop.RawProduct>): (r: seq<Shop.RawProduct>)
    ensures |r| <= FeaturedCount
    ensures forall i :: 0 <= i < |r| ==> RawAvailable(r[i])
  {
    Seqs.Take(Seqs.Filter(products, RawAvailable), FeaturedCount)
  }

  /** Every featured product comes from the list, and with eight available products eight are shown. */
  lemma FeaturedFromList(products: seq<Shop.RawProduct>)
    ensures forall i :: 0 <= i < |Featured(products)| ==> Featured(products)[i] in products
    ensures |Seqs.Filter(products, RawAvailable)| >= FeaturedCount ==> |Featured(products)| == FeaturedCount
  {
    var f := Seqs.Filter(products, RawAvailable);
    forall i | 0 <= i < |Featured(products)|
      ensures Featured(products)[i] in products
    {
      Seqs.FilterSubset(products, RawAvailable, i);
    }
  }

  /** Only the first eight available products matter: products after them are never featured. */
  lemma FeaturedIgnoresLater(a: seq<Shop.RawProduct>, b: seq<Shop.RawProduct>)
    requires |Seqs.Filter(a, RawAvailable)| >= FeaturedCount
    ensures Featured(a + b) == Featured(a)
  {
    var fa, fb := Seqs.Filter(a, RawAvailable), Seqs.Filter(b, RawAvailable);
    assert Seqs.Filter(a + b, RawAvailable) == fa + fb by {
      Seqs.FilterConcat(a, b, RawAvailable);
    }
    Seqs.TakeConcat(fa, fb, FeaturedCount);
  }

  /**
   * A product stored with `isAvailable: "false"` is featured here, while the catalogue,
   * which reads the flag with `parseBoolean`, marks it unavailable.
   */
  lemma FeaturedDespiteFalseString(p: Shop.RawProduct)
    requires p.isAvailable == Str("false")
    ensures Featured([p]) == [p]
    ensures !Shop.ProcessProduct("", p).isAvailable
  {
    TruthyVersusParseBoolean(p.isAvailable);
    assert [p][1..] == [];
  }

  /** `categories.slice(0, 4)`. */
  function HomeCategories(categories: seq<Shop.Category>): (r: seq<Shop.Category>)
    ensures |r| == Seqs.Min(TileCount, |categories|)
    ensures r == categories[..|r|]
  {
    Seqs.Take(categories, TileCount)
  }

  /** `typeof image === 'string' ? image : image?.path`. */
  function TileImage(img: Shop.RawImage): (r: Option<string>)
    ensures img.ImagePath? ==> r == Some(img.text)
    ensures img.ImageObject? ==> r == img.path
    ensures img.NoImage? ==> r.None?
  {
    match img
    case ImagePath(text) => Some(text)
    case ImageObject(path, _) => path
    case NoImage => None
  }

  /** The tile shows a picture when its source is a non-empty string. */
  predicate ShowsImage(img: Shop.RawImage) {
    TileImage(img).Some? && TileImage(img).value != ""
  }

  /** The landing page and the category page picture the same categories. */
  lemma TilesAgreeWithCategoryPage(base: string, c: Shop.Category)
    ensures ShowsImage(c.image) <==> CategoriesPage.ProcessCategory(base, c).imageUrl.Some?
  {
  }

  /** The landing page's tile links where the category page's does, so it selects the same category. */
  lemma HomeTileSelectsCategory(categories: seq<Shop.Category>, k: int)
    requires Shop.UniqueIds(categories) && 0 <= k < |categories| && k < TileCount
    ensures HomeCategories(categories)[k] == categories[k]
    ensures Shop.ResolveCategory(Url.SearchParam(CategoriesPage.TileUrl(HomeCategories(categories)[k].id), CategoriesPage.CategoryIdName), categories)
         == categories[k].name
  {
    CategoriesPage.TileSelectsCategory(categories, k);
  }
}
