/**
 * The public category list, src/pages/CategoriesPage.jsx: each fetched category gets an
 * `imageUrl` built by the same `getFullImageUrl` as the catalogue (`Shop.GetFullImageUrl`,
 * with `BACKEND_URL` as `base`), and each tile links to the catalogue filtered by it.
 */
module CategoriesPage {
  import opened Wrappers
  import opened Text
  import opened Shop
  import Url

  /** A category as the page lists it: the fetched fields plus `imageUrl`. */
  datatype ListedCategory = ListedCategory(id: int, name: string, image: RawImage, imageUrl: Option<string>)

  /**
   * `category.image?.path || category.image` where the result is a path: the object's
   * path, or the bare string; an object without a usable path gives none.
   */
  function ImagePathOf(img: RawImage): (r: Option<string>)
    ensures img.ImagePath? ==> r == Some(img.text)
    ensures img.ImageObject? && img.path.Some? && img.path.value != "" ==> r == img.path
    ensures img.NoImage? ==> r.None?
  {
    match img
    case ImageObject(path, _) => if path.Some? && path.value != "" then path else None
    case ImagePath(text) => Some(text)
    case NoImage => None
  }

  /** `processCategoryData(category)`. */
  function ProcessCategory(base: string, c: Category): (r: ListedCategory)
    ensures r.id == c.id && r.name == c.name && r.image == c.image
    ensures r.imageUrl.Some? <==>
      (c.image.ImageObject? && c.image.path.Some? && c.image.path.value != "")
      || (c.image.ImagePath? && c.image.text != "")
    ensures r.imageUrl == GetFullImageUrl(base, ImagePathOf(c.image))
  {
    ListedCategory(c.id, c.name, c.image, GetFullImageUrl(base, ImagePathOf(c.image)))
  }

  /** The categories the page shows once they are loaded. */
  function Load(base: string, fetched: seq<Category>): (r: seq<ListedCategory>)
    ensures |r| == |fetched|
    ensures forall i :: 0 <= i < |r| ==> r[i] == ProcessCategory(base, fetched[i])
  {
    seq(|fetched|, i requires 0 <= i < |fetched| => ProcessCategory(base, fetched[i]))
  }

  /**
   * `processCategoryData` as written: for an image object without a path the object itself
   * reaches `getFullImageUrl`, whose `path.startsWith` throws.
   */
  function ProcessCategoryAsWritten(base: string, c: Category): (r: Result<ListedCategory>)
    ensures r.Failure? <==> c.image.ImageObject? && (c.image.path.None? || c.image.path.value == "")
    ensures r.Success? ==> r.value == ProcessCategory(base, c)
  {
    if c.image.ImageObject? && (c.image.path.None? || c.image.path.value == "") then
      Failure("TypeError: path.startsWith is not a function")
    else Success(ProcessCategory(base, c))
  }

  /**
   * The categories shown as written: the `map` runs inside the `try`, so one throw leaves
   * the initial empty list in place.
   */
  function LoadAsWritten(base: string, fetched: seq<Category>): (r: seq<ListedCategory>)
    ensures (exists i :: 0 <= i < |fetched| && ProcessCategoryAsWritten(base, fetched[i]).Failure?) ==> r == []
    ensures (forall i :: 0 <= i < |fetched| ==> ProcessCategoryAsWritten(base, fetched[i]).Success?) ==> r == Load(base, fetched)
  {
    if exists i :: 0 <= i < |fetched| && ProcessCategoryAsWritten(base, fetched[i]).Failure? then []
    else Load(base, fetched)
  }

  /** One category whose image object has no path empties the whole page. */
  lemma PathlessCategoryEmptiesPage(base: string)
    ensures var fetched := [Category(1, "Lamps", ImagePath("lamps.png")), Category(2, "Rugs", ImageObject(None, None))];
      && LoadAsWritten(base, fetched) == []
      && |Load(base, fetched)| == 2
      && Load(base, fetched)[0].imageUrl == Some(base + "/lamps.png")
      && Load(base, fetched)[1].imageUrl.None?
  {
    var fetched := [Category(1, "Lamps", ImagePath("lamps.png")), Category(2, "Rugs", ImageObject(None, None))];
    assert ProcessCategoryAsWritten(base, fetched[1]).Failure?;
    assert !StartsWith("lamps.png", "http") && !StartsWith("lamps.png", "/");
    assert ReplaceBackslashes("lamps.png") == "lamps.png";
    assert base + "/" + "lamps.png" == base + "/lamps.png";
  }

  const ShopPath: string := "/shop"

  const CategoryIdName: string := "categoryId"

  /** The tile link, `/shop?categoryId=${category.id}`: the catalogue reads the id back from it. */
  function TileUrl(id: int): (r: string)
    ensures Url.SearchParam(r, CategoryIdName) == Some(IntToString(id))
  {
    var digits := IntToString(id);
    TileParts(id);
    Url.ParamAlone(ShopPath, CategoryIdName, digits);
    ShopPath + "?" + CategoryIdName + "=" + digits
  }

  /** The parts of a tile link hold nothing that cuts a query short or decodes differently. */
  lemma TileParts(id: int)
    ensures '?' !in ShopPath && '#' !in ShopPath
    ensures CategoryIdName != "" && Url.Plain(CategoryIdName) && Url.Decode(CategoryIdName) == CategoryIdName
    ensures var digits := IntToString(id);
      '%' !in digits && '+' !in digits && '&' !in digits && '#' !in digits && Url.Decode(digits) == digits
  {
    var digits := IntToString(id);
    IntToStringDigits(id);
    assert '%' !in CategoryIdName && '+' !in CategoryIdName;
    assert forall i :: 0 <= i < |digits| ==> digits[i] == '-' || IsDigit(digits[i]);
  }

  /** Following a tile opens the catalogue with that category selected. */
  lemma TileSelectsCategory(categories: seq<Category>, k: int)
    requires UniqueIds(categories) && 0 <= k < |categories|
    ensures ResolveCategory(Url.SearchParam(TileUrl(categories[k].id), CategoryIdName), categories) == categories[k].name
  {
    ResolveOwnId(categories, k);
  }
}
