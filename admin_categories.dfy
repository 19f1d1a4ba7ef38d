/**
 * The category manager of the admin dashboard, src/pages/dashboard/Categories.jsx: the
 * image path normalisation, the per-category product count, and the guarded add, edit
 * and delete actions over the page's state. `API_URL` is the parameter `base`; each API
 * call's outcome is a parameter of the action that makes it.
 */
module AdminCategories {
  import opened Wrappers
  import opened Text
  import Seqs
  import Shop
  import AdminProducts

  /** A category as the API returns it. */
  datatype CategoryData = CategoryData(id: int, name: string, image: Option<string>)

  /** A category of the page's list: the API's fields plus the `imageUrl` for display. */
  datatype Category = Category(id: int, name: string, image: Option<string>, imageUrl: Option<string>)

  /** A file chosen in an image input. */
  datatype File = File(name: string)

  /** `normalizeImagePath(relativePath)`; it builds the same url as the catalogue's `getFullImageUrl`. */
  method NormalizeImagePath(base: string, relativePath: Option<string>) returns (r: Option<string>)
    ensures r == Shop.GetFullImageUrl(base, relativePath)
    ensures r.Some? && !StartsWith(relativePath.value, "http") ==> StartsWith(r.value, base + "/")
  {
    if relativePath.None? || relativePath.value == "" {
      return None;
    }
    if StartsWith(relativePath.value, "http") {
      return relativePath;
    }
    var normalized := ReplaceBackslashes(relativePath.value);
    var path := normalized;
    if !StartsWith(path, "/") {
      path := "/" + path;
    }
    assert base + path == base + "/" + Shop.DropSlash(normalized) by {
      if StartsWith(normalized, "/") {
        assert normalized == "/" + normalized[1..];
      }
      Seqs.ConcatAssoc(base, "/", Shop.DropSlash(normalized));
    }
    Shop.FullUrlShape(base, relativePath.value);
    return Some(base + path);
  }

  /** `{ ...c, imageUrl: normalizeImagePath(c.image) }`. */
  function WithImageUrl(base: string, c: CategoryData): (r: Category)
    ensures r.id == c.id && r.name == c.name && r.image == c.image
    ensures r.imageUrl == Shop.GetFullImageUrl(base, c.image)
  {
    Category(c.id, c.name, c.image, Shop.GetFullImageUrl(base, c.image))
  }

  /** The first category with the given id (`null` matches none). */
  function FindById(categories: seq<Category>, id: Option<int>): (r: Option<Category>)
    ensures r.Some? ==> id.Some? && r.value in categories && r.value.id == id.value
    ensures r.None? <==> id.None? || forall i :: 0 <= i < |categories| ==> categories[i].id != id.value
  {
    if id.None? || |categories| == 0 then None
    else if categories[0].id == id.value then Some(categories[0])
    else FindById(categories[1..], id)
  }

  /** The products filed under the category called `name`. */
  function InCategory(products: seq<AdminProducts.RawProduct>, name: string): seq<AdminProducts.RawProduct> {
    Seqs.Filter(products, (p: AdminProducts.RawProduct) => p.category == Some(name))
  }

  /** `getProductCount(categoryId)`. */
  function GetProductCount(categories: seq<Category>, products: seq<AdminProducts.RawProduct>, id: Option<int>): (n: nat)
    ensures n <= |products|
    ensures FindById(categories, id).None? ==> n == 0
    ensures FindById(categories, id).Some? ==> n == |InCategory(products, FindById(categories, id).value.name)|
  {
    match FindById(categories, id)
    case None => 0
    case Some(c) => |InCategory(products, c.name)|
  }

  /** A category counts a product exactly when the product is filed under its name. */
  lemma ProductCountZero(categories: seq<Category>, products: seq<AdminProducts.RawProduct>, id: Option<int>)
    requires FindById(categories, id).Some?
    ensures GetProductCount(categories, products, id) == 0 <==>
      forall i :: 0 <= i < |products| ==> products[i].category != Some(FindById(categories, id).value.name)
  {
    var name := FindById(categories, id).value.name;
    var inCat := (p: AdminProducts.RawProduct) => p.category == Some(name);
    if exists i :: 0 <= i < |products| && products[i].category == Some(name) {
      var i :| 0 <= i < |products| && products[i].category == Some(name);
      assert products[i] in multiset(products);
      assert multiset(InCategory(products, name))[products[i]] > 0;
    }
  }

  /** The list after a delete: `categories.filter(c => c.id !== deleteId)`. */
  function WithoutId(categories: seq<Category>, id: Option<int>): (r: seq<Category>)
    ensures id.None? ==> r == categories
    ensures id.Some? ==> forall i :: 0 <= i < |r| ==> r[i].id != id.value
    ensures forall c :: c in r <==> c in categories && Keeps(id, c)
  {
    var r := Seqs.Filter(categories, (c: Category) => Keeps(id, c));
    assert forall c :: c in r <==> c in categories && Keeps(id, c) by {
      forall c
        ensures c in r <==> c in categories && Keeps(id, c)
      {
        assert c in r <==> c in multiset(r);
        assert c in categories <==> c in multiset(categories);
      }
    }
    if id.None? then
      Seqs.FilterAllPass(categories, (c: Category) => Keeps(id, c));
      r
    else r
  }

  /** `c.id !== deleteId`: every category differs from a `null` id. */
  predicate Keeps(id: Option<int>, c: Category) {
    id.None? || c.id != id.value
  }

  /** `fetched.map(c => ({ ...c, imageUrl: normalizeImagePath(c.image) }))`. */
  function Listed(base: string, fetched: seq<CategoryData>): seq<Category> {
    seq(|fetched|, k requires 0 <= k < |fetched| => WithImageUrl(base, fetched[k]))
  }

  /** The fetched list as the page stores it, each category with its `imageUrl`, in order. */
  method WithImageUrls(base: string, fetched: seq<CategoryData>) returns (r: seq<Category>)
    ensures |r| == |fetched|
    ensures forall k :: 0 <= k < |r| ==> r[k].id == fetched[k].id && r[k].name == fetched[k].name
    ensures forall k :: 0 <= k < |r| ==> r[k].imageUrl == Shop.GetFullImageUrl(base, fetched[k].image)
    ensures r == Listed(base, fetched)
  {
    r := [];
    var i := 0;
    while i < |fetched|
      invariant 0 <= i <= |fetched|
      invariant |r| == i
      invariant forall k :: 0 <= k < i ==> r[k] == WithImageUrl(base, fetched[k])
    {
      var url := NormalizeImagePath(base, fetched[i].image);
      r := r + [Category(fetched[i].id, fetched[i].name, fetched[i].image, url)];
      i := i + 1;
    }
  }

  /** The edited category shows an image: it exists and its `imageUrl` is non-empty. */
  predicate HasImageUrl(current: Option<Category>) {
    current.Some? && current.value.imageUrl.Some? && current.value.imageUrl.value != ""
  }

  /** `saveEdit` goes ahead: a non-blank name, and an image from the category or a new file. */
  predicate CanSave(categories: seq<Category>, editingId: Option<int>, editingValue: string, file: Option<File>) {
    !IsBlank(editingValue) && (HasImageUrl(FindById(categories, editingId)) || file.Some?)
  }

  /** The page's state and its actions. */
  class CategoryManager {
    var categories: seq<Category>
    var products: seq<AdminProducts.RawProduct>
    var isAdding: bool
    var categoryInput: string
    var newImageFile: Option<File>
    var editingId: Option<int>
    var editingValue: string
    var editingImageFile: Option<File>
    var deleteId: Option<int>

    constructor ()
      ensures categories == [] && products == [] && !isAdding && categoryInput == ""
      ensures newImageFile.None? && editingId.None? && editingValue == "" && editingImageFile.None? && deleteId.None?
    {
      categories := [];
      products := [];
      isAdding := false;
      categoryInput := "";
      newImageFile := None;
      editingId := None;
      editingValue := "";
      editingImageFile := None;
      deleteId := None;
    }

    /**
     * `addCategory`: refused while an add is running, for a blank name or without an
     * image; otherwise it sends the trimmed name and the image (`sent`) and, when the API
     * answers with the new category (`reply`), appends it and clears the inputs.
     */
    method AddCategory(base: string, reply: Option<CategoryData>) returns (sent: Option<(string, File)>)
      modifies this
      ensures old(isAdding) || IsBlank(old(categoryInput)) || old(newImageFile).None? ==>
        sent.None? && categories == old(categories) && categoryInput == old(categoryInput)
        && newImageFile == old(newImageFile) && isAdding == old(isAdding)
      ensures !old(isAdding) && !IsBlank(old(categoryInput)) && old(newImageFile).Some? ==>
        && sent == Some((Trim(old(categoryInput)), old(newImageFile).value))
        && !isAdding
        && (reply.Some? ==> categories == old(categories) + [WithImageUrl(base, reply.value)]
                            && categoryInput == "" && newImageFile.None?)
        && (reply.None? ==> categories == old(categories) && categoryInput == old(categoryInput)
                            && newImageFile == old(newImageFile))
      ensures products == old(products) && editingId == old(editingId) && editingValue == old(editingValue)
      ensures editingImageFile == old(editingImageFile) && deleteId == old(deleteId)
    {
      if isAdding {
        return None;
      }
      if IsBlank(categoryInput) {
        return None;
      }
      if newImageFile.None? {
        return None;
      }
      isAdding := true;
      sent := Some((Trim(categoryInput), newImageFile.value));
      if reply.Some? {
        var url := NormalizeImagePath(base, reply.value.image);
        categories := categories + [Category(reply.value.id, reply.value.name, reply.value.image, url)];
        categoryInput := "";
        newImageFile := None;
      }
      isAdding := false;
    }

    /**
     * `saveEdit`: refused for a blank name, and when neither the edited category's
     * `imageUrl` nor a newly chosen file supplies an image; otherwise it sends the id, the
     * trimmed name and the file (`sent`) and, when the update succeeds (`ok`), reloads the
     * lists (`reloaded`, absent when the reload fails) and leaves edit mode.
     */
    method SaveEdit(base: string, ok: bool, reloaded: Option<(seq<CategoryData>, seq<AdminProducts.RawProduct>)>)
      returns (sent: Option<(Option<int>, string, Option<File>)>)
      modifies this
      ensures !CanSave(old(categories), old(editingId), old(editingValue), old(editingImageFile)) ==>
        sent.None? && categories == old(categories) && editingId == old(editingId)
        && editingValue == old(editingValue) && editingImageFile == old(editingImageFile)
      ensures CanSave(old(categories), old(editingId), old(editingValue), old(editingImageFile)) ==>
        sent == Some((old(editingId), Trim(old(editingValue)), old(editingImageFile)))
      ensures ok && sent.Some? ==> editingId.None? && editingValue == "" && editingImageFile.None?
      ensures ok && sent.Some? && reloaded.Some? ==>
        categories == Listed(base, reloaded.value.0) && products == reloaded.value.1
      ensures !ok || sent.None? || reloaded.None? ==> categories == old(categories) && products == old(products)
      ensures !ok ==> editingId == old(editingId) && editingValue == old(editingValue) && editingImageFile == old(editingImageFile)
      ensures isAdding == old(isAdding) && categoryInput == old(categoryInput) && newImageFile == old(newImageFile)
      ensures deleteId == old(deleteId)
    {
      if !CanSave(categories, editingId, editingValue, editingImageFile) {
        return None;
      }
      sent := Some((editingId, Trim(editingValue), editingImageFile));
      if !ok {
        return;
      }
      if reloaded.Some? {
        categories := WithImageUrls(base, reloaded.value.0);
        products := reloaded.value.1;
      }
      editingId := None;
      editingValue := "";
      editingImageFile := None;
    }

    /**
     * `handleDelete`: refused (and the pending id cleared) while products are filed under
     * the category; otherwise it calls the API (`called`) and, when that succeeds (`ok`),
     * drops the category and clears the pending id.
     */
    method HandleDelete(ok: bool) returns (called: bool)
      modifies this
      ensures called <==> GetProductCount(old(categories), old(products), old(deleteId)) == 0
      ensures !called ==> categories == old(categories) && deleteId.None?
      ensures called && ok ==> categories == WithoutId(old(categories), old(deleteId)) && deleteId.None?
      ensures called && !ok ==> categories == old(categories) && deleteId == old(deleteId)
      ensures products == old(products) && isAdding == old(isAdding) && categoryInput == old(categoryInput)
      ensures newImageFile == old(newImageFile) && editingId == old(editingId)
      ensures editingValue == old(editingValue) && editingImageFile == old(editingImageFile)
    {
      var count := GetProductCount(categories, products, deleteId);
      if count > 0 {
        deleteId := None;
        return false;
      }
      called := true;
      if ok {
        categories := WithoutId(categories, deleteId);
        deleteId := None;
      }
    }
  }

  /** A category that still has products is never removed by a delete. */
  lemma DeleteKeepsNonEmptyCategory(categories: seq<Category>, products: seq<AdminProducts.RawProduct>, id: int, k: int)
    requires 0 <= k < |products| && FindById(categories, Some(id)).Some?
    requires products[k].category == Some(FindById(categories, Some(id)).value.name)
    ensures GetProductCount(categories, products, Some(id)) > 0
  {
    ProductCountZero(categories, products, Some(id));
  }
}
