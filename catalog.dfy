// The catalog routes: products (backend/routes/productRoutes.js) and
// categories (backend/routes/categoryRoutes.js), with the field rules of
// their schemas (backend/models/Product.js, backend/models/Category.js).
// Each collection is an in-memory sequence held by a store class.

module Catalog {
  import opened Wrappers
  import opened Text
  import Sorting

  datatype Product = Product(
    id: nat,
    name: string,
    description: string,
    category: string,
    price: int,
    imageUrl: string,
    countInStock: int)

  datatype Category = Category(id: nat, name: string, slug: string)

  datatype Body =
    | ProductBody(product: Product)
    | ProductList(products: seq<Product>)
    | CategoryBody(category: Category)
    | CategoryList(categories: seq<Category>)
    | Message(text: string)

  datatype Response = Response(status: int, body: Body)

  // ----- The upload filter -----

  /** A file in the multipart request: the client's file name, its MIME type, and the
      path the disk storage saved it under. */
  datatype UploadedFile = UploadedFile(originalName: string, mimeType: string, path: string)

  /** The part of a path after its last '/' (all of it when there is none). */
  function BaseName(name: string): (b: string)
    ensures '/' !in b
    ensures |b| <= |name| && b == name[|name| - |b|..]
    ensures |b| < |name| ==> name[|name| - |b| - 1] == '/'
  {
    name[LastIndexOf(name, '/') + 1..]
  }

  /** `k` is the last '.' of `base`, and it is not the first character. */
  predicate ExtensionDotAt(base: string, k: int) {
    0 < k < |base| && base[k] == '.' && '.' !in base[k + 1..]
  }

  /** The extension dot, when there is one, is the last '.' of the base name. */
  lemma ExtensionDotIsLastDot(base: string)
    ensures forall k :: ExtensionDotAt(base, k) ==> k == LastIndexOf(base, '.')
  {
    var dot := LastIndexOf(base, '.');
    forall k | ExtensionDotAt(base, k) ensures k == dot {
      assert base[k] == '.';
    }
  }

  /** `ext` is node's extension of the base name `base`: the suffix from the extension
      dot, or empty when there is none or the base name is "..". */
  ghost predicate IsExtensionOf(base: string, ext: string) {
    && (forall k :: ExtensionDotAt(base, k) && base != ".." ==> ext == base[k..])
    && ((forall k :: !ExtensionDotAt(base, k)) || base == ".." ==> ext == "")
  }

  /** Empty, or a '.' followed by no further '.'. */
  predicate DotSuffix(ext: string) {
    ext == "" || (ext[0] == '.' && '.' !in ext[1..])
  }

  /** The extension of a base name: from its last '.' to its end; empty when it has no
      '.', starts with its only '.', or is "..". */
  function BaseExtension(base: string): (r: string)
    ensures IsExtensionOf(base, r)
    ensures DotSuffix(r)
    ensures |r| <= |base| && r == base[|base| - |r|..]
  {
    var dot := LastIndexOf(base, '.');
    if dot <= 0 then
      NoExtensionDot(base);
      ""
    else if base == ".." then ""
    else
      ExtensionDotIsLastDot(base);
      assert ExtensionDotAt(base, dot);
      base[dot..]
  }

  lemma NoExtensionDot(base: string)
    requires LastIndexOf(base, '.') <= 0
    ensures forall k :: !ExtensionDotAt(base, k)
  {
    ExtensionDotIsLastDot(base);
  }

  /** path.extname: the extension of the part after the last '/'. */
  function Extname(name: string): (r: string)
    ensures IsExtensionOf(BaseName(name), r)
    ensures DotSuffix(r) && '/' !in r
    ensures |r| <= |name| && r == name[|name| - |r|..]
  {
    var base := BaseName(name);
    var r := BaseExtension(base);
    SuffixOfSuffix(name, base, |base| - |r|);
    r
  }

  lemma SuffixOfSuffix(name: string, base: string, i: nat)
    requires |base| <= |name| && base == name[|name| - |base|..] && i <= |base| && '/' !in base
    ensures base[i..] == name[|name| - |base[i..]|..] && '/' !in base[i..]
  {
  }

  /** The unanchored test `/jpg|jpeg|png|webp/.test(s)`. */
  predicate MatchesImageType(s: string) {
    Contains(s, "jpg") || Contains(s, "jpeg") || Contains(s, "png") || Contains(s, "webp")
  }

  datatype FileCheck = Accept | Reject(message: string)

  /** checkFileType: both the lower-cased extension and the MIME type must match. */
  function CheckFileType(f: UploadedFile): (r: FileCheck)
    ensures r == Accept <==> MatchesImageType(ToLower(Extname(f.originalName))) && MatchesImageType(f.mimeType)
    ensures r != Accept ==> r == Reject("Images only!")
  {
    var extname := MatchesImageType(ToLower(Extname(f.originalName)));
    var mimetype := MatchesImageType(f.mimeType);
    if extname && mimetype then Accept else Reject("Images only!")
  }

  /** A pattern with a character the text lacks does not occur in it. */
  lemma MissingCharNotContained(s: string, p: string, c: char)
    requires c in p && c !in s
    ensures !Contains(s, p)
  {
  }

  /** The extension of a name without '/' whose last '.' is at `k > 0`. */
  lemma ExtnameOfPlainName(n: string, k: nat)
    requires '/' !in n && 0 < k < |n| && n[k] == '.' && '.' !in n[k + 1..] && n != ".."
    ensures Extname(n) == n[k..]
  {
    assert n[0..] == n;
    assert BaseName(n) == n;
    assert ExtensionDotAt(n, k);
  }

  /** A text in which one of the four type names occurs passes the test. */
  lemma OccurrenceMatches(s: string, p: string, i: nat)
    requires p == "jpg" || p == "jpeg" || p == "png" || p == "webp"
    requires OccursAt(s, p, i)
    ensures MatchesImageType(s)
  {
  }

  /** A text without 'j', 'p' and 'w' fails the test. */
  lemma NoTypeLetterNoMatch(s: string)
    requires 'j' !in s && 'p' !in s && 'w' !in s
    ensures !MatchesImageType(s)
  {
    MissingCharNotContained(s, "jpg", 'j');
    MissingCharNotContained(s, "jpeg", 'j');
    MissingCharNotContained(s, "png", 'p');
    MissingCharNotContained(s, "webp", 'w');
  }

  lemma ImageJpegMatches()
    ensures MatchesImageType("image/jpeg")
  {
    OccurrenceMatches("image/jpeg", "jpeg", 6);
  }

  /** A plain name whose lower-cased extension contains a type name passes the test. */
  lemma ExtensionWithTypeName(n: string, k: nat, p: string, i: nat)
    requires '/' !in n && 0 < k < |n| && n[k] == '.' && '.' !in n[k + 1..] && n != ".."
    requires p == "jpg" || p == "jpeg" || p == "png" || p == "webp"
    requires OccursAt(ToLower(n[k..]), p, i)
    ensures MatchesImageType(ToLower(Extname(n)))
  {
    ExtnameOfPlainName(n, k);
    OccurrenceMatches(ToLower(n[k..]), p, i);
  }

  /** A plain name whose lower-cased extension lacks 'j', 'p' and 'w' fails the test. */
  lemma ExtensionWithoutTypeLetters(n: string, k: nat)
    requires '/' !in n && 0 < k < |n| && n[k] == '.' && '.' !in n[k + 1..] && n != ".."
    requires 'j' !in ToLower(n[k..]) && 'p' !in ToLower(n[k..]) && 'w' !in ToLower(n[k..])
    ensures !MatchesImageType(ToLower(Extname(n)))
  {
    ExtnameOfPlainName(n, k);
    NoTypeLetterNoMatch(ToLower(n[k..]));
  }

  /** An upper-case extension is accepted: the extension is lower-cased first. */
  lemma UpperCaseExtensionAccepted(path: string)
    ensures CheckFileType(UploadedFile("Photo.JPG", "image/jpeg", path)) == Accept
  {
    ExtensionWithTypeName("Photo.JPG", 5, "jpg", 1);
    ImageJpegMatches();
  }

  /** Only the last extension counts. */
  lemma LastExtensionCounts(path: string)
    ensures CheckFileType(UploadedFile("photo.png.exe", "image/png", path)) == Reject("Images only!")
  {
    ExtensionWithoutTypeLetters("photo.png.exe", 9);
  }

  /** The test is a substring test: an extension that merely contains a type name passes. */
  lemma UnanchoredMatchAccepted(path: string)
    ensures CheckFileType(UploadedFile("photo.jpgx", "image/jpeg", path)) == Accept
  {
    ExtensionWithTypeName("photo.jpgx", 5, "jpg", 1);
    ImageJpegMatches();
  }

  // ----- The stored image URL -----

  const PlaceholderImageUrl: string := "https://via.placeholder.com/300x200?text=No+Image"

  /** The saved path with every backslash turned into '/', and a leading '/' added
      when it does not already start with one. */
  function NormalizeUploadPath(path: string): (r: string)
    ensures |r| > 0 && r[0] == '/' && '\\' !in r
    ensures |r| == if |path| > 0 && (path[0] == '/' || path[0] == '\\') then |path| else |path| + 1
    ensures forall i :: 0 <= i < |path| ==>
              r[|r| - |path| + i] == if path[i] == '\\' then '/' else path[i]
  {
    var p := ReplaceChar(path, '\\', '/');
    if StartsWith(p, "/") then p else "/" + p
  }

  /** A path that already starts with '/' and holds no backslash is left as it is. */
  lemma NormalizedPathIsFixed(r: string)
    requires |r| > 0 && r[0] == '/' && '\\' !in r
    ensures NormalizeUploadPath(r) == r
  {
    var p := ReplaceChar(r, '\\', '/');
    forall i | 0 <= i < |r| ensures p[i] == r[i] {
      assert r[i] != '\\';
    }
    assert p == r;
    assert StartsWith(p, "/");
  }

  /** Normalising a stored URL again changes nothing. */
  lemma NormalizeUploadPathIdempotent(path: string)
    ensures NormalizeUploadPath(NormalizeUploadPath(path)) == NormalizeUploadPath(path)
  {
    NormalizedPathIsFixed(NormalizeUploadPath(path));
  }

  /** The `imageUrl` of a new product: the normalised upload path, or the placeholder. */
  function ImageUrl(file: Option<UploadedFile>): (r: string)
    ensures file.None? ==> r == PlaceholderImageUrl
    ensures file.Some? ==> r == NormalizeUploadPath(file.value.path)
    ensures |r| > 0
  {
    if file.None? then PlaceholderImageUrl else NormalizeUploadPath(file.value.path)
  }

  // ----- Products -----

  /** `price` as the form sends it: missing, a number, or text that is not a number. */
  datatype PriceField = PriceMissing | PriceNumber(n: int) | PriceNotANumber

  datatype ProductForm = ProductForm(name: Option<string>, description: Option<string>,
                                     category: Option<string>, price: PriceField)

  const DefaultStock: int := 10

  /** The stored price: the schema default 0 when missing; a number below the minimum 0,
      or text that does not cast, fails validation. */
  function StoredPrice(p: PriceField): (r: Option<int>)
    ensures r.Some? ==> r.value >= 0
    ensures r.Some? <==> p.PriceMissing? || (p.PriceNumber? && p.n >= 0)
    ensures p.PriceNumber? && r.Some? ==> r.value == p.n
    ensures p.PriceMissing? ==> r == Some(0)
  {
    match p
    case PriceMissing => Some(0)
    case PriceNumber(n) => if n >= 0 then Some(n) else None
    case PriceNotANumber => None
  }

  /** Validating and saving a new product. The name is trimmed before the required check;
      the route also passes the admin's id as `user`, which the schema does not declare,
      so it is not stored. */
  function NewProduct(body: ProductForm, imageUrl: string, id: nat): (r: Result<Product, string>)
    ensures r.Ok? <==>
      && body.name.Some? && Trim(body.name.value) != ""
      && PresentText(body.description) && PresentText(body.category)
      && StoredPrice(body.price).Some? && imageUrl != ""
    ensures r.Ok? ==>
      && r.value == Product(id, Trim(body.name.value), body.description.value, body.category.value,
                            StoredPrice(body.price).value, imageUrl, 10)
  {
    var price := StoredPrice(body.price);
    if body.name.None? || Trim(body.name.value) == "" || !PresentText(body.description)
       || !PresentText(body.category) || price.None? || imageUrl == ""
    then Err("ValidationError")
    else Ok(Product(id, Trim(body.name.value), body.description.value, body.category.value,
                    price.value, imageUrl, DefaultStock))
  }

  /** The category filter GET / builds: none for a missing or empty slug or for "all". */
  function CategoryFilter(categorySlug: Option<string>): (r: Option<string>)
    ensures r.None? <==> categorySlug.None? || categorySlug.value == "" || categorySlug.value == "all"
    ensures r.Some? ==> r == categorySlug
  {
    if categorySlug.Some? && categorySlug.value != "" && categorySlug.value != "all" then categorySlug else None
  }

  /** The products of one category, in store order. */
  function InCategory(products: seq<Product>, c: string): (r: seq<Product>)
    ensures forall p :: multiset(r)[p] == if p.category == c then multiset(products)[p] else 0
    ensures forall k :: 0 <= k < |r| ==> r[k].category == c
    ensures |r| <= |products|
  {
    if products == [] then []
    else
      assert products == [products[0]] + products[1..];
      var rest := InCategory(products[1..], c);
      if products[0].category == c then [products[0]] + rest else rest
  }

  /** `Product.find(query)` with the filter of CategoryFilter. */
  function FindProducts(products: seq<Product>, filter: Option<string>): (r: seq<Product>)
    ensures filter.None? ==> r == products
    ensures filter.Some? ==> r == InCategory(products, filter.value)
  {
    if filter.None? then products else InCategory(products, filter.value)
  }

  /** Filtering keeps the store order: filtering a concatenation filters each part. */
  lemma {:induction false} InCategoryConcat(a: seq<Product>, b: seq<Product>, c: string)
    ensures InCategory(a + b, c) == InCategory(a, c) + InCategory(b, c)
  {
    if a == [] {
      assert a + b == b;
    } else {
      var x, rest := a[0], a[1..];
      assert a == [x] + rest;
      assert a + b == [x] + (rest + b);
      InCategoryCons(x, rest + b, c);
      InCategoryCons(x, rest, c);
      InCategoryConcat(rest, b, c);
      PrependToBoth(InCategory(a + b, c), InCategory(a, c), if x.category == c then [x] else [],
                    InCategory(rest + b, c), InCategory(rest, c), InCategory(b, c));
    }
  }

  /** Putting the same head before both sides of `f == g + h`. */
  lemma PrependToBoth<T>(x: seq<T>, y: seq<T>, p: seq<T>, f: seq<T>, g: seq<T>, h: seq<T>)
    requires x == p + f && y == p + g && f == g + h
    ensures x == y + h
  {
  }

  lemma InCategoryCons(x: Product, rest: seq<Product>, c: string)
    ensures InCategory([x] + rest, c) == (if x.category == c then [x] else []) + InCategory(rest, c)
  {
    assert ([x] + rest)[1..] == rest;
  }

  /** Filtering twice by the same category is filtering once. */
  lemma {:induction false} InCategoryIdempotent(products: seq<Product>, c: string)
    ensures InCategory(InCategory(products, c), c) == InCategory(products, c)
  {
    if products != [] {
      InCategoryIdempotent(products[1..], c);
    }
  }

  /** Ids increase along the collection and stay below the next id to hand out. */
  ghost predicate WellFormedProducts(products: seq<Product>, nextId: nat) {
    && (forall i, j :: 0 <= i < j < |products| ==> products[i].id < products[j].id)
    && (forall i :: 0 <= i < |products| ==> products[i].id < nextId)
  }

  lemma AppendKeepsProductsWellFormed(products: seq<Product>, nextId: nat, p: Product)
    requires WellFormedProducts(products, nextId) && p.id == nextId
    ensures WellFormedProducts(products + [p], nextId + 1)
  {
  }

  /** The products collection. */
  class ProductStore {
    var products: seq<Product>
    var nextId: nat

    ghost predicate Valid()
      reads this
    {
      WellFormedProducts(products, nextId)
    }

    constructor ()
      ensures Valid() && products == [] && nextId == 0
    {
      products := [];
      nextId := 0;
    }

    /** GET /api/products?category=slug: every product for no slug or "all", otherwise
        exactly the products whose category is the slug. */
    function GetProducts(categorySlug: Option<string>): (r: Response)
      reads this
      ensures r.status == 200 && r.body.ProductList?
      ensures CategoryFilter(categorySlug).None? ==> r.body.products == products
      ensures CategoryFilter(categorySlug).Some? ==>
        forall p :: multiset(r.body.products)[p] ==
                      if p.category == categorySlug.value then multiset(products)[p] else 0
    {
      Response(200, ProductList(FindProducts(products, CategoryFilter(categorySlug))))
    }

    /** POST /api/products. The upload filter runs first: a refused file ends the
        request with its error and the handler never runs. */
    method CreateProduct(body: ProductForm, file: Option<UploadedFile>) returns (resp: Response)
      requires Valid()
      modifies this
      ensures Valid()
      ensures file.Some? && CheckFileType(file.value).Reject? ==>
        && resp == Response(500, Message("Images only!"))
        && products == old(products) && nextId == old(nextId)
      ensures file.None? || CheckFileType(file.value) == Accept ==>
        match NewProduct(body, ImageUrl(file), old(nextId))
        case Ok(p) =>
          && products == old(products) + [p] && nextId == old(nextId) + 1
          && resp == Response(201, ProductBody(p))
          && p.countInStock == 10 && p.imageUrl == ImageUrl(file)
        case Err(_) =>
          && products == old(products) && nextId == old(nextId)
          && resp == Response(400, Message("Invalid product data or image upload failed"))
    {
      if file.Some? && CheckFileType(file.value).Reject? {
        return Response(500, Message(CheckFileType(file.value).message));
      }
      var imagePath := ImageUrl(file);
      var created := NewProduct(body, imagePath, nextId);
      if created.Err? {
        return Response(400, Message("Invalid product data or image upload failed"));
      }
      var p := created.value;
      AppendKeepsProductsWellFormed(products, nextId, p);
      products := products + [p];
      nextId := nextId + 1;
      resp := Response(201, ProductBody(p));
    }

    /** DELETE /api/products/:id: removes exactly the product with that id, or answers 404. */
    method DeleteProduct(id: nat) returns (resp: Response)
      requires Valid()
      modifies this
      ensures Valid() && nextId == old(nextId)
      ensures (forall k :: 0 <= k < |old(products)| ==> old(products)[k].id != id) ==>
        resp == Response(404, Message("Product not found")) && products == old(products)
      ensures (exists k :: 0 <= k < |old(products)| && old(products)[k].id == id) ==>
        && resp == Response(200, Message("Product removed"))
        && (exists k :: 0 <= k < |old(products)| && old(products)[k].id == id
                        && products == old(products)[..k] + old(products)[k + 1..])
        && (forall k :: 0 <= k < |products| ==> products[k].id != id)
    {
      var k := 0;
      while k < |products| && products[k].id != id
        invariant 0 <= k <= |products|
        invariant forall j :: 0 <= j < k ==> products[j].id != id
      {
        k := k + 1;
      }
      if k == |products| {
        return Response(404, Message("Product not found"));
      }
      ghost var before := products;
      products := products[..k] + products[k + 1..];
      assert forall j :: 0 <= j < |products| ==> products[j] == if j < k then before[j] else before[j + 1];
      resp := Response(200, Message("Product removed"));
    }
  }

  // ----- Categories -----

  /** createSlug: lower-case, and every white-space character becomes '_'. */
  function CreateSlug(name: string): (r: string)
    ensures |r| == |name|
    ensures forall i :: 0 <= i < |r| ==> !IsUpper(r[i]) && !IsSpace(r[i])
    ensures forall i :: 0 <= i < |name| ==> r[i] == if IsSpace(name[i]) then '_' else LowerChar(name[i])
  {
    ReplaceSpaces(ToLower(name), '_')
  }

  /** A slug is its own slug. */
  lemma CreateSlugIdempotent(name: string)
    ensures CreateSlug(CreateSlug(name)) == CreateSlug(name)
  {
    var s := CreateSlug(name);
    assert forall i :: 0 <= i < |s| ==> CreateSlug(s)[i] == s[i];
  }

  /** The slug field's own setters (lowercase, trim) leave a created slug as it is. */
  lemma SlugSettersKeepSlug(name: string)
    ensures ToLower(CreateSlug(name)) == CreateSlug(name)
    ensures Trim(CreateSlug(name)) == CreateSlug(name)
  {
    var s := CreateSlug(name);
    assert forall i :: 0 <= i < |s| ==> ToLower(s)[i] == s[i];
  }

  /** Ascending by name: `.sort({ name: 1 })`. */
  predicate NameLe(a: Category, b: Category) {
    LexLe(a.name, b.name)
  }

  lemma NameLeIsTotalPreorder()
    ensures Sorting.TotalPreorder(NameLe)
  {
    forall a: Category, b: Category ensures NameLe(a, b) || NameLe(b, a) {
      LexLeTotal(a.name, b.name);
    }
    forall a: Category, b: Category, c: Category | NameLe(a, b) && NameLe(b, c) ensures NameLe(a, c) {
      LexLeTransitive(a.name, b.name, c.name);
    }
  }

  /** Some category has this name or this slug; the unique indexes reject a second one. */
  predicate NameTaken(categories: seq<Category>, name: string, slug: string) {
    exists k :: 0 <= k < |categories| && (categories[k].name == name || categories[k].slug == slug)
  }

  /** Unique ids below `nextId`, and the unique indexes on name and slug. */
  ghost predicate WellFormedCategories(cs: seq<Category>, nextId: nat) {
    && (forall i, j :: 0 <= i < j < |cs| ==> cs[i].id < cs[j].id)
    && (forall i :: 0 <= i < |cs| ==> cs[i].id < nextId)
    && (forall i, j :: 0 <= i < j < |cs| ==> cs[i].name != cs[j].name && cs[i].slug != cs[j].slug)
  }

  /** A category whose name and slug are both new keeps the indexes unique. */
  lemma AppendKeepsCategoriesWellFormed(cs: seq<Category>, nextId: nat, name: string, slug: string)
    requires WellFormedCategories(cs, nextId)
    requires !NameTaken(cs, name, slug)
    ensures WellFormedCategories(cs + [Category(nextId, name, slug)], nextId + 1)
  {
    var t := cs + [Category(nextId, name, slug)];
    forall i, j | 0 <= i < j < |t|
      ensures t[i].id < t[j].id && t[i].name != t[j].name && t[i].slug != t[j].slug
    {
      if j == |cs| {
        assert t[i] == cs[i];
        assert !(cs[i].name == name || cs[i].slug == slug);
      }
    }
  }

  /** Whether the document `{ name, slug: createSlug(name) }` passes validation and
      both unique indexes: the stored name is trimmed and must not be empty. */
  predicate Admits(categories: seq<Category>, name: string) {
    Trim(name) != "" && !NameTaken(categories, Trim(name), CreateSlug(name))
  }

  /** The categories collection. */
  class CategoryStore {
    var categories: seq<Category>
    var nextId: nat

    ghost predicate Valid()
      reads this
    {
      WellFormedCategories(categories, nextId)
    }

    constructor ()
      ensures Valid() && categories == [] && nextId == 0
    {
      categories := [];
      nextId := 0;
    }

    /** POST /api/categories. A missing name makes createSlug throw; that, a name that
        is empty once trimmed, and a duplicate name or slug all answer 400. The stored
        name is trimmed; the slug is made from the name as sent. */
    method CreateCategory(name: Option<string>) returns (resp: Response)
      requires Valid()
      modifies this
      ensures Valid()
      ensures name.Some? && Admits(old(categories), name.value) ==>
        && categories == old(categories) + [Category(old(nextId), Trim(name.value), CreateSlug(name.value))]
        && nextId == old(nextId) + 1
        && resp == Response(201, CategoryBody(categories[|categories| - 1]))
      ensures !(name.Some? && Admits(old(categories), name.value)) ==>
        && categories == old(categories) && nextId == old(nextId)
        && resp == Response(400, Message("Failed to create new category. Name might already exist."))
    {
      if name.None? || !Admits(categories, name.value) {
        return Response(400, Message("Failed to create new category. Name might already exist."));
      }
      var storedName, slug := Trim(name.value), CreateSlug(name.value);
      AppendKeepsCategoriesWellFormed(categories, nextId, storedName, slug);
      categories := categories + [Category(nextId, storedName, slug)];
      nextId := nextId + 1;
      resp := Response(201, CategoryBody(categories[|categories| - 1]));
    }

    /** GET /api/categories: every category, ascending by name. */
    function ListCategories(): (r: seq<Category>)
      reads this
      ensures Sorting.SortedBy(r, NameLe)
      ensures multiset(r) == multiset(categories)
    {
      NameLeIsTotalPreorder();
      Sorting.SortBySorted(categories, NameLe);
      Sorting.SortBy(categories, NameLe)
    }
  }
}
