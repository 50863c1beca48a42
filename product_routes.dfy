/**
 * The product routes: the upload filter and limits, the image lists built on create
 * and on update, the view counter, and the store-scoped update and delete.
 *
 * The product collection is a map from id to product document; a route that finds no
 * document answers 404, which the methods report as `found == false`.
 */
module ProductRoutes {
  import opened Common
  import opened ProductModel

  // ---------------------------------------------------------------- upload filter

  const MaxFileSize: int := 10 * 1024 * 1024
  const MaxFiles: int := 10

  /** The index of the last `c` in `s`, or -1. */
  function LastIndexOf(s: string, c: char): (r: int)
    ensures -1 <= r < |s|
    ensures r >= 0 ==> s[r] == c
    ensures forall j :: r < j < |s| ==> s[j] != c
  {
    if s == [] then -1
    else if s[|s| - 1] == c then |s| - 1
    else LastIndexOf(s[..|s| - 1], c)
  }

  /** The last path segment. */
  function BaseName(path: string): (b: string)
    ensures |b| <= |path| && b == path[|path| - |b|..]
    ensures forall j :: 0 <= j < |b| ==> b[j] != '/'
  {
    path[LastIndexOf(path, '/') + 1..]
  }

  /**
   * `path.extname(p)`: from the last `.` of the last segment to its end, and empty when
   * the segment has no dot, starts with its only leading dot, or is `..`.
   */
  function ExtName(path: string): (e: string)
    ensures |e| <= |path| && e == path[|path| - |e|..]
    ensures e != "" ==> e[0] == '.' && |e| < |BaseName(path)|
    ensures forall j :: 0 < j < |e| ==> e[j] != '.' && e[j] != '/'
  {
    var base := BaseName(path);
    var k := LastIndexOf(base, '.');
    if k <= 0 || base == ".." then "" else base[k..]
  }

  /** `/jpeg|jpg|png|gif|webp/.test(s)`: an unanchored match of any alternative. */
  predicate IsImageType(s: string)
  {
    Contains(s, "jpeg") || Contains(s, "jpg") || Contains(s, "png") || Contains(s, "gif") || Contains(s, "webp")
  }

  /** The multer `fileFilter`: both the lower-cased extension and the mimetype must match. */
  predicate FileFilter(originalName: string, mimetype: string)
  {
    IsImageType(ToLower(ExtName(originalName))) && IsImageType(mimetype)
  }

  /** An uploaded file as multer sees it. */
  datatype Upload = Upload(originalName: string, mimetype: string, size: int)

  /** The upload middleware lets the request through: at most ten files, each within 10 MiB and passing the filter. */
  predicate UploadAccepted(files: seq<Upload>)
  {
    |files| <= MaxFiles
    && forall i :: 0 <= i < |files| ==>
         files[i].size <= MaxFileSize && FileFilter(files[i].originalName, files[i].mimetype)
  }

  /** The name the disk storage gives a file: the upload time in milliseconds and the original extension. */
  function StoredFilename(now: nat, originalName: string): string
  {
    NatToDecimal(now) + ExtName(originalName)
  }

  /**
   * One file over 10 MiB or failing the filter stops the whole request, and so do more
   * than ten files; an accepted request's files each pass the filter.
   */
  lemma OneBadFileRefusesAll(files: seq<Upload>, i: int)
    requires 0 <= i < |files|
    ensures files[i].size > MaxFileSize ==> !UploadAccepted(files)
    ensures !FileFilter(files[i].originalName, files[i].mimetype) ==> !UploadAccepted(files)
    ensures |files| > MaxFiles ==> !UploadAccepted(files)
  {
  }

  // ---------------------------------------------------------------- image lists

  const UploadDir: string := "/uploads/products/"

  function UploadUrl(filename: string): (u: string)
    ensures StartsWith(u, UploadDir) && u[|UploadDir|..] == filename
  {
    assert (UploadDir + filename)[..|UploadDir|] == UploadDir;
    UploadDir + filename
  }

  /** The image list of a new product: one entry per file, in upload order, only the first primary. */
  function UploadedImages(filenames: seq<string>): (images: seq<Image>)
    ensures |images| == |filenames|
    ensures forall i :: 0 <= i < |filenames| ==> images[i] == Image(UploadUrl(filenames[i]), i == 0)
  {
    seq(|filenames|, i requires 0 <= i < |filenames| => Image(UploadUrl(filenames[i]), i == 0))
  }

  /** The images an update adds: one entry per file, none primary (the schema default). */
  function AddedImages(filenames: seq<string>): (images: seq<Image>)
    ensures |images| == |filenames|
    ensures forall i :: 0 <= i < |filenames| ==> images[i] == Image(UploadUrl(filenames[i]), false)
  {
    seq(|filenames|, i requires 0 <= i < |filenames| => Image(UploadUrl(filenames[i]), false))
  }

  function CountPrimary(images: seq<Image>): nat
  {
    if images == [] then 0
    else CountPrimary(images[..|images| - 1]) + if images[|images| - 1].isPrimary then 1 else 0
  }

  lemma {:induction false} CountPrimaryAppend(a: seq<Image>, b: seq<Image>)
    ensures CountPrimary(a + b) == CountPrimary(a) + CountPrimary(b)
  {
    if b == [] {
      assert a + b == a;
    } else {
      assert (a + b)[..|a + b| - 1] == a + b[..|b| - 1];
      CountPrimaryAppend(a, b[..|b| - 1]);
    }
  }

  lemma {:induction false} NoPrimaryCountsZero(images: seq<Image>)
    requires forall i :: 0 <= i < |images| ==> !images[i].isPrimary
    ensures CountPrimary(images) == 0
  {
    if images != [] {
      NoPrimaryCountsZero(images[..|images| - 1]);
    }
  }

  /** A created product with uploads has exactly one primary image, the first upload. */
  lemma UploadedImagesOnePrimary(filenames: seq<string>)
    requires filenames != []
    ensures CountPrimary(UploadedImages(filenames)) == 1
    ensures UploadedImages(filenames)[0].isPrimary
  {
    var images := UploadedImages(filenames);
    assert images == [images[0]] + images[1..];
    NoPrimaryCountsZero(images[1..]);
    CountPrimaryAppend([images[0]], images[1..]);
    assert [images[0]][..0] == [];
  }

  /** An update keeps the existing images first, in order, and adds no primary image. */
  lemma AddedImagesKeepExisting(existing: seq<Image>, filenames: seq<string>)
    ensures (existing + AddedImages(filenames))[..|existing|] == existing
    ensures |existing + AddedImages(filenames)| == |existing| + |filenames|
    ensures CountPrimary(existing + AddedImages(filenames)) == CountPrimary(existing)
  {
    NoPrimaryCountsZero(AddedImages(filenames));
    CountPrimaryAppend(existing, AddedImages(filenames));
  }

  // ---------------------------------------------------------------- filter properties

  /** A file without an extension is refused whatever its mimetype. */
  lemma FilterNeedsExtension(originalName: string, mimetype: string)
    requires ExtName(originalName) == ""
    ensures !FileFilter(originalName, mimetype)
  {
    assert ToLower("") == "";
  }

  lemma ContainsInContext(s: string, p: string, a: string, b: string)
    requires Contains(s, p)
    ensures Contains(a + s + b, p)
  {
    var i :| 0 <= i <= |s| - |p| && OccursAt(s, p, i);
    assert (a + s + b)[|a| + i..|a| + i + |p|] == s[i..i + |p|];
    assert OccursAt(a + s + b, p, |a| + i);
  }

  /** The test is unanchored: text around a matching extension or mimetype does not stop it matching. */
  lemma FilterIsUnanchored(s: string, a: string, b: string)
    requires IsImageType(s)
    ensures IsImageType(a + s + b)
  {
    if Contains(s, "jpeg") { ContainsInContext(s, "jpeg", a, b); }
    else if Contains(s, "jpg") { ContainsInContext(s, "jpg", a, b); }
    else if Contains(s, "png") { ContainsInContext(s, "png", a, b); }
    else if Contains(s, "gif") { ContainsInContext(s, "gif", a, b); }
    else { ContainsInContext(s, "webp", a, b); }
  }

  /** The extension of a segment `stem.ext` with a non-empty stem and a dot-free ext is `.ext`. */
  lemma ExtNameOfSimpleName(stem: string, ext: string)
    requires stem != [] && stem != "." && forall j :: 0 <= j < |stem| ==> stem[j] != '/'
    requires forall j :: 0 <= j < |ext| ==> ext[j] != '.' && ext[j] != '/'
    ensures ExtName(stem + "." + ext) == "." + ext
  {
    var name := stem + "." + ext;
    assert name == stem + ['.'] + ext;
    NoSlashAround(stem, ext);
    WholeBaseName(name);
    LastIndexOfSuffix(stem, ext, '.');
    var k := LastIndexOf(name, '.');
    assert k == |stem| > 0;
    assert name != ".." by {
      if |name| == 2 {
        assert |stem| == 1 && name[0] == stem[0];
      }
    }
    assert name[k..] == "." + ext;
  }

  lemma NoSlashAround(stem: string, ext: string)
    requires forall j :: 0 <= j < |stem| ==> stem[j] != '/'
    requires forall j :: 0 <= j < |ext| ==> ext[j] != '/'
    ensures forall j :: 0 <= j < |stem + ['.'] + ext| ==> (stem + ['.'] + ext)[j] != '/'
  {
    var name := stem + ['.'] + ext;
    forall j | 0 <= j < |name| ensures name[j] != '/' {
      if j < |stem| { assert name[j] == stem[j]; }
      else if j == |stem| { assert name[j] == '.'; }
      else { assert name[j] == ext[j - |stem| - 1]; }
    }
  }

  lemma WholeBaseName(s: string)
    requires forall j :: 0 <= j < |s| ==> s[j] != '/'
    ensures BaseName(s) == s
  {
    NotInLast(s, '/');
  }

  lemma {:induction false} NotInLast(s: string, c: char)
    requires forall j :: 0 <= j < |s| ==> s[j] != c
    ensures LastIndexOf(s, c) == -1
  {
    if s != [] {
      NotInLast(s[..|s| - 1], c);
    }
  }

  lemma {:induction false} LastIndexOfSuffix(stem: string, ext: string, c: char)
    requires forall j :: 0 <= j < |ext| ==> ext[j] != c
    ensures LastIndexOf(stem + [c] + ext, c) == |stem|
  {
    if ext == [] {
      assert stem + [c] + ext == stem + [c];
    } else {
      var s := stem + [c] + ext;
      assert s[..|s| - 1] == stem + [c] + ext[..|ext| - 1];
      LastIndexOfSuffix(stem, ext[..|ext| - 1], c);
    }
  }

  /** A dot-file name such as `.png` has no extension, so the filter refuses it. */
  lemma DotFileHasNoExtension(rest: string)
    requires forall j :: 0 <= j < |rest| ==> rest[j] != '.' && rest[j] != '/'
    ensures ExtName("." + rest) == ""
  {
    var name := "." + rest;
    assert name == [] + ['.'] + rest;
    NoSlashAround([], rest);
    WholeBaseName(name);
    LastIndexOfSuffix([], rest, '.');
  }

  /**
   * The stored file name keeps the extension the filter judged: the disk name is the
   * upload time followed by the original extension, and its own extension is that one.
   */
  lemma StoredFilenameKeepsExtension(now: nat, originalName: string)
    ensures ExtName(StoredFilename(now, originalName)) == ExtName(originalName)
  {
    var digits, e := NatToDecimal(now), ExtName(originalName);
    DigitsHaveNoSeparators(digits);
    if e == "" {
      assert StoredFilename(now, originalName) == digits;
      WholeBaseName(digits);
      NotInLast(digits, '.');
    } else {
      DigitsThenExtension(digits, e);
    }
  }

  lemma DigitsHaveNoSeparators(digits: string)
    requires AllDigits(digits)
    ensures forall j :: 0 <= j < |digits| ==> digits[j] != '/' && digits[j] != '.'
  {
  }

  lemma DigitsThenExtension(digits: string, e: string)
    requires digits != [] && AllDigits(digits)
    requires e != "" && e[0] == '.' && forall j :: 0 < j < |e| ==> e[j] != '.' && e[j] != '/'
    ensures ExtName(digits + e) == e
  {
    DigitsHaveNoSeparators(digits);
    var x := e[1..];
    assert e == "." + x;
    assert digits != "." by { assert IsDigit(digits[0]); }
    ExtNameOfSimpleName(digits, x);
    assert digits + e == digits + "." + x;
  }

  /** An upper-case image extension passes once lower-cased: `photo.JPG` with `image/jpeg`. */
  lemma UpperCaseExtensionAccepted()
    ensures FileFilter("photo.JPG", "image/jpeg")
  {
    ExtNameOfSimpleName("photo", "JPG");
    assert "photo" + "." + "JPG" == "photo.JPG";
    LowerJpgIsImageType();
    JpegMimetypeIsImageType();
  }

  lemma LowerJpgIsImageType()
    ensures IsImageType(ToLower("." + "JPG"))
  {
    var e := ToLower(".JPG");
    assert e == ".jpg";
    assert OccursAt(e, "jpg", 1);
  }

  lemma JpegMimetypeIsImageType()
    ensures IsImageType("image/jpeg")
  {
    assert OccursAt("image/jpeg", "jpeg", 6);
  }

  // ---------------------------------------------------------------- the routes

  /** The request-body fields `Object.assign` copies onto a product; `None` for a field the body lacks. */
  datatype Patch = Patch(
    store: Option<StoreId>,
    name: Option<string>,
    price: Option<int>,
    cost: Option<int>,
    slug: Option<string>,
    stock: Option<int>,
    trackInventory: Option<bool>,
    images: Option<seq<Image>>,
    othersValid: bool)

  /** The name after assignment: the body's through the `trim` setter, else the old one. */
  function AssignedName(patch: Patch, name: string): (r: string)
    ensures patch.name.None? ==> r == name
    ensures patch.name.Some? ==> r == Trim(patch.name.value)
  {
    if patch.name.Some? then Trim(patch.name.value) else name
  }

  /** The slug after assignment: the body's through the `lowercase` setter, else the old one. */
  function AssignedSlug(patch: Patch, slug: string): (r: string)
    ensures patch.slug.None? ==> r == slug
    ensures patch.slug.Some? ==> r == ToLower(patch.slug.value)
  {
    if patch.slug.Some? then ToLower(patch.slug.value) else slug
  }

  /**
   * Whether `save()` accepts `p` once `patch` is assigned: the validators run on every
   * field, so the trimmed name must be present and at most 100 characters, price, cost
   * and stock not negative, and the fields this model does not carry valid.
   */
  predicate AssignedValid(p: Product, patch: Patch)
    reads p
  {
    var name := AssignedName(patch, p.name);
    name != "" && |name| <= 100 && Or(patch.price, p.price) >= 0 && Or(patch.cost, p.cost) >= 0
    && Or(patch.stock, p.stock) >= 0 && patch.othersValid
  }

  /**
   * `Object.assign(product, body)` on a document: every field the body carries
   * overwrites the product's, the name through its `trim` setter and the slug through
   * its `lowercase` setter.
   */
  method Assign(p: Product, patch: Patch)
    modifies p
    ensures p.store == Or(patch.store, old(p.store)) && p.name == AssignedName(patch, old(p.name))
    ensures p.price == Or(patch.price, old(p.price)) && p.cost == Or(patch.cost, old(p.cost))
    ensures p.slug == AssignedSlug(patch, old(p.slug)) && p.stock == Or(patch.stock, old(p.stock))
    ensures p.trackInventory == Or(patch.trackInventory, old(p.trackInventory))
    ensures p.images == Or(patch.images, old(p.images))
    ensures p.profit == old(p.profit) && p.sold == old(p.sold) && p.views == old(p.views)
  {
    p.store := Or(patch.store, p.store);
    p.name := AssignedName(patch, p.name);
    p.price := Or(patch.price, p.price);
    p.cost := Or(patch.cost, p.cost);
    p.slug := AssignedSlug(patch, p.slug);
    p.stock := Or(patch.stock, p.stock);
    p.trackInventory := Or(patch.trackInventory, p.trackInventory);
    p.images := Or(patch.images, p.images);
  }

  class Catalog {
    var products: map<ProductId, Product>

    /** No two ids share one document. */
    predicate Valid()
      reads this
    {
      forall i, j :: i in products && j in products && i != j ==> products[i] != products[j]
    }

    constructor()
      ensures products == map[] && Valid()
    {
      products := map[];
    }

    /**
     * `POST /`: the body is spread into a new document of the caller's checked store (a
     * `store` in the body is overridden), with the uploaded images when there are any and
     * the body's images otherwise. A body that fails the schema validators answers 500
     * and `p` is never stored; otherwise the pre-save hook runs and `p` is stored.
     */
    method Create(id: ProductId, storeId: StoreId, body: NewProduct, filenames: seq<string>)
      returns (created: bool, p: Product)
      requires id !in products
      modifies this
      ensures fresh(p) && (created <==> Validates(body))
      ensures created ==> products == old(products)[id := p]
      ensures !created ==> products == old(products)
      ensures created ==>
        var name := Trim(body.name);
        p.store == storeId && p.name == name && p.price == body.price && p.cost == body.cost
        && p.images == (if filenames != [] then UploadedImages(filenames) else body.images)
        && p.stock == body.stock && p.trackInventory == body.trackInventory
        && p.sold == Or(body.sold, 0) && p.views == Or(body.views, 0)
        && p.profit == (if body.price != 0 && body.cost != 0 then body.price - body.cost
                        else Or(body.profit, body.price - body.cost))
        && p.slug == (if body.slug != "" then ToLower(body.slug) else Slugify(name))
        && p.Valid()
      ensures old(Valid()) ==> Valid()
    {
      var images := body.images;
      if |filenames| > 0 {
        images := UploadedImages(filenames);
      }
      p, created := CreateDocument(storeId, body, images);
      if created {
        assert forall k :: k in products ==> products[k] != p;
        products := products[id := p];
      }
    }

    /**
     * `GET /:productId`: 404 for an unknown id; otherwise `views` goes up by exactly one
     * and the document is saved, which runs the pre-save hook.
     */
    method View(productId: ProductId) returns (found: bool)
      modifies if productId in products then {products[productId]} else {}
      ensures found <==> productId in products
      ensures found ==>
        var p := products[productId];
        p.views == old(p.views) + 1
        && p.store == old(p.store) && p.name == old(p.name) && p.price == old(p.price) && p.cost == old(p.cost)
        && p.stock == old(p.stock) && p.sold == old(p.sold) && p.images == old(p.images)
        && p.trackInventory == old(p.trackInventory)
        && (old(p.price) != 0 && old(p.cost) != 0 ==> p.profit == p.price - p.cost)
        && (!(old(p.price) != 0 && old(p.cost) != 0) ==> p.profit == old(p.profit))
        && p.slug == if old(p.slug) == "" && old(p.name) != "" then Slugify(old(p.name)) else old(p.slug)
    {
      if productId !in products {
        return false;
      }
      var p := products[productId];
      p.views := p.views + 1;
      p.PreSave();
      found := true;
    }

    /** The product `findOne({ _id, store })` matches: the id exists and belongs to the checked store. */
    predicate InStore(productId: ProductId, storeId: StoreId)
      reads this, if productId in products then {products[productId]} else {}
    {
      productId in products && products[productId].store == storeId
    }

    /**
     * `PUT /:productId`: 404 unless the product belongs to the checked store; with
     * uploads the body's images become the existing images followed by the new ones;
     * then the body is assigned onto the product (its `store` included) and the document
     * is saved. A document the validators refuse answers 500 and the stored product
     * stays as it was; otherwise the pre-save hook runs.
     */
    method Update(productId: ProductId, storeId: StoreId, patch: Patch, filenames: seq<string>)
      returns (found: bool, saved: bool)
      modifies if productId in products then {products[productId]} else {}
      ensures found <==> old(InStore(productId, storeId))
      ensures saved <==> found && old(AssignedValid(products[productId], patch))
      ensures found && !saved ==> unchanged(products[productId])
      ensures saved ==>
        var p := products[productId];
        var name := AssignedName(patch, old(p.name));
        var slug := AssignedSlug(patch, old(p.slug));
        p.store == Or(patch.store, old(p.store)) && p.name == name
        && p.price == Or(patch.price, old(p.price)) && p.cost == Or(patch.cost, old(p.cost))
        && p.stock == Or(patch.stock, old(p.stock)) && p.sold == old(p.sold) && p.views == old(p.views)
        && p.trackInventory == Or(patch.trackInventory, old(p.trackInventory))
        && p.images == (if filenames != [] then old(p.images) + AddedImages(filenames)
                        else Or(patch.images, old(p.images)))
        && (p.price != 0 && p.cost != 0 ==> p.profit == p.price - p.cost)
        && (!(p.price != 0 && p.cost != 0) ==> p.profit == old(p.profit))
        && p.slug == (if slug == "" && name != "" then Slugify(name) else slug)
        && p.PassesSchema()
    {
      if !InStore(productId, storeId) {
        return false, false;
      }
      var p := products[productId];
      if !AssignedValid(p, patch) {
        return true, false;
      }
      var body := patch;
      if |filenames| > 0 {
        body := body.(images := Some(p.images + AddedImages(filenames)));
      }
      Assign(p, body);
      p.PreSave();
      found, saved := true, true;
    }

    /** `DELETE /:productId`: removes the product only when it belongs to the checked store, else 404. */
    method Delete(productId: ProductId, storeId: StoreId) returns (found: bool)
      modifies this
      ensures found <==> old(InStore(productId, storeId))
      ensures found ==> products == old(products) - {productId}
      ensures !found ==> products == old(products)
      ensures old(Valid()) ==> Valid()
    {
      if !InStore(productId, storeId) {
        return false;
      }
      products := products - {productId};
      found := true;
    }
  }
}
