/**
 * The product document: the slug normaliser and profit rule of its pre-save hook,
 * and the stock operations `isInStock` and `reduceStock`.
 */
module ProductModel {
  import opened Common

  /** An entry of the product's image list. */
  datatype Image = Image(url: string, isPrimary: bool)

  // ---------------------------------------------------------------- slug

  predicate IsSlugChar(c: char)
  {
    IsLowerAlnum(c) || c == '-'
  }

  predicate SlugChars(s: string)
  {
    forall i :: 0 <= i < |s| ==> IsSlugChar(s[i])
  }

  predicate DoubleDashAt(s: string, i: int)
  {
    0 <= i < |s| - 1 && s[i] == '-' && s[i + 1] == '-'
  }

  predicate NoDoubleDash(s: string)
  {
    forall i | 0 <= i < |s| - 1 :: !DoubleDashAt(s, i)
  }

  /** What the slug rule promises: `[a-z0-9-]` only, no `--`, no `-` at either end. */
  predicate IsSlug(s: string)
  {
    SlugChars(s) && NoDoubleDash(s) && (s != [] ==> s[0] != '-' && s[|s| - 1] != '-')
  }

  /**
   * `replace(/[^a-z0-9]+/g, '-')` on the rest of a string: every maximal run outside
   * `[a-z0-9]` becomes one `-`. `inRun` says that a run has already begun.
   */
  function CollapseFrom(s: string, inRun: bool): string
  {
    if s == [] then []
    else if IsLowerAlnum(s[0]) then [s[0]] + CollapseFrom(s[1..], false)
    else if inRun then CollapseFrom(s[1..], true)
    else "-" + CollapseFrom(s[1..], true)
  }

  function Collapse(s: string): string
  {
    CollapseFrom(s, false)
  }

  /** `replace(/^-+/, '')`. */
  function TrimLeadingDashes(s: string): (r: string)
    ensures |r| <= |s| && r == s[|s| - |r|..]
    ensures forall i :: 0 <= i < |s| - |r| ==> s[i] == '-'
    ensures r != [] ==> r[0] != '-'
  {
    if s != [] && s[0] == '-' then TrimLeadingDashes(s[1..]) else s
  }

  /** `replace(/-+$/, '')`. */
  function TrimTrailingDashes(s: string): (r: string)
    ensures |r| <= |s| && r == s[..|r|]
    ensures forall i :: |r| <= i < |s| ==> s[i] == '-'
    ensures r != [] ==> r[|r| - 1] != '-'
  {
    if s != [] && s[|s| - 1] == '-' then TrimTrailingDashes(s[..|s| - 1]) else s
  }

  /** The slug the pre-save hook derives from a product name. */
  function Slugify(name: string): string
  {
    TrimTrailingDashes(TrimLeadingDashes(Collapse(ToLower(name))))
  }

  /** Collapsing leaves only `[a-z0-9-]`, never `--`, and no leading `-` inside a run. */
  lemma {:induction false} CollapseShape(s: string, inRun: bool)
    ensures SlugChars(CollapseFrom(s, inRun)) && NoDoubleDash(CollapseFrom(s, inRun))
    ensures inRun && CollapseFrom(s, inRun) != [] ==> CollapseFrom(s, inRun)[0] != '-'
  {
    if s != [] {
      var next := !IsLowerAlnum(s[0]);
      CollapseShape(s[1..], next);
      var r, t := CollapseFrom(s, inRun), CollapseFrom(s[1..], next);
      if IsLowerAlnum(s[0]) || !inRun {
        assert r == [r[0]] + t;
        forall i | 0 <= i < |r| - 1 ensures !DoubleDashAt(r, i) {
          if 0 < i {
            assert r[i] == t[i - 1] && r[i + 1] == t[i];
            assert !DoubleDashAt(t, i - 1);
          }
        }
      }
    }
  }

  /** A slice of a string free of `--` and of characters outside `[a-z0-9-]` is too. */
  lemma SliceKeepsSlugShape(s: string, lo: int, hi: int)
    requires 0 <= lo <= hi <= |s|
    requires SlugChars(s) && NoDoubleDash(s)
    ensures SlugChars(s[lo..hi]) && NoDoubleDash(s[lo..hi])
  {
    var t := s[lo..hi];
    forall i | 0 <= i < |t| - 1 ensures !DoubleDashAt(t, i) {
      assert t[i] == s[lo + i] && t[i + 1] == s[lo + i + 1];
      assert !DoubleDashAt(s, lo + i);
    }
  }

  lemma TrimLeadingKeepsShape(c: string)
    requires SlugChars(c) && NoDoubleDash(c)
    ensures SlugChars(TrimLeadingDashes(c)) && NoDoubleDash(TrimLeadingDashes(c))
  {
    var l := TrimLeadingDashes(c);
    SliceKeepsSlugShape(c, |c| - |l|, |c|);
    assert c[|c| - |l|..|c|] == l;
  }

  lemma TrimTrailingKeepsShape(c: string)
    requires SlugChars(c) && NoDoubleDash(c)
    ensures SlugChars(TrimTrailingDashes(c)) && NoDoubleDash(TrimTrailingDashes(c))
  {
    var r := TrimTrailingDashes(c);
    SliceKeepsSlugShape(c, 0, |r|);
    assert c[0..|r|] == r;
  }

  /** Stripping the dashes at both ends of a collapsed string leaves a slug. */
  lemma TrimDashesGivesSlug(c: string)
    requires SlugChars(c) && NoDoubleDash(c)
    ensures IsSlug(TrimTrailingDashes(TrimLeadingDashes(c)))
  {
    var l := TrimLeadingDashes(c);
    TrimLeadingKeepsShape(c);
    var r := TrimTrailingDashes(l);
    TrimTrailingKeepsShape(l);
    if r != [] {
      assert r[0] == l[0];
    }
  }

  /** Every generated slug has the promised shape. */
  lemma SlugifyIsSlug(name: string)
    ensures IsSlug(Slugify(name))
  {
    CollapseShape(ToLower(name), false);
    TrimDashesGivesSlug(Collapse(ToLower(name)));
  }

  /** A string that already has slug characters and no `--` collapses to itself. */
  lemma {:induction false} CollapseFixesSlugs(s: string, inRun: bool)
    requires SlugChars(s) && NoDoubleDash(s)
    requires inRun && s != [] ==> s[0] != '-'
    ensures CollapseFrom(s, inRun) == s
  {
    if s != [] {
      SliceKeepsSlugShape(s, 1, |s|);
      assert s[1..|s|] == s[1..];
      if |s| > 1 {
        assert !DoubleDashAt(s, 0);
      }
      CollapseFixesSlugs(s[1..], !IsLowerAlnum(s[0]));
      assert s == [s[0]] + s[1..];
    }
  }

  lemma ToLowerFixesSlugChars(s: string)
    requires SlugChars(s)
    ensures ToLower(s) == s
  {
  }

  /** Slug normalisation is idempotent: a slug is its own slug. */
  lemma SlugifyIdempotent(name: string)
    ensures Slugify(Slugify(name)) == Slugify(name)
  {
    var s := Slugify(name);
    SlugifyIsSlug(name);
    ToLowerFixesSlugChars(s);
    CollapseFixesSlugs(s, false);
  }

  // ---------------------------------------------------------------- the document

  /**
   * A create request's body, field by field: `cost` 0 and `slug` "" stand for a body
   * without them, `None` for a body without `profit`, `sold` or `views`. `othersValid`
   * says whether the schema validators of the fields this model does not carry
   * (description, category and the rest) accept the body.
   */
  datatype NewProduct = NewProduct(
    name: string,
    price: int,
    cost: int,
    stock: int,
    trackInventory: bool,
    images: seq<Image>,
    profit: Option<int>,
    slug: string,
    sold: Option<int>,
    views: Option<int>,
    othersValid: bool)

  /**
   * The schema validators a create request must pass, on the values after the setters:
   * the trimmed name is present and at most 100 characters long; price, cost and stock
   * are not negative.
   */
  predicate Validates(body: NewProduct)
  {
    var name := Trim(body.name);
    name != "" && |name| <= 100 && body.price >= 0 && body.cost >= 0 && body.stock >= 0 && body.othersValid
  }

  /**
   * A product document. `cost` 0 stands for an absent cost and `slug` "" for an absent
   * `seo.slug`; both are falsy in the source as well.
   */
  class Product {
    var store: StoreId
    var name: string
    var price: int
    var cost: int
    var profit: int
    var slug: string
    var stock: int
    var sold: int
    var trackInventory: bool
    var views: int
    var images: seq<Image>

    /** The schema's `min: 0` on `stock`. */
    predicate Valid()
      reads this
    {
      stock >= 0
    }

    /** The schema validators on the modelled fields: required and `maxlength` on the name, `min: 0` on the numbers. */
    predicate PassesSchema()
      reads this
    {
      name != "" && |name| <= 100 && price >= 0 && cost >= 0 && stock >= 0
    }

    /**
     * The document `Product.create` builds from a body, before validation and the
     * pre-save hook: the name goes through its `trim` setter and the slug through its
     * `lowercase` setter; `profit` defaults to price − cost, `sold` and `views` to 0.
     */
    constructor(store: StoreId, body: NewProduct, images: seq<Image>)
      ensures this.store == store && name == Trim(body.name) && price == body.price && cost == body.cost
      ensures profit == Or(body.profit, body.price - body.cost) && slug == ToLower(body.slug)
      ensures stock == body.stock && sold == Or(body.sold, 0) && trackInventory == body.trackInventory
      ensures views == Or(body.views, 0) && this.images == images
      ensures PassesSchema() && body.othersValid <==> Validates(body)
    {
      this.store := store;
      name := Trim(body.name);
      price := body.price;
      cost := body.cost;
      profit := Or(body.profit, body.price - body.cost);
      slug := ToLower(body.slug);
      stock := body.stock;
      sold := Or(body.sold, 0);
      trackInventory := body.trackInventory;
      views := Or(body.views, 0);
      this.images := images;
    }

    /** `isInStock()`. */
    predicate IsInStock()
      reads this
    {
      !trackInventory || stock > 0
    }

    /**
     * `reduceStock(quantity)`: an untracked product always succeeds and keeps its
     * counters; a tracked one fails without change when stock is short, and otherwise
     * moves `quantity` units from `stock` to `sold`.
     */
    method ReduceStock(quantity: int) returns (ok: bool)
      modifies this
      ensures !old(trackInventory) ==> ok && unchanged(this)
      ensures old(trackInventory) && old(stock) < quantity ==> !ok && unchanged(this)
      ensures old(trackInventory) && old(stock) >= quantity ==>
        ok && stock == old(stock) - quantity && sold == old(sold) + quantity
      ensures stock + sold == old(stock) + old(sold)
      ensures old(Valid()) ==> Valid()
      ensures ok && old(trackInventory) && quantity > 0 ==> old(IsInStock())
      ensures store == old(store) && name == old(name) && price == old(price) && cost == old(cost)
      ensures profit == old(profit) && slug == old(slug) && trackInventory == old(trackInventory)
      ensures views == old(views) && images == old(images)
    {
      if !trackInventory {
        return true;
      }
      if stock < quantity {
        return false;
      }
      stock := stock - quantity;
      sold := sold + quantity;
      ok := true;
    }

    /**
     * The pre-save hook: profit is recomputed only when price and cost are both
     * non-zero, and a slug is derived from the name only when none is set.
     */
    method PreSave()
      modifies this
      ensures old(price) != 0 && old(cost) != 0 ==> profit == price - cost
      ensures !(old(price) != 0 && old(cost) != 0) ==> profit == old(profit)
      ensures slug == if old(slug) == "" && old(name) != "" then Slugify(old(name)) else old(slug)
      ensures store == old(store) && name == old(name) && price == old(price) && cost == old(cost)
      ensures stock == old(stock) && sold == old(sold) && trackInventory == old(trackInventory)
      ensures views == old(views) && images == old(images)
    {
      profit := if price != 0 && cost != 0 then price - cost else profit;
      slug := if slug == "" && name != "" then Slugify(name) else slug;
    }
  }

  /**
   * `Product.create(body)` short of storing: the document is built from the body and
   * validated; a valid one then goes through the pre-save hook, so its profit is
   * recomputed when price and cost are both set and its slug derived from the trimmed
   * name when the body has none.
   */
  method CreateDocument(store: StoreId, body: NewProduct, images: seq<Image>) returns (p: Product, valid: bool)
    ensures fresh(p) && (valid <==> Validates(body))
    ensures valid ==>
      p.store == store && p.name == Trim(body.name) && p.price == body.price && p.cost == body.cost
      && p.images == images && p.stock == body.stock && p.trackInventory == body.trackInventory
      && p.sold == Or(body.sold, 0) && p.views == Or(body.views, 0)
      && p.profit == (if body.price != 0 && body.cost != 0 then body.price - body.cost
                      else Or(body.profit, body.price - body.cost))
      && p.slug == (if body.slug != "" then ToLower(body.slug) else Slugify(Trim(body.name)))
      && p.Valid()
  {
    p := new Product(store, body, images);
    valid := p.PassesSchema() && body.othersValid;
    if valid {
      p.PreSave();
    }
  }
}
