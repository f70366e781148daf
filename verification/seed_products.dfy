/**
 The catalogue seeding script (scripts/seed_products.js): it empties the
 `products` table, keeps the fetched demo products whose category is
 allowed, reshapes each into a table row, and inserts them.

 The HTTP fetch, the database calls and the timestamps are not modelled;
 what the fetch returned and whether each database call succeeded are
 parameters.
 */
module SeedProducts {
  import opened Js
  import opened Seqs
  import Home

  /** A product's `category` as the demo API may send it: a string, an
      object whose `slug` may be missing, or `null`. */
  datatype RawCategory = CatString(name: string) | CatObject(slug: Option<string>) | CatNull

  /** A product as fetched. */
  datatype RawProduct = RawProduct(
    id: int,
    title: string,
    description: string,
    price: real,
    discountPercentage: real,
    rating: real,
    stock: int,
    brand: string,
    category: RawCategory,
    thumbnail: string,
    images: seq<string>)

  /** A row as inserted; the category is always a string. */
  datatype SeedRow = SeedRow(
    id: int,
    title: string,
    description: string,
    price: real,
    discountPercentage: real,
    rating: real,
    stock: int,
    brand: string,
    category: string,
    thumbnail: string,
    images: seq<string>)

  /** `ALLOWED_CATEGORIES`. The comment below it speaks of removing
      "skin-care", but the list still holds it. */
  const AllowedCategories: seq<string> := [
    "fragrances",
    "smartphones", "laptops", "tablets", "mobile-accessories",
    "mens-watches", "womens-watches",
    "mens-shirts", "mens-shoes", "womens-dresses", "womens-shoes", "womens-bags", "tops",
    "sunglasses", "skin-care"]

  /** The filter: the category string is allowed, or the category object's
      slug is. A `null` category or an object without a slug is dropped. */
  predicate Kept(p: RawProduct) {
    match p.category
    case CatString(name) => name in AllowedCategories
    case CatObject(slug) => slug.Some? && slug.value in AllowedCategories
    case CatNull => false
  }

  /** The category string of a kept product: the object's slug, or the
      string itself. */
  function CategoryOf(p: RawProduct): (c: string)
    requires Kept(p)
    ensures c in AllowedCategories
    ensures p.category.CatString? ==> c == p.category.name
    ensures p.category.CatObject? ==> Some(c) == p.category.slug
  {
    match p.category
    case CatString(name) => name
    case CatObject(slug) => slug.value
  }

  /** The row for a kept product: every field copied, `discountPercentage`
      stored as `discount_percentage`, and the category flattened to its
      string. Only kept products are transformed (`typeof null` is
      "object", so a `null` category would throw here). */
  function Transform(p: RawProduct): (r: SeedRow)
    requires Kept(p)
    ensures r.id == p.id && r.title == p.title && r.description == p.description
    ensures r.price == p.price && r.discountPercentage == p.discountPercentage && r.rating == p.rating
    ensures r.stock == p.stock && r.brand == p.brand && r.thumbnail == p.thumbnail && r.images == p.images
    ensures r.category == CategoryOf(p)
  {
    SeedRow(p.id, p.title, p.description, p.price, p.discountPercentage, p.rating, p.stock,
            p.brand, CategoryOf(p), p.thumbnail, p.images)
  }

  /** The rows inserted: one per kept product, in fetch order. */
  function SeedRows(all: seq<RawProduct>): (rows: seq<SeedRow>)
    ensures |rows| == |Filter(all, Kept)|
    ensures forall i :: 0 <= i < |rows| ==> Kept(Filter(all, Kept)[i]) && rows[i] == Transform(Filter(all, Kept)[i])
    decreases |all|
  {
    if |all| == 0 then []
    else
      var rest := SeedRows(all[1..]);
      assert Filter(all, Kept) == (if Kept(all[0]) then [all[0]] else []) + Filter(all[1..], Kept) by {
        FilterAppend([all[0]], all[1..], Kept);
        assert [all[0]] + all[1..] == all;
      }
      if Kept(all[0]) then [Transform(all[0])] + rest else rest
  }

  /** Every inserted row has an allowed category, and every allowed
      category belongs to one of the home page's groups, so each seeded
      product shows under some group pill. */
  lemma SeededRowsReachAGroup(all: seq<RawProduct>)
    ensures forall r :: r in SeedRows(all) ==> r.category in AllowedCategories
    ensures forall c :: c in AllowedCategories ==>
      exists k :: k in Home.GroupKeys && c in Home.CategoryGroup(k).value
  {
    var rows := SeedRows(all);
    forall r | r in rows
      ensures r.category in AllowedCategories
    {
      var i :| 0 <= i < |rows| && rows[i] == r;
    }
    assert Home.GroupKeys[0] == "electronics" && Home.GroupKeys[1] == "fashion";
    assert Home.GroupKeys[2] == "watches" && Home.GroupKeys[3] == "beauty";
    forall c | c in AllowedCategories
      ensures exists k :: k in Home.GroupKeys && c in Home.CategoryGroup(k).value
    {
      if c in Home.CategoryGroup("electronics").value {
        assert "electronics" in Home.GroupKeys;
      } else if c in Home.CategoryGroup("fashion").value {
        assert "fashion" in Home.GroupKeys;
      } else if c in Home.CategoryGroup("watches").value {
        assert "watches" in Home.GroupKeys;
      } else {
        assert c in Home.CategoryGroup("beauty").value;
        assert "beauty" in Home.GroupKeys;
      }
    }
  }

  /** "skin-care" is kept in either category shape and lands in the
      "beauty" group; "beauty" itself and `null` are dropped. */
  lemma SkinCareKept(p: RawProduct)
    ensures p.category == CatString("skin-care") ==> Kept(p) && Transform(p).category == "skin-care"
    ensures p.category == CatObject(Some("skin-care")) ==> Kept(p) && Transform(p).category == "skin-care"
    ensures "skin-care" in Home.CategoryGroup("beauty").value
    ensures p.category == CatString("beauty") || p.category == CatNull ==> !Kept(p)
  {
    assert AllowedCategories[14] == "skin-care";
  }

  /** The clear step deletes the rows whose id is not 0, so a row with id 0
      survives it and every other row is removed. */
  function ClearTable(ids: seq<int>): (kept: seq<int>)
    ensures forall x :: x in kept <==> x in ids && x == 0
  {
    Filter(ids, (x: int) => x == 0)
  }

  /** The insert the script makes: none when the clear fails or the fetch
      throws, otherwise the rows of the kept products. */
  function SeedInsert(clearSucceeded: bool, fetched: Option<seq<RawProduct>>): (insert: Option<seq<SeedRow>>)
    ensures insert.Some? <==> clearSucceeded && fetched.Some?
    ensures insert.Some? ==> insert.value == SeedRows(fetched.value)
  {
    if clearSucceeded && fetched.Some? then Some(SeedRows(fetched.value)) else None
  }
}
