/**
 The storefront's home page (src/pages/Home.jsx): the category pills, the
 category filter over the loaded catalogue, the list of granular categories
 and what the product grid shows.

 The search box only dispatches SET_QUERY after a 500 ms debounce; the
 query itself runs in the database, so it is not modelled here.
 */
module Home {
  import opened Js
  import opened Seqs
  import opened ProductContext
  import ManageProducts

  /** The `categoryGroups` object: a group key names a list of granular
      categories; any other string is not a group. */
  function CategoryGroup(key: string): (g: Option<seq<string>>)
    ensures g.Some? <==> key in GroupKeys
  {
    if key == "electronics" then Some(["smartphones", "laptops", "tablets", "mobile-accessories"])
    else if key == "fashion" then
      Some(["mens-shirts", "mens-shoes", "womens-dresses", "womens-shoes", "womens-bags", "tops", "sunglasses"])
    else if key == "watches" then Some(["mens-watches", "womens-watches"])
    else if key == "beauty" then Some(["fragrances", "skin-care"])
    else None
  }

  const GroupKeys: seq<string> := ["electronics", "fashion", "watches", "beauty"]

  /** The main pills, in display order: "all" and then the group keys. */
  const MainCategories: seq<string> := ["all"] + GroupKeys

  /** Whether a product passes the active category: "all" passes
      everything, a group passes its members, and any other value passes the
      products of exactly that category. */
  predicate Shows(active: string, p: Product) {
    if active == "all" then true
    else if CategoryGroup(active).Some? then p.category in CategoryGroup(active).value
    else p.category == active
  }

  /** `filteredProducts`. */
  function Filtered(products: seq<Product>, active: string): (r: seq<Product>)
    ensures |r| <= |products|
    ensures forall p :: p in r <==> p in products && Shows(active, p)
  {
    Filter(products, (p: Product) => Shows(active, p))
  }

  /** The filter keeps the catalogue's order and multiplicities, and "all"
      is the whole catalogue. */
  lemma FilteredIsSubseq(products: seq<Product>, active: string)
    ensures IsSubseq(Filtered(products, active), products)
    ensures forall p :: multiset(Filtered(products, active))[p] == if Shows(active, p) then multiset(products)[p] else 0
    ensures Filtered(products, "all") == products
  {
    var keep := (p: Product) => Shows(active, p);
    FilterIsSubseq(products, keep);
    forall p
      ensures multiset(Filtered(products, active))[p] == if Shows(active, p) then multiset(products)[p] else 0
    {
      FilterCounts(products, keep, p);
    }
    FilterAllPass(products, (p: Product) => Shows("all", p));
  }

  /** A group pill shows exactly the products whose category is one of its
      members; any other value shows exactly that category. */
  lemma FilteredByKind(products: seq<Product>, active: string, p: Product)
    requires active != "all"
    ensures active in GroupKeys ==>
      (p in Filtered(products, active) <==> p in products && p.category in CategoryGroup(active).value)
    ensures active !in GroupKeys ==>
      (p in Filtered(products, active) <==> p in products && p.category == active)
  {
  }

  /** `[...new Set(products.map(p => p.category))]`: each category of the
      catalogue once, in order of first appearance. */
  function AllGranularCategories(products: seq<Product>): (cats: seq<string>)
    ensures Distinct(cats)
    ensures forall c :: c in cats <==> exists p :: p in products && p.category == c
  {
    var all := Map(products, (p: Product) => p.category);
    assert forall c :: c in all <==> exists p :: p in products && p.category == c by {
      forall c
        ensures c in all <==> exists p :: p in products && p.category == c
      {
        if c in all {
          var i :| 0 <= i < |all| && all[i] == c;
          assert products[i] in products;
        }
        if exists p :: p in products && p.category == c {
          var p :| p in products && p.category == c;
          var i :| 0 <= i < |products| && products[i] == p;
          assert all[i] == c;
        }
      }
    }
    Dedup(all)
  }

  /** Picking a granular pill shows every product of that category, and
      nothing else, unless the category's name is "all" or a group key. */
  lemma GranularPillShowsItsProducts(products: seq<Product>, c: string)
    requires c in AllGranularCategories(products)
    requires c != "all" && c !in GroupKeys
    ensures |Filtered(products, c)| > 0
    ensures forall p :: p in Filtered(products, c) <==> p in products && p.category == c
  {
    var p :| p in products && p.category == c;
    assert p in Filtered(products, c);
  }

  /** A product whose category is literally "beauty" has a granular pill,
      but picking it applies the group filter, which does not list "beauty":
      the product disappears. */
  lemma GroupNamedCategoryHidden(p: Product)
    requires p.category == "beauty"
    ensures "beauty" in AllGranularCategories([p])
    ensures Filtered([p], "beauty") == []
  {
    assert p in [p];
  }

  /** The admin form offers "skincare", but the "beauty" group lists
      "skin-care": a product saved with the offered category is not shown
      under "beauty", while a "skin-care" one is. */
  lemma SkincareNotInBeauty(p: Product, q: Product)
    requires p.category == "skincare" && q.category == "skin-care"
    ensures "skincare" in ManageProducts.CategoryOptions
    ensures ManageProducts.SanitiseCategory("skincare") == "skincare"
    ensures p !in Filtered([p], "beauty")
    ensures q in Filtered([q], "beauty")
  {
    ManageProducts.SkincareSavedAsOffered();
    BeautyFilter(p, q);
  }

  /** Under "beauty", a "skincare" product is hidden and a "skin-care" one
      shown. */
  lemma BeautyFilter(p: Product, q: Product)
    requires p.category == "skincare" && q.category == "skin-care"
    ensures p !in Filtered([p], "beauty")
    ensures q in Filtered([q], "beauty")
  {
    assert CategoryGroup("beauty") == Some(["fragrances", "skin-care"]);
    assert !Shows("beauty", p);
    assert Shows("beauty", q);
    assert q in [q];
  }

  /** The pill state: the active category and whether the granular panel is
      open. */
  datatype Pills = Pills(active: string, showAll: bool)

  /** The page starts on "all" with the panel closed. */
  function InitialPills(): Pills {
    Pills("all", false)
  }

  /** A main pill selects its category and closes the panel. */
  function ClickMain(s: Pills, cat: string): (r: Pills)
    ensures r.active == cat && !r.showAll
  {
    Pills(cat, false)
  }

  /** A granular pill selects its category and leaves the panel open. */
  function ClickGranular(s: Pills, cat: string): (r: Pills)
    ensures r.active == cat && r.showAll == s.showAll
  {
    s.(active := cat)
  }

  /** "View All" / "Hide Filters" flips the panel and keeps the selection. */
  function ToggleViewAll(s: Pills): (r: Pills)
    ensures r.showAll != s.showAll && r.active == s.active
  {
    s.(showAll := !s.showAll)
  }

  /** Flipping the panel twice restores the pill state. */
  lemma ToggleViewAllTwice(s: Pills)
    ensures ToggleViewAll(ToggleViewAll(s)) == s
  {
  }

  /** `p.images?.[0] || p.thumbnail`: the first image when it is non-empty,
      else the thumbnail. */
  function CardImage(p: Product): (src: string)
    ensures |p.images| > 0 && p.images[0] != "" ==> src == p.images[0]
    ensures |p.images| == 0 || p.images[0] == "" ==> src == p.thumbnail
  {
    if |p.images| > 0 then Or(p.images[0], p.thumbnail) else p.thumbnail
  }

  /** What the grid shows: skeleton cards while loading, otherwise one card
      per filtered product, plus the "no products" message when there are
      none. */
  datatype Grid = Grid(skeletons: nat, cards: seq<Product>, emptyMessage: bool)

  function ProductGrid(state: State, active: string): (g: Grid)
    ensures state.loading ==> g == Grid(8, [], false)
    ensures !state.loading ==> g.skeletons == 0 && g.cards == Filtered(state.products, active)
    ensures g.emptyMessage <==> !state.loading && forall p :: p in state.products ==> !Shows(active, p)
  {
    if state.loading then Grid(8, [], false)
    else
      var cards := Filtered(state.products, active);
      assert cards != [] ==> cards[0] in cards;
      Grid(0, cards, |cards| == 0)
  }
}
