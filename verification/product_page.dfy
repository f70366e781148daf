/**
 The product detail page (src/pages/Product.jsx): finding the product for
 the route id, the skeleton shown until one is found, the quantity selector,
 and the "Add to Bag" and "Buy Now" buttons.

 The route parameter's `Number(id)` conversion is a parameter: `None`
 stands for `NaN`, which equals no product id.
 */
module ProductPage {
  import opened Js
  import opened Quantity
  import opened ProductContext
  import opened CartProvider

  /** `products[k]` is the first product whose id is `id`. */
  predicate FirstWithId(products: seq<Product>, id: int, k: int) {
    0 <= k < |products| && products[k].id == id && forall j :: 0 <= j < k ==> products[j].id != id
  }

  /** `products.find(p => p.id === id)`: the first product with that id, or
      nothing when none has it. */
  function FindById(products: seq<Product>, id: int): (r: Option<Product>)
    ensures r.None? <==> forall p :: p in products ==> p.id != id
    ensures r.Some? ==> exists k :: FirstWithId(products, id, k) && products[k] == r.value
    decreases |products|
  {
    if |products| == 0 then None
    else if products[0].id == id then Some(products[0])
    else
      var rest := FindById(products[1..], id);
      assert rest.Some? ==> exists k :: FirstWithId(products, id, k) && products[k] == rest.value by {
        if rest.Some? {
          var k :| FirstWithId(products[1..], id, k) && products[1..][k] == rest.value;
          assert products[k + 1] == rest.value;
          assert forall j :: 0 <= j < k + 1 ==> products[j].id != id by {
            forall j | 0 <= j < k + 1
              ensures products[j].id != id
            {
              if j > 0 {
                assert products[j] == products[1..][j - 1];
              }
            }
          }
          assert FirstWithId(products, id, k + 1);
        }
      }
      assert products == [products[0]] + products[1..];
      rest
  }

  /** The page's state: the product shown (`{}` is `None`) and the selector
      quantity. */
  datatype Page = Page(shown: Option<Product>, quantity: int)

  /** The page starts with `{}` and quantity 1. */
  function InitialPage(): Page {
    Page(None, 1)
  }

  /** The lookup effect: it runs only once the catalogue is non-empty, and
      then shows the found product or `{}`. The selector is untouched. */
  function OnCatalogue(page: Page, products: seq<Product>, routeId: Option<int>): (r: Page)
    ensures |products| == 0 ==> r == page
    ensures r.quantity == page.quantity
    ensures |products| > 0 && routeId.None? ==> r.shown == None
    ensures |products| > 0 && routeId.Some? ==> r.shown == FindById(products, routeId.value)
  {
    if |products| == 0 then page
    else page.(shown := if routeId.Some? then FindById(products, routeId.value) else None)
  }

  /** `!product?.id`: the skeleton is shown while no product is set, and also
      for a product whose id is the falsy 0. */
  predicate ShowsSkeleton(page: Page) {
    page.shown.None? || page.shown.value.id == 0
  }

  /** With a loaded catalogue and a non-zero route id, the page leaves the
      skeleton exactly when some product has that id; before the catalogue
      loads it stays in the skeleton. */
  lemma SkeletonUntilFound(products: seq<Product>, id: int)
    requires id != 0
    ensures ShowsSkeleton(OnCatalogue(InitialPage(), [], Some(id)))
    ensures |products| > 0 ==>
      (!ShowsSkeleton(OnCatalogue(InitialPage(), products, Some(id))) <==> exists p :: p in products && p.id == id)
  {
  }

  /** One press of the selector's "-" or "+". */
  datatype Press = Minus | Plus

  function Select(q: int, b: Press): int {
    match b
    case Minus => StepDown(q)
    case Plus => StepUp(q)
  }

  /** The selector quantity after a run of presses. */
  function RunSelector(q: int, presses: seq<Press>): int
    decreases |presses|
  {
    if |presses| == 0 then q else RunSelector(Select(q, presses[0]), presses[1..])
  }

  /** From a quantity of at least 1 (the page starts at 1) no run of presses
      takes the selector below 1, and each press moves it by at most one. */
  lemma {:induction false} SelectorStaysPositive(q: int, presses: seq<Press>)
    requires q >= 1
    ensures 1 <= RunSelector(q, presses) <= q + |presses|
    decreases |presses|
  {
    if |presses| > 0 {
      SelectorStaysPositive(Select(q, presses[0]), presses[1..]);
    }
  }

  /** `handleAddToCart`: one ADD_ITEM with the shown product and the
      selector quantity. The button exists only once the skeleton is gone. */
  function AddToBag(page: Page): (a: CartAction)
    requires !ShowsSkeleton(page)
    ensures a.AddItem? && a.product == page.shown.value && a.quantity == page.quantity
  {
    Dispatched(Add(page.shown.value, Some(page.quantity)))
  }

  /** What "Buy Now" does: the cart action and where it navigates. */
  datatype BuyNowEffect = BuyNowEffect(action: CartAction, navigateTo: string)

  /** `handleBuyNow`: the same ADD_ITEM as "Add to Bag", then "/checkout". */
  function BuyNow(page: Page): (e: BuyNowEffect)
    requires !ShowsSkeleton(page)
    ensures e.action == AddToBag(page)
    ensures e.navigateTo == "/checkout"
  {
    BuyNowEffect(Dispatched(Add(page.shown.value, Some(page.quantity))), "/checkout")
  }
}
