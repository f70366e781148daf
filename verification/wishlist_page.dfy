/**
 The wishlist page (src/pages/Wishlist.jsx): which catalogue products it
 lists, and the "add all to bag" button.
 */
module WishlistPage {
  import opened Js
  import opened Seqs
  import opened ProductContext
  import opened CartProvider

  /** `products.filter(p => wishlistProductIds.includes(p.id))`: the loaded
      products whose id is wishlisted, in catalogue order. A wishlisted id
      that is not in the loaded catalogue lists nothing. */
  function WishlistedProducts(products: seq<Product>, ids: seq<int>): (r: seq<Product>)
    ensures forall p :: p in r <==> p in products && p.id in ids
    ensures IsSubseq(r, products)
  {
    FilterIsSubseq(products, (p: Product) => p.id in ids);
    Filter(products, (p: Product) => p.id in ids)
  }

  /** What the button does: the cart actions, in order, and the count in
      its toast (none when nothing is listed). */
  datatype AddAll = AddAll(actions: seq<CartAction>, toastCount: Option<int>)

  /** `handleAddAllToCart`: nothing when the list is empty; otherwise one
      `addItem(product, 1)` per listed product, in list order, and a toast
      with the number of products. */
  function AddAllToCart(products: seq<Product>, ids: seq<int>): (a: AddAll)
    ensures var listed := WishlistedProducts(products, ids);
      && |a.actions| == |listed|
      && (forall i :: 0 <= i < |listed| ==> a.actions[i] == AddItem(listed[i], 1))
      && (a.toastCount.Some? <==> |listed| > 0)
      && (a.toastCount.Some? ==> a.toastCount.value == |listed|)
  {
    var listed := WishlistedProducts(products, ids);
    if |listed| == 0 then AddAll([], None)
    else AddAll(Map(listed, (p: Product) => Dispatched(Add(p, Some(1)))), Some(|listed|))
  }

  /** Every action adds one unit of a wishlisted catalogue product, and
      every such product gets its action; nothing is added for an empty or
      unmatched wishlist. */
  lemma AddAllCoversWishlist(products: seq<Product>, ids: seq<int>)
    ensures forall a :: a in AddAllToCart(products, ids).actions ==>
      a.AddItem? && a.quantity == 1 && a.product in products && a.product.id in ids
    ensures forall p :: p in products && p.id in ids ==> AddItem(p, 1) in AddAllToCart(products, ids).actions
    ensures (forall p :: p in products ==> p.id !in ids) ==> AddAllToCart(products, ids) == AddAll([], None)
  {
    var listed := WishlistedProducts(products, ids);
    var acts := AddAllToCart(products, ids).actions;
    forall p | p in products && p.id in ids
      ensures AddItem(p, 1) in acts
    {
      var i :| 0 <= i < |listed| && listed[i] == p;
      assert acts[i] == AddItem(p, 1);
    }
  }
}
