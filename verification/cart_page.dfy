/**
 The cart page (src/pages/Cart.jsx): the quantity buttons on each line and
 the checkout button's guest guard.
 */
module CartPage {
  import opened Js
  import opened Quantity
  import opened AuthContext
  import opened CartProvider
  import ProtectedRoute

  /** The "-" button on a line: one UPDATE_QUANTITY for that line, asking for
      one less but never below 1. At quantity 1 it asks for 1 again, so the
      line stays as it is. */
  function Decrement(item: CartItem): (a: CartAction)
    ensures a.UpdateQuantity? && a.productId == item.id
    ensures a.quantity >= 1
    ensures item.quantity > 1 ==> a.quantity == item.quantity - 1
    ensures item.quantity <= 1 ==> a.quantity == 1
  {
    Dispatched(Update(item.id, StepDown(item.quantity)))
  }

  /** The "+" button on a line: one UPDATE_QUANTITY asking for exactly one
      more. */
  function Increment(item: CartItem): (a: CartAction)
    ensures a.UpdateQuantity? && a.productId == item.id
    ensures a.quantity == item.quantity + 1
  {
    Dispatched(Update(item.id, StepUp(item.quantity)))
  }

  /** `handleCheckout`: a guest stays on the page (and is told to log in); a
      signed-in user goes to "/checkout". */
  function CheckoutTarget(user: Option<User>): (path: Option<string>)
    ensures path.Some? <==> user.Some?
    ensures path.Some? ==> path.value == "/checkout"
  {
    if user.None? then None else Some("/checkout")
  }

  /** The cart's guest check agrees with the checkout route's guard: the
      button sends exactly the users the guard lets through, and a guest
      it keeps back would have been sent home by the guard. */
  lemma CheckoutTargetMatchesGuard(user: Option<User>)
    ensures CheckoutTarget(user).Some? <==> ProtectedRoute.Visit("/checkout", user, false) == ProtectedRoute.RenderChildren
    ensures CheckoutTarget(user).Some? ==> ProtectedRoute.RouteProtection(CheckoutTarget(user).value) == ProtectedRoute.SignedIn
    ensures CheckoutTarget(user).None? ==> ProtectedRoute.Visit("/checkout", user, false) == ProtectedRoute.RedirectHome
  {
    ProtectedRoute.CanonicalKey("/checkout");
  }
}
