/**
 The cart provider (src/context/CartProvider.jsx): where the cart state
 starts, which reducer actions its API dispatches, and when the remote paths
 replace the cart.

 The cart reducer itself (src/reducer/cartReducer.js) is not part of this
 model: every function that needs it takes it as a parameter `reduce`
 together with its `initialState`, so nothing here depends on how the
 reducer merges, removes or totals items. The JSON codec of localStorage is
 a parameter too.
 */
module CartProvider {
  import opened Js
  import opened AuthContext
  import opened ProductContext

  /** A cart line as the cart page reads it. */
  datatype CartItem = CartItem(
    id: int,
    title: string,
    price: real,
    quantity: int,
    thumbnail: string,
    brand: string)

  /** The reducer state the provider spreads into its context value. */
  datatype CartState = CartState(items: seq<CartItem>, totalItems: int, totalPrice: real)

  /** The actions the provider dispatches. */
  datatype CartAction =
    | AddItem(product: Product, quantity: int)
    | RemoveItem(productId: int)
    | UpdateQuantity(productId: int, quantity: int)
    | ClearCart
    | SetCart(items: seq<CartItem>)

  /** `getInitialState`: a saved cart (a non-empty string) that parses is
      used as it is; an empty or missing one, or one that fails to parse,
      gives the reducer's initial state. `parse` returns `None` where
      `JSON.parse` throws. */
  function InitialCartState(saved: Option<string>, parse: string -> Option<CartState>, initial: CartState): (s: CartState)
    ensures s == initial || (Truthy(saved) && parse(saved.value) == Some(s))
    ensures !Truthy(saved) ==> s == initial
    ensures Truthy(saved) && parse(saved.value).None? ==> s == initial
  {
    if Truthy(saved) then
      match parse(saved.value)
      case Some(state) => state
      case None => initial
    else initial
  }

  /** The persistence effect writes `stringify(state)` under "cart" after
      every change; when the codec round-trips, a reload starts from exactly
      the state that was written. */
  lemma ReloadRestoresCart(state: CartState, stringify: CartState -> string,
                           parse: string -> Option<CartState>, initial: CartState)
    requires parse(stringify(state)) == Some(state)
    requires stringify(state) != ""
    ensures InitialCartState(Some(stringify(state)), parse, initial) == state
  {
  }

  /** A call to the provider's API. `Add` carries the optional quantity
      argument (`None` when the caller leaves it out). */
  datatype ApiCall =
    | Add(product: Product, requested: Option<int>)
    | Remove(productId: int)
    | Update(productId: int, quantity: int)
    | Clear

  /** The single action each API function dispatches: same kind, same
      payload, and a left-out quantity of `addItem` becomes 1. */
  function Dispatched(call: ApiCall): (a: CartAction)
    ensures call.Add? ==>
      a.AddItem? && a.product == call.product
      && a.quantity == (if call.requested.Some? then call.requested.value else 1)
    ensures call.Remove? ==> a == RemoveItem(call.productId)
    ensures call.Update? ==> a == UpdateQuantity(call.productId, call.quantity)
    ensures call.Clear? ==> a == ClearCart
  {
    match call
    case Add(p, q) => AddItem(p, if q.Some? then q.value else 1)
    case Remove(id) => RemoveItem(id)
    case Update(id, q) => UpdateQuantity(id, q)
    case Clear => ClearCart
  }

  /** `useReducer` applying dispatched actions in order. */
  function ApplyAll(reduce: (CartState, CartAction) -> CartState, s: CartState, actions: seq<CartAction>): CartState
    decreases |actions|
  {
    if |actions| == 0 then s else ApplyAll(reduce, reduce(s, actions[0]), actions[1..])
  }

  /** An API call is exactly one reducer step, whatever the reducer is. */
  lemma ApiCallIsOneStep(reduce: (CartState, CartAction) -> CartState, s: CartState, call: ApiCall)
    ensures ApplyAll(reduce, s, [Dispatched(call)]) == reduce(s, Dispatched(call))
  {
    assert [Dispatched(call)][1..] == [];
  }

  /** What the login fetch does: the actions it dispatches and whether it
      logs an error. */
  datatype RemoteFetch = RemoteFetch(actions: seq<CartAction>, logsError: bool)

  /** The login fetch of the `carts` row. `items` is the row's `items` (None
      when there is no row, no data, or a null column) and `errorCode` the
      error's code if one came back. With no user id nothing is fetched.
      SET_CART is dispatched only when items are present (an empty array is
      present), and a PGRST116 "no row" error is not reported. */
  function FetchRemoteCart(user: Option<User>, items: Option<seq<CartItem>>, errorCode: Option<string>): (f: RemoteFetch)
    ensures !HasUserId(user) ==> f == RemoteFetch([], false)
    ensures HasUserId(user) ==> (f.actions == if items.Some? then [SetCart(items.value)] else [])
    ensures HasUserId(user) ==> (f.logsError <==> errorCode.Some? && errorCode.value != "PGRST116")
  {
    if !HasUserId(user) then RemoteFetch([], false)
    else
      RemoteFetch(
        if items.Some? then [SetCart(items.value)] else [],
        errorCode.Some? && errorCode.value != "PGRST116")
  }

  /** The realtime listener exists only for a user id, and dispatches
      SET_CART only when the update carries `items`. */
  function RealtimeCart(user: Option<User>, newItems: Option<seq<CartItem>>): (actions: seq<CartAction>)
    ensures |actions| <= 1
    ensures |actions| == 1 <==> HasUserId(user) && newItems.Some?
    ensures |actions| == 1 ==> actions[0] == SetCart(newItems.value)
  {
    if HasUserId(user) && newItems.Some? then [SetCart(newItems.value)] else []
  }

  /** The debounced sync writes the full item list to the user's row, and
      only when there is a user id. */
  function SyncWrite(user: Option<User>, s: CartState): (w: Option<seq<CartItem>>)
    ensures w.Some? <==> HasUserId(user)
    ensures w.Some? ==> w.value == s.items
  {
    if HasUserId(user) then Some(s.items) else None
  }

  /** With no user id the remote paths neither write nor change the cart,
      whatever the reducer does and whatever the backend would have said. */
  lemma NoUserNoRemoteEffect(reduce: (CartState, CartAction) -> CartState, s: CartState, user: Option<User>,
                             items: Option<seq<CartItem>>, errorCode: Option<string>, pushed: Option<seq<CartItem>>)
    requires !HasUserId(user)
    ensures ApplyAll(reduce, s, FetchRemoteCart(user, items, errorCode).actions) == s
    ensures ApplyAll(reduce, s, RealtimeCart(user, pushed)) == s
    ensures SyncWrite(user, s) == None
  {
  }

  /** A remote snapshot with items reaches the reducer as exactly one
      SET_CART carrying those items, through either remote path. */
  lemma RemoteSnapshotIsOneSetCart(reduce: (CartState, CartAction) -> CartState, s: CartState,
                                   user: Option<User>, items: seq<CartItem>, errorCode: Option<string>)
    requires HasUserId(user)
    ensures ApplyAll(reduce, s, FetchRemoteCart(user, Some(items), errorCode).actions) == reduce(s, SetCart(items))
    ensures ApplyAll(reduce, s, RealtimeCart(user, Some(items))) == reduce(s, SetCart(items))
  {
    assert [SetCart(items)][1..] == [];
  }
}
