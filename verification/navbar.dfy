/**
 The navigation bar (src/components/Navbar.jsx): the links it lists, the
 cart badge, and how it opens the sign-in modal.
 */
module Navbar {
  import opened Js
  import opened AuthContext
  import AuthModal
  import ProtectedRoute
  import CartProvider

  datatype NavLink = NavLink(name: string, path: string)

  /** The links every visitor sees. */
  const BaseLinks: seq<NavLink> := [NavLink("Home", "/"), NavLink("Contact", "/contact"), NavLink("About", "/about")]

  /** The links pushed for an admin. */
  const AdminLinks: seq<NavLink> := [NavLink("Dashboard", "/admin"), NavLink("Orders", "/admin/orders")]

  predicate IsAdmin(user: Option<User>) {
    user.Some? && user.value.role == "admin"
  }

  /** `navLinks`: the three base links, followed by the two admin links
      exactly when the user's role is "admin". */
  function NavLinks(user: Option<User>): (links: seq<NavLink>)
    ensures |links| >= 3 && links[..3] == BaseLinks
    ensures IsAdmin(user) ==> links == BaseLinks + AdminLinks
    ensures !IsAdmin(user) ==> links == BaseLinks
  {
    if IsAdmin(user) then BaseLinks + AdminLinks else BaseLinks
  }

  /** Every link the bar shows opens for its user once the session has
      loaded: the admin links appear only for users the admin guard lets
      through, and every admin-only route is linked for them. */
  lemma LinksMatchGuard(user: Option<User>)
    ensures forall l :: l in NavLinks(user) ==> ProtectedRoute.Visit(l.path, user, false) == ProtectedRoute.RenderChildren
    ensures IsAdmin(user) ==> forall path :: ProtectedRoute.RouteProtection(path) == ProtectedRoute.AdminOnly ==>
      exists l :: l in NavLinks(user) && ProtectedRoute.RouteKey(l.path) == ProtectedRoute.RouteKey(path)
  {
    ProtectedRoute.CanonicalKey("/contact");
    ProtectedRoute.CanonicalKey("/about");
    ProtectedRoute.CanonicalKey("/admin");
    ProtectedRoute.CanonicalKey("/admin/orders");
    if IsAdmin(user) {
      assert NavLinks(user)[3].path == "/admin";
      assert NavLinks(user)[4].path == "/admin/orders";
    }
  }

  /** `totalItems > 0 && <span>{totalItems}</span>`: the cart badge and the
      number it shows. */
  function CartBadge(totalItems: int): (badge: Option<int>)
    ensures badge.Some? <==> totalItems > 0
    ensures badge.Some? ==> badge.value == totalItems
  {
    if totalItems > 0 then Some(totalItems) else None
  }

  /** The number of units in a list of cart lines. */
  function Units(items: seq<CartProvider.CartItem>): int {
    if items == [] then 0 else items[0].quantity + Units(items[1..])
  }

  lemma {:induction false} UnitsAtLeastLines(items: seq<CartProvider.CartItem>)
    requires forall i :: 0 <= i < |items| ==> items[i].quantity >= 1
    ensures Units(items) >= |items|
    decreases |items|
  {
    if items != [] {
      UnitsAtLeastLines(items[1..]);
    }
  }

  /** When the provider's `totalItems` counts the units in the cart and every
      line holds at least one unit (the quantity buttons never ask for
      fewer), the badge shows exactly when the cart has a line, and its
      number is at least the number of lines. */
  lemma BadgeShowsForNonEmptyCart(state: CartProvider.CartState)
    requires state.totalItems == Units(state.items)
    requires forall i :: 0 <= i < |state.items| ==> state.items[i].quantity >= 1
    ensures CartBadge(state.totalItems).Some? <==> state.items != []
    ensures CartBadge(state.totalItems).Some? ==> CartBadge(state.totalItems).value >= |state.items|
  {
    UnitsAtLeastLines(state.items);
  }

  /** The bar's own state: the mobile menu, and the auth modal with the view
      it opens in. */
  datatype NavState = NavState(mobileMenuOpen: bool, authModalOpen: bool, authModalView: AuthModal.View)

  function InitialNavState(): NavState {
    NavState(false, false, AuthModal.Login)
  }

  /** `openAuthModal(view)`: open the modal in that view and close the mobile
      menu. */
  function OpenAuthModal(s: NavState, view: AuthModal.View): (r: NavState)
    ensures r.authModalOpen && r.authModalView == view && !r.mobileMenuOpen
  {
    NavState(false, true, view)
  }

  /** The modal's close button closes it and keeps the view it was opened in. */
  function CloseAuthModal(s: NavState): (r: NavState)
    ensures !r.authModalOpen && r.authModalView == s.authModalView && r.mobileMenuOpen == s.mobileMenuOpen
  {
    s.(authModalOpen := false)
  }

  /** Opening after a close records the requested view in the bar's state,
      whatever view was recorded before. */
  lemma ReopenShowsRequestedView(s: NavState, first: AuthModal.View, second: AuthModal.View)
    ensures OpenAuthModal(CloseAuthModal(OpenAuthModal(s, first)), second) == OpenAuthModal(s, second)
  {
  }

  /** The bar together with the modal it mounts. The modal is mounted once,
      with the bar, and renders nothing while closed; its own `view` state is
      seeded from the `initialView` prop on that first render only, and
      afterwards changes only through the modal's switch links. */
  datatype Screen = Screen(nav: NavState, modalView: AuthModal.View)

  /** On mount the bar records "login" and the modal takes it as its view. */
  function InitialScreen(): (s: Screen)
    ensures !s.nav.authModalOpen && s.modalView == s.nav.authModalView
  {
    Screen(InitialNavState(), InitialNavState().authModalView)
  }

  /** The switch link inside the modal changes the modal's view and leaves
      the bar's state alone. */
  function SwitchInModal(s: Screen): (r: Screen)
    ensures r.modalView != s.modalView && r.nav == s.nav
  {
    s.(modalView := AuthModal.SwitchView(s.modalView).0)
  }

  /** `openAuthModal(view)` as written: the bar records the view and opens
      the modal, but the mounted modal keeps the view it already had. */
  function OpenAsWritten(s: Screen, view: AuthModal.View): (r: Screen)
    ensures r.nav == OpenAuthModal(s.nav, view)
    ensures r.modalView == s.modalView
  {
    s.(nav := OpenAuthModal(s.nav, view))
  }

  /** The "Join ShopEase" button asks for the sign-up view, yet on a fresh
      page the modal opens on the sign-in form. */
  lemma JoinOpensSignInView()
    ensures var r := OpenAsWritten(InitialScreen(), AuthModal.Signup);
      r.nav.authModalOpen && r.nav.authModalView == AuthModal.Signup && r.modalView == AuthModal.Login
  {
  }

  /** Opening with the modal's view re-synchronised to the requested one,
      as the prop's name intends: the modal shows the view the caller asked
      for. */
  function Open(s: Screen, view: AuthModal.View): (r: Screen)
    ensures r.nav == OpenAuthModal(s.nav, view)
    ensures r.modalView == view && r.modalView == r.nav.authModalView
  {
    Screen(OpenAuthModal(s.nav, view), view)
  }

  /** The written and the corrected opening differ exactly when the view
      the modal last showed is not the requested one. */
  lemma AsWrittenAgreesOnlyOnSameView(s: Screen, view: AuthModal.View)
    ensures OpenAsWritten(s, view) == Open(s, view) <==> s.modalView == view
  {
  }

  /** With the corrected opening, the modal shows what was asked for even
      after the visitor switched views inside it and closed it. */
  lemma OpenAfterSwitchShowsRequested(s: Screen, first: AuthModal.View, second: AuthModal.View)
    ensures var t := SwitchInModal(Open(s, first));
      var r := Open(t.(nav := CloseAuthModal(t.nav)), second);
      r.modalView == second && r.nav.authModalOpen
  {
  }
}
