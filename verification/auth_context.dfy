/**
 The identity and account rules of the auth provider
 (src/context/AuthContext.jsx): the user record built from a session, the
 profile merge, the profile update mapping, the initial status of a new
 order, and the dashboard's new-order count.

 The hosted auth service and database are not modelled: their answers are
 parameters (`Response` values), and the writes the provider asks for are
 results.
 */
module AuthContext {
  import opened Js
  import opened Seqs

  /** A shipping address as the checkout form submits it; a field that is
      missing from the stored JSON is `""`. */
  datatype Address = Address(
    fullName: string,
    street: string,
    city: string,
    state: string,
    pincode: string,
    phone: string)

  /** The empty object `{}` a fresh session user starts with. */
  function NoAddress(): Address {
    Address("", "", "", "", "", "")
  }

  /** The application's user object. */
  datatype User = User(
    id: string,
    email: string,
    fullName: string,
    role: string,
    profilePic: Option<string>,
    phone: string,
    shippingAddress: Address)

  /** `user?.id` is truthy: there is a user and its id is non-empty. */
  predicate HasUserId(user: Option<User>) {
    user.Some? && user.value.id != ""
  }

  /** The part of the auth session's user that the provider reads. */
  datatype SessionUser = SessionUser(id: string, email: string, metadataFullName: Option<string>)

  /** The user built from the session before the profile row arrives. Every
      session user gets the plain role, no picture, an empty phone and an
      empty address; the name comes from the sign-up metadata and is never
      empty. */
  function SessionDefaults(su: SessionUser): (u: User)
    ensures u.id == su.id && u.email == su.email
    ensures u.role == "user" && u.profilePic == None && u.phone == ""
    ensures u.shippingAddress == NoAddress()
    ensures Truthy(su.metadataFullName) ==> u.fullName == su.metadataFullName.value
    ensures !Truthy(su.metadataFullName) ==> u.fullName == "New User"
    ensures u.fullName != ""
  {
    User(su.id, su.email, OrElse(su.metadataFullName, "New User"), "user", None, "", NoAddress())
  }

  /** What the auth listener leaves behind: the user, the loading flag, and
      the id whose profile row it asks for (if any). */
  datatype AuthState = AuthState(user: Option<User>, loading: bool, profileRequest: Option<string>)

  /** The provider starts with no user and loading. */
  function InitialAuthState(): AuthState {
    AuthState(None, true, None)
  }

  /** `onAuthStateChange`: a session with a user installs the session
      defaults and asks for that user's profile row; no session clears the
      user. Either way loading ends. */
  function OnAuthStateChange(session: Option<SessionUser>): (a: AuthState)
    ensures !a.loading
    ensures session.None? ==> a.user == None && a.profileRequest == None
    ensures session.Some? ==>
      a.user == Some(SessionDefaults(session.value)) && a.profileRequest == Some(session.value.id)
  {
    match session
    case None => AuthState(None, false, None)
    case Some(su) => AuthState(Some(SessionDefaults(su)), false, Some(su.id))
  }

  /** A row of the `profiles` table; any column may be `null`. */
  datatype ProfileRow = ProfileRow(
    fullName: Option<string>,
    phone: Option<string>,
    avatarUrl: Option<string>,
    shippingAddress: Option<Address>,
    role: Option<string>)

  /** `fetchProfile`'s merge: each field takes the database value when it is
      truthy and otherwise keeps the previous one. The identity is never
      touched. */
  function MergeProfile(prev: User, row: ProfileRow): (u: User)
    ensures u.id == prev.id && u.email == prev.email
    ensures u.fullName == (if Truthy(row.fullName) then row.fullName.value else prev.fullName)
    ensures u.phone == (if Truthy(row.phone) then row.phone.value else prev.phone)
    ensures u.profilePic == (if Truthy(row.avatarUrl) then row.avatarUrl else prev.profilePic)
    ensures u.shippingAddress == (if row.shippingAddress.Some? then row.shippingAddress.value else prev.shippingAddress)
    ensures u.role == (if Truthy(row.role) then row.role.value else prev.role)
  {
    prev.(
      fullName := OrElse(row.fullName, prev.fullName),
      phone := OrElse(row.phone, prev.phone),
      profilePic := if Truthy(row.avatarUrl) then row.avatarUrl else prev.profilePic,
      shippingAddress := if row.shippingAddress.Some? then row.shippingAddress.value else prev.shippingAddress,
      role := OrElse(row.role, prev.role))
  }

  /** `fetchProfile`: a row is merged in; any error, including the
      row-not-found code PGRST116, leaves the user as it was. */
  function FetchProfile(prev: User, response: Response<ProfileRow>): (u: User)
    ensures response.Error? ==> u == prev
    ensures response.Data? ==> u == MergeProfile(prev, response.value)
  {
    match response
    case Error(_) => prev
    case Data(row) => MergeProfile(prev, row)
  }

  /** Merging the same row twice is the same as merging it once, and a merge
      never empties a name or phone that was set. */
  lemma MergeProfileStable(prev: User, row: ProfileRow)
    ensures MergeProfile(MergeProfile(prev, row), row) == MergeProfile(prev, row)
    ensures prev.fullName != "" ==> MergeProfile(prev, row).fullName != ""
    ensures prev.phone != "" ==> MergeProfile(prev, row).phone != ""
  {
  }

  /** After sign-in and the profile fetch, the user is an admin exactly when
      the profile row's role is "admin": the session alone never grants it,
      and a failed fetch leaves the plain role. */
  lemma AdminOnlyFromProfile(su: SessionUser, response: Response<ProfileRow>)
    ensures FetchProfile(SessionDefaults(su), response).role == "admin"
      <==> response.Data? && response.value.role == Some("admin")
  {
  }

  /** The fields `updateUser` may change; an absent key is `None`. */
  datatype ProfileUpdates = ProfileUpdates(
    fullName: Option<string>,
    phone: Option<string>,
    shippingAddress: Option<Address>)

  /** The row `updateUser` upserts into `profiles` (the timestamp is left
      out). */
  datatype ProfileUpsert = ProfileUpsert(
    id: string,
    fullName: string,
    phone: string,
    shippingAddress: Address)

  /** The upsert request (if any) and the user after the call. */
  datatype UpdateOutcome = UpdateOutcome(request: Option<ProfileUpsert>, user: Option<User>)

  /** `updateUser`: each field is the update if truthy and otherwise the
      current value. When the upsert succeeds the local user takes exactly
      the values written; when it fails the user is unchanged. With no user
      the id lookup throws inside the `try`, so nothing is written. */
  function UpdateUser(user: Option<User>, updates: ProfileUpdates, upsertSucceeds: bool): (o: UpdateOutcome)
    ensures user.None? ==> o.request == None && o.user == None
    ensures user.Some? ==> o.request.Some? && o.request.value.id == user.value.id
    ensures user.Some? ==>
      o.request.value.fullName == (if Truthy(updates.fullName) then updates.fullName.value else user.value.fullName)
      && o.request.value.phone == (if Truthy(updates.phone) then updates.phone.value else user.value.phone)
      && o.request.value.shippingAddress ==
           (if updates.shippingAddress.Some? then updates.shippingAddress.value else user.value.shippingAddress)
    ensures user.Some? && upsertSucceeds ==>
      o.user == Some(user.value.(
        fullName := o.request.value.fullName,
        phone := o.request.value.phone,
        shippingAddress := o.request.value.shippingAddress))
    ensures user.Some? && !upsertSucceeds ==> o.user == user
  {
    match user
    case None => UpdateOutcome(None, None)
    case Some(u) =>
      var m := ProfileUpsert(
        u.id,
        OrElse(updates.fullName, u.fullName),
        OrElse(updates.phone, u.phone),
        if updates.shippingAddress.Some? then updates.shippingAddress.value else u.shippingAddress);
      if upsertSucceeds then
        UpdateOutcome(Some(m), Some(u.(fullName := m.fullName, phone := m.phone, shippingAddress := m.shippingAddress)))
      else
        UpdateOutcome(Some(m), user)
  }

  /** An empty string in an update cannot clear a field: the name and phone
      written are the current ones. */
  lemma EmptyUpdateKeepsFields(u: User, address: Option<Address>, ok: bool)
    ensures UpdateUser(Some(u), ProfileUpdates(Some(""), Some(""), address), ok).request.value.fullName == u.fullName
    ensures UpdateUser(Some(u), ProfileUpdates(Some(""), Some(""), address), ok).request.value.phone == u.phone
  {
  }

  /** A new row for the `orders` table. */
  datatype NewOrder<I> = NewOrder(userId: string, items: seq<I>, totalAmount: real, status: string)

  /** The status every order starts in. */
  const OrderPlaced: string := "orderplaced"

  /** `placeOrder`'s insert: the cart items and total of the signed-in user,
      with status "orderplaced". With no user nothing is inserted. */
  function PlaceOrderRow<I>(user: Option<User>, items: seq<I>, total: real): (o: Option<NewOrder<I>>)
    ensures o.Some? <==> user.Some?
    ensures o.Some? ==>
      o.value.status == "orderplaced" && o.value.userId == user.value.id
      && o.value.items == items && o.value.totalAmount == total
  {
    match user
    case None => None
    case Some(u) => Some(NewOrder(u.id, items, total, OrderPlaced))
  }

  /** After the insert, `placeOrder` calls `updateUser` with only the address. */
  function PlaceOrderUpdates(address: Address): ProfileUpdates {
    ProfileUpdates(None, None, Some(address))
  }

  /** A successful order stores the checkout address as the user's shipping
      address and leaves the name and phone as they were. */
  lemma PlacedOrderSavesAddress(u: User, address: Address)
    ensures UpdateUser(Some(u), PlaceOrderUpdates(address), true).user
      == Some(u.(shippingAddress := address))
  {
  }

  /** An order as the admin pages read it: its id (as text), its status, and
      the customer's `profiles.full_name` when the join found one. */
  datatype OrderRow = OrderRow(id: string, status: string, customerName: Option<string>)

  /** The dashboard figures this model keeps (revenue is floating point and
      left out). */
  datatype Stats = Stats(userCount: int, newOrders: int)

  function IsNewOrder(o: OrderRow): bool {
    o.status == OrderPlaced
  }

  /** `getAllStats`: the user count (or 0 when it is null) and the number of
      orders still in "orderplaced"; either query failing gives all zeros. */
  function AllStats(orders: Response<seq<OrderRow>>, userCount: Response<Option<int>>): (st: Stats)
    ensures orders.Error? || userCount.Error? ==> st == Stats(0, 0)
    ensures orders.Data? && userCount.Data? ==>
      && st.newOrders == |Filter(orders.value, IsNewOrder)|
      && 0 <= st.newOrders <= |orders.value|
      && (st.newOrders == 0 <==> forall o :: o in orders.value ==> o.status != "orderplaced")
      && st.userCount == (if userCount.value.Some? then userCount.value.value else 0)
  {
    if orders.Error? || userCount.Error? then Stats(0, 0)
    else
      var count := if userCount.value.Some? then userCount.value.value else 0;
      var placed := Filter(orders.value, IsNewOrder);
      assert |placed| > 0 ==> placed[0] in placed;
      Stats(count, |placed|)
  }

  /** Every order counts as new exactly when all of them are in
      "orderplaced". */
  lemma AllOrdersNew(orders: seq<OrderRow>, count: Option<int>)
    ensures AllStats(Data(orders), Data(count)).newOrders == |orders|
      <==> forall o :: o in orders ==> o.status == "orderplaced"
  {
    FilterKeepsAll(orders, IsNewOrder);
  }
}
