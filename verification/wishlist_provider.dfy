/**
 The wishlist provider (src/context/WishlistProvider.jsx): a list of
 product ids per signed-in user, toggled locally and mirrored to the
 `wishlists` row.

 The upsert, the fetch and the realtime channel are not modelled; a write
 the provider asks for is the `upsert` field of an `Outcome`, and what the
 backend returns is a parameter.
 */
module WishlistProvider {
  import opened Js
  import opened Seqs
  import opened AuthContext

  /** The list after an operation, and the list sent to `syncToSupabase`
      when the provider writes one (`None` when it writes nothing). */
  datatype Outcome = Outcome(ids: seq<int>, upsert: Option<seq<int>>)

  /** `isInWishlist`: JavaScript's `includes` on the id list. */
  function IsInWishlist(ids: seq<int>, productId: int): (b: bool)
    ensures b <==> exists i :: 0 <= i < |ids| && ids[i] == productId
  {
    productId in ids
  }

  function Without(ids: seq<int>, productId: int): seq<int> {
    Filter(ids, (x: int) => x != productId)
  }

  /** `toggleWishlist`. Without a user nothing changes and nothing is
      written. With one, an absent id is appended at the end and a present
      id disappears; every other id keeps its membership. The new list is
      written exactly when the user has an id. */
  function Toggle(user: Option<User>, ids: seq<int>, productId: int): (o: Outcome)
    ensures user.None? ==> o == Outcome(ids, None)
    ensures user.Some? && productId !in ids ==> o.ids == ids + [productId]
    ensures user.Some? ==> (IsInWishlist(o.ids, productId) <==> !IsInWishlist(ids, productId))
    ensures forall x :: x != productId ==> (IsInWishlist(o.ids, x) <==> IsInWishlist(ids, x))
    ensures o.upsert == (if HasUserId(user) then Some(o.ids) else None)
  {
    if user.None? then Outcome(ids, None)
    else
      var updated := if productId in ids then Without(ids, productId) else ids + [productId];
      Outcome(updated, if HasUserId(user) then Some(updated) else None)
  }

  /** Toggling a present id removes every occurrence of it and keeps every
      other entry, with its multiplicity, in the same relative order. */
  lemma ToggleRemovesAll(user: User, ids: seq<int>, productId: int)
    requires productId in ids
    ensures productId !in Toggle(Some(user), ids, productId).ids
    ensures IsSubseq(Toggle(Some(user), ids, productId).ids, ids)
    ensures forall x :: x != productId ==>
      multiset(Toggle(Some(user), ids, productId).ids)[x] == multiset(ids)[x]
  {
    var keep := (x: int) => x != productId;
    FilterIsSubseq(ids, keep);
    forall x | x != productId
      ensures multiset(Filter(ids, keep))[x] == multiset(ids)[x]
    {
      FilterCounts(ids, keep, x);
    }
  }

  /** Starting from a list without the id, two toggles give back exactly the
      original list. */
  lemma ToggleTwiceRestores(user: User, ids: seq<int>, productId: int)
    requires productId !in ids
    ensures Toggle(Some(user), Toggle(Some(user), ids, productId).ids, productId).ids == ids
  {
    var keep := (x: int) => x != productId;
    FilterAppend(ids, [productId], keep);
    FilterAllPass(ids, keep);
    assert Filter([productId], keep) == [];
  }

  /** In general two toggles restore membership of every id. */
  lemma ToggleTwiceMembership(user: User, ids: seq<int>, productId: int, x: int)
    ensures IsInWishlist(Toggle(Some(user), Toggle(Some(user), ids, productId).ids, productId).ids, x)
      <==> IsInWishlist(ids, x)
  {
  }

  /** `clearWishlist`: with a user id the list empties and the empty list is
      written; otherwise nothing happens. */
  function Clear(user: Option<User>, ids: seq<int>): (o: Outcome)
    ensures HasUserId(user) ==> o == Outcome([], Some([]))
    ensures !HasUserId(user) ==> o == Outcome(ids, None)
  {
    if HasUserId(user) then Outcome([], Some([])) else Outcome(ids, None)
  }

  /** A fetched row or a realtime payload replaces the list only when it
      carries `product_ids` (an empty array counts as present); otherwise the
      list is kept. */
  function ApplyRemote(ids: seq<int>, productIds: Option<seq<int>>): (r: seq<int>)
    ensures productIds.Some? ==> r == productIds.value
    ensures productIds.None? ==> r == ids
  {
    match productIds
    case Some(remote) => remote
    case None => ids
  }

  /** The fetch effect run on every change of `user?.id`: with no id the list
      is reset to empty and nothing is fetched; with one, the fetched
      `product_ids` (if any) replace the list. A failed fetch has no data, so
      it is `None` here. */
  function OnUserChange(user: Option<User>, ids: seq<int>, fetched: Option<seq<int>>): (r: seq<int>)
    ensures !HasUserId(user) ==> r == []
    ensures HasUserId(user) ==> r == ApplyRemote(ids, fetched)
  {
    if !HasUserId(user) then [] else ApplyRemote(ids, fetched)
  }

  /** After a logout nothing survives: the list is empty, a toggle without a
      user keeps it empty and writes nothing. */
  lemma LogoutEmptiesWishlist(ids: seq<int>, fetched: Option<seq<int>>, productId: int)
    ensures OnUserChange(None, ids, fetched) == []
    ensures Toggle(None, OnUserChange(None, ids, fetched), productId) == Outcome([], None)
  {
  }
}
