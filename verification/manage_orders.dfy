/**
 The admin order manager (src/pages/ManageOrders.jsx): the search over the
 loaded orders, the short id and customer label of a row, the three status
 buttons, the status colour of the detail view, and when the list is
 refetched.

 The orders come from `getAllOrders` (src/context/AuthContext.jsx), whose
 rows are `AuthContext.OrderRow` values here; amounts and item lists are
 only displayed and are left out.
 */
module ManageOrders {
  import opened Js
  import opened Text
  import opened Seqs
  import opened AuthContext

  /** The search: the term occurs in the order id as typed, or the customer
      has a name and the lower-cased term occurs in the lower-cased name. An
      order without a joined name can be found only by its id. */
  predicate MatchesSearch(o: OrderRow, term: string) {
    Includes(o.id, term) || (o.customerName.Some? && Includes(Lower(o.customerName.value), Lower(term)))
  }

  /** `filteredOrders`. */
  function FilteredOrders(orders: seq<OrderRow>, term: string): (r: seq<OrderRow>)
    ensures forall o :: o in r <==> o in orders && MatchesSearch(o, term)
    ensures IsSubseq(r, orders)
  {
    FilterIsSubseq(orders, (o: OrderRow) => MatchesSearch(o, term));
    Filter(orders, (o: OrderRow) => MatchesSearch(o, term))
  }

  /** The empty term, which the page starts with, lists every order. */
  lemma EmptyTermListsAll(orders: seq<OrderRow>)
    ensures FilteredOrders(orders, "") == orders
  {
    forall o | o in orders
      ensures MatchesSearch(o, "")
    {
      assert OccursAt(o.id, "", 0);
    }
    FilterAllPass(orders, (o: OrderRow) => MatchesSearch(o, ""));
  }

  /** The name part of the search ignores the case of the term and of the
      name: an order is found by its customer's name as stored, in lower
      case, and by any term that lower-cases to the same string. */
  lemma NameSearchIgnoresCase(o: OrderRow, term: string)
    requires o.customerName.Some?
    ensures MatchesSearch(o, o.customerName.value)
    ensures MatchesSearch(o, Lower(o.customerName.value))
    ensures Lower(term) == Lower(o.customerName.value) ==> MatchesSearch(o, term)
  {
    var n := Lower(o.customerName.value);
    assert OccursAt(n, n, 0);
    LowerIdempotent(o.customerName.value);
  }

  /** The id part is case-sensitive: an order "A1" with no name is not found
      by "a1". */
  lemma IdSearchIsCaseSensitive()
    ensures !MatchesSearch(OrderRow("A1", "shipped", None), "a1")
    ensures MatchesSearch(OrderRow("A1", "shipped", None), "A1")
  {
    assert !OccursAt("A1", "a1", 0);
    assert OccursAt("A1", "A1", 0);
  }

  /** `order.id.toString().slice(0, 8)`, shown after "#". */
  function ShortId(o: OrderRow): (s: string)
    ensures s <= o.id && |s| <= 8
    ensures |s| == if |o.id| < 8 then |o.id| else 8
  {
    Prefix(o.id, 8)
  }

  /** Typing the short id shown on a row finds that order. */
  lemma ShortIdFindsOrder(o: OrderRow)
    ensures MatchesSearch(o, ShortId(o))
  {
    assert OccursAt(o.id, ShortId(o), 0);
  }

  /** The customer label: the joined name, or "Anonymous" when it is missing
      or empty. */
  function CustomerLabel(o: OrderRow): (shown: string)
    ensures shown != ""
    ensures Truthy(o.customerName) ==> shown == o.customerName.value
    ensures !Truthy(o.customerName) ==> shown == "Anonymous"
  {
    OrElse(o.customerName, "Anonymous")
  }

  /** The three statuses the buttons set, in button order. */
  const Statuses: seq<string> := ["orderplaced", "shipped", "delivered"]

  /** A status button is highlighted when the order is already in its
      status. */
  predicate Highlighted(current: string, target: string) {
    current == target
  }

  /** For an order in one of the three statuses exactly one button is
      highlighted; for any other status none is. */
  lemma OneButtonHighlighted(current: string)
    ensures current in Statuses ==>
      exists k :: 0 <= k < 3 && Highlighted(current, Statuses[k])
        && forall j :: 0 <= j < 3 && j != k ==> !Highlighted(current, Statuses[j])
    ensures current !in Statuses ==> forall j :: 0 <= j < 3 ==> !Highlighted(current, Statuses[j])
  {
    if current in Statuses {
      var k :| 0 <= k < 3 && Statuses[k] == current;
      assert Highlighted(current, Statuses[k]);
    }
  }

  /** The detail view's status colour. */
  datatype Colour = Blue | Yellow | Green

  /** "orderplaced" is blue, "shipped" yellow, and every other status,
      "delivered" or not, green. */
  function StatusColour(status: string): (c: Colour)
    ensures c == Blue <==> status == OrderPlaced
    ensures c == Yellow <==> status == "shipped"
    ensures c == Green <==> status != OrderPlaced && status != "shipped"
  {
    if status == OrderPlaced then Blue else if status == "shipped" then Yellow else Green
  }

  /** Each status a button sets gets its own colour, and the button's colour
      class agrees with the detail view's colour. */
  lemma ButtonColoursAgree()
    ensures StatusColour(Statuses[0]) == Blue
    ensures StatusColour(Statuses[1]) == Yellow
    ensures StatusColour(Statuses[2]) == Green
    ensures StatusColour("cancelled") == Green
  {
  }

  /** `fetchOrders`: the rows replace the list, and a failed or empty fetch
      (`getAllOrders` returns nothing) gives an empty list. */
  function AfterFetch(rows: Option<seq<OrderRow>>): (orders: seq<OrderRow>)
    ensures rows.Some? ==> orders == rows.value
    ensures rows.None? ==> orders == []
  {
    if rows.Some? then rows.value else []
  }

  /** A status change or a confirmed delete refetches only when the call
      succeeds: `updateOrderStatus` and `deleteOrder` rethrow, which skips
      the refetch. A cancelled delete does nothing. */
  function RefetchesAfter(confirmed: bool, succeeded: bool): (refetch: bool)
    ensures refetch <==> confirmed && succeeded
  {
    confirmed && succeeded
  }
}
