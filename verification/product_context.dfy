/**
 The product catalogue store (src/context/ProductContext.jsx): a product
 record, the catalogue state and the four-action reducer that the provider's
 fetch effect drives.
 */
module ProductContext {
  import opened Js

  /** A row of the `products` table as the pages read it. */
  datatype Product = Product(
    id: int,
    title: string,
    description: Option<string>,
    price: real,
    stock: int,
    brand: string,
    category: string,
    thumbnail: string,
    images: seq<string>)

  /** The catalogue state; `error` is `null` (`None`) or a message. */
  datatype State = State(
    products: seq<Product>,
    loading: bool,
    error: Option<string>,
    searchQuery: string)

  /** The reducer's actions. `Other` stands for any action whose `type` is
      none of the four the reducer knows. */
  datatype Action =
    | FetchStart
    | FetchSuccess(products: seq<Product>)
    | FetchError(message: string)
    | SetQuery(query: string)
    | Other(kind: string)

  /** The state the provider starts from: nothing loaded, not loading, no
      error, no search. */
  function InitialState(): (s: State)
    ensures s.products == [] && !s.loading && s.error == None && s.searchQuery == ""
  {
    State([], false, None, "")
  }

  /** `productReducer`: each action changes only the fields it names. */
  function Reduce(s: State, a: Action): (r: State)
    ensures a.FetchStart? ==>
      r.loading && r.error == None && r.products == s.products && r.searchQuery == s.searchQuery
    ensures a.FetchSuccess? ==>
      !r.loading && r.products == a.products && r.error == s.error && r.searchQuery == s.searchQuery
    ensures a.FetchError? ==>
      !r.loading && r.error == Some(a.message) && r.products == s.products && r.searchQuery == s.searchQuery
    ensures a.SetQuery? ==>
      r.searchQuery == a.query && r.products == s.products && r.loading == s.loading && r.error == s.error
    ensures a.Other? ==> r == s
  {
    match a
    case FetchStart => s.(loading := true, error := None)
    case FetchSuccess(ps) => s.(loading := false, products := ps)
    case FetchError(m) => s.(loading := false, error := Some(m))
    case SetQuery(q) => s.(searchQuery := q)
    case Other(_) => s
  }

  /** A run of the reducer over a sequence of actions, as `useReducer` applies
      them in dispatch order. */
  function ReduceAll(s: State, actions: seq<Action>): State
    decreases |actions|
  {
    if |actions| == 0 then s else ReduceAll(Reduce(s, actions[0]), actions[1..])
  }

  /** The outcome of the provider's catalogue query: the rows, or the error
      message it threw. */
  datatype FetchResult = Rows(rows: seq<Product>) | Failed(message: string)

  /** The actions one run of the fetch effect dispatches: FETCH_START, then
      FETCH_SUCCESS with the rows or FETCH_ERROR with the message. */
  function FetchActions(result: FetchResult): seq<Action>
  {
    match result
    case Rows(rows) => [FetchStart, FetchSuccess(rows)]
    case Failed(m) => [FetchStart, FetchError(m)]
  }

  /** A completed fetch always ends not loading and keeps the query. A
      successful one clears any earlier error and installs the rows; a failed
      one records the message and keeps the products already shown. */
  lemma FetchCycle(s: State, result: FetchResult)
    ensures !ReduceAll(s, FetchActions(result)).loading
    ensures ReduceAll(s, FetchActions(result)).searchQuery == s.searchQuery
    ensures result.Rows? ==>
      ReduceAll(s, FetchActions(result)).error == None
      && ReduceAll(s, FetchActions(result)).products == result.rows
    ensures result.Failed? ==>
      ReduceAll(s, FetchActions(result)).error == Some(result.message)
      && ReduceAll(s, FetchActions(result)).products == s.products
  {
    var acts := FetchActions(result);
    var s1 := Reduce(s, acts[0]);
    var s2 := Reduce(s1, acts[1]);
    assert ReduceAll(s2, acts[1..][1..]) == s2;
    assert ReduceAll(s1, acts[1..]) == s2;
  }
}
