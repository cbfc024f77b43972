/** The Products selectors. A missing slice reads as the reducer's initial
    state; `None` stands for that missing slice. */
module ProductsSelectors {
  import opened Js
  import opened Entities
  import opened Sequences
  import opened ProductsActions
  import opened ProductsReducer

  function Domain(slice: Option<ProductsState>): ProductsState {
    if slice.Some? then slice.value else InitialState
  }

  /** `pagination.total` unless it is `undefined` or `null`, otherwise the
      number of filtered rows. */
  function ProductsCount(slice: Option<ProductsState>): (v: Value)
    ensures !v.Undefined? && !v.Null?
  {
    var s := Domain(slice);
    var total := s.pagination.total;
    if !total.Undefined? && !total.Null? then total else Num(|s.filteredProducts|)
  }

  /** The stored `returnableCount` unless it is `undefined` or `null`,
      otherwise the returnable rows of the filtered list counted afresh. */
  function SelectReturnableCount(slice: Option<ProductsState>): (v: Value)
    ensures !v.Undefined? && !v.Null?
  {
    var s := Domain(slice);
    if !s.returnableCount.Undefined? && !s.returnableCount.Null? then s.returnableCount
    else Num(ReturnableCount(s.filteredProducts))
  }

  function SelectFilteredProducts(slice: Option<ProductsState>): seq<Product> {
    Domain(slice).filteredProducts
  }

  function SelectSearchFilter(slice: Option<ProductsState>): Value {
    Domain(slice).searchFilter
  }

  function SelectLoading(slice: Option<ProductsState>): bool {
    Domain(slice).loading
  }

  // Properties

  /** Before any fetch the count is 0, the search text is empty and nothing
      is loading. */
  lemma MissingSliceDefaults()
    ensures ProductsCount(None) == Num(0)
    ensures SelectReturnableCount(None) == Num(0)
    ensures SelectSearchFilter(None) == Str("") && !SelectLoading(None)
    ensures SelectFilteredProducts(None) == []
  {
  }

  /** After a fetch whose pagination has no `total`, the count is the number
      of rows fetched; with a `total` it is that total. */
  lemma CountAfterSuccess(s: ProductsState, data: seq<Product>, pagination: Pagination)
    ensures var r := Reduce(s, FetchProductsSuccess(Some(data), Some(pagination)));
      ProductsCount(Some(r)) ==
        (if pagination.total.Undefined? || pagination.total.Null? then Num(|data|) else pagination.total)
  {
  }

  /** In every reachable state the returnable count the page shows is the
      number of returnable rows in the filtered list, so the selector's own
      fallback would give the same number. */
  lemma {:induction false} ReturnableCountExact(actions: seq<ProductsAction>)
    ensures var s := Run(InitialState, actions);
      SelectReturnableCount(Some(s)) == Num(ReturnableCount(SelectFilteredProducts(Some(s)))) &&
      ReturnableCount(SelectFilteredProducts(Some(s))) <= |SelectFilteredProducts(Some(s))|
  {
    ReachableConsistent(actions);
  }
}
