/** `productsReducer`: the Products state and its transition on each action.
    Every writer of the product list writes `products` and `filteredProducts`
    together and recomputes `returnableCount` from them. */
module ProductsReducer {
  import opened Js
  import opened Entities
  import opened Sequences
  import opened ProductsActions

  datatype ProductsState = ProductsState(
    products: seq<Product>,
    filteredProducts: seq<Product>,
    searchFilter: Value,
    brandFilter: Value,
    categoryFilter: Value,
    statusFilter: Value,
    brandsForFilter: seq<FilterOption>,
    categoriesForFilter: seq<FilterOption>,
    returnableCount: Value,
    pagination: Pagination,
    loading: bool,
    error: Value)

  const InitialState := ProductsState(
    [], [], Str(""), Null, Null, Null, [], [], Num(0),
    Pagination(Num(10), Num(0), Num(0)), false, Null)

  predicate IsReturnable(p: Product) {
    p.status == "Returnable"
  }

  /** `products.filter(p => p.status === 'Returnable').length`. */
  function ReturnableCount(products: seq<Product>): nat {
    Count(products, IsReturnable)
  }

  /** `product.id !== productId`: a row id is a string, so an id of another
      type never matches. */
  predicate Keeps(productId: Value, p: Product) {
    Str(p.id) != productId
  }

  /** The rows a delete success keeps. */
  function Remaining(products: seq<Product>, productId: Value): seq<Product> {
    Filter(products, p => Keeps(productId, p))
  }

  function Reduce(s: ProductsState, a: ProductsAction): ProductsState {
    match a
    case FetchProductsRequest(_) => s.(loading := true, error := Null)
    case FetchProductsSuccess(data, pagination) =>
      var products := if data.Some? then data.value else [];
      s.(products := products,
         filteredProducts := products,
         pagination := if pagination.Some? then pagination.value else EmptyPagination,
         returnableCount := Num(ReturnableCount(products)),
         loading := false,
         error := Null)
    case FetchProductsFailure(error) => s.(loading := false, error := error)
    case FetchBrandsForFilterSuccess(options) => s.(brandsForFilter := if options.Some? then options.value else [])
    case FetchCategoriesForFilterSuccess(options) => s.(categoriesForFilter := if options.Some? then options.value else [])
    case CreateProductRequest => s.(loading := true, error := Null)
    case UpdateProductRequest(_) => s.(loading := true, error := Null)
    case DeleteProductRequest(_) => s.(loading := true, error := Null)
    case CreateProductSuccess => s.(loading := false, error := Null)
    case UpdateProductSuccess => s.(loading := false, error := Null)
    case DeleteProductSuccess(productId) =>
      var kept := Remaining(s.products, productId);
      s.(products := kept,
         filteredProducts := kept,
         returnableCount := Num(ReturnableCount(kept)),
         loading := false,
         error := Null)
    case CreateProductFailure(error) => s.(loading := false, error := error)
    case UpdateProductFailure(error) => s.(loading := false, error := error)
    case DeleteProductFailure(error) => s.(loading := false, error := error)
    case SetSearchFilter(text) => s.(searchFilter := text)
    case SetBrandFilter(id) => s.(brandFilter := id)
    case SetCategoryFilter(id) => s.(categoryFilter := id)
    case SetStatusFilter(status) => s.(statusFilter := status)
    case ClearData => InitialState
    case FetchBrandsForFilterRequest => s
    case FetchCategoriesForFilterRequest => s
    case Unknown => s
  }

  /** The state after a sequence of actions, the first one first. */
  function Run(s: ProductsState, actions: seq<ProductsAction>): ProductsState
    decreases |actions|
  {
    if |actions| == 0 then s else Run(Reduce(s, actions[0]), actions[1..])
  }

  /** What every reachable state satisfies: the filtered list is the list, and
      the stored returnable count is the number of returnable rows. */
  predicate Consistent(s: ProductsState) {
    s.filteredProducts == s.products && s.returnableCount == Num(ReturnableCount(s.products))
  }

  predicate IsFailure(a: ProductsAction) {
    a.FetchProductsFailure? || a.CreateProductFailure? || a.UpdateProductFailure? || a.DeleteProductFailure?
  }

  predicate IsRequest(a: ProductsAction) {
    a.FetchProductsRequest? || a.CreateProductRequest? || a.UpdateProductRequest? || a.DeleteProductRequest?
  }

  // Properties

  /** Every request sets `loading` and clears `error`, and changes nothing else. */
  lemma RequestOnlyStartsLoading(s: ProductsState, a: ProductsAction)
    requires IsRequest(a)
    ensures Reduce(s, a) == s.(loading := true, error := Null)
  {
  }

  /** A fetch success replaces the lists and the pagination with what it
      carries (an empty list and `{}` when absent), whatever was stored. */
  lemma SuccessReplaces(s: ProductsState, t: ProductsState, data: Option<seq<Product>>, pagination: Option<Pagination>)
    ensures var r := Reduce(s, FetchProductsSuccess(data, pagination));
      r.products == (if data.Some? then data.value else []) &&
      r.filteredProducts == r.products &&
      r.pagination == (if pagination.Some? then pagination.value else EmptyPagination) &&
      !r.loading && r.error == Null
    ensures Reduce(s, FetchProductsSuccess(data, pagination)).products ==
      Reduce(t, FetchProductsSuccess(data, pagination)).products
  {
  }

  /** The number of returnable rows never exceeds the number of rows. */
  lemma ReturnableCountBounded(products: seq<Product>)
    ensures ReturnableCount(products) <= |products|
  {
  }

  /** Every failure sets `error` and stops loading, and keeps the lists and
      the pagination. */
  lemma FailureKeepsLists(s: ProductsState, a: ProductsAction)
    requires IsFailure(a)
    ensures Reduce(s, a) == s.(loading := false, error := a.error)
  {
  }

  /** The kept rows are exactly the rows with another id, in their order. */
  lemma RemainingExact(products: seq<Product>, productId: Value)
    ensures forall p :: p in Remaining(products, productId) <==> p in products && Str(p.id) != productId
    ensures IsSubsequence(Remaining(products, productId), products)
  {
    FilterMembers(products, p => Keeps(productId, p));
    FilterIsSubsequence(products, p => Keeps(productId, p));
  }

  /** A delete success keeps exactly the rows whose id differs from the
      deleted one, in their order, and leaves the pagination alone. */
  lemma DeleteRemovesExactly(s: ProductsState, productId: Value)
    ensures var r := Reduce(s, DeleteProductSuccess(productId));
      (forall p :: p in r.products <==> p in s.products && Str(p.id) != productId) &&
      IsSubsequence(r.products, s.products) &&
      r.pagination == s.pagination && r.filteredProducts == r.products
  {
    RemainingExact(s.products, productId);
    assert Reduce(s, DeleteProductSuccess(productId)).products == Remaining(s.products, productId);
  }

  /** A delete success whose id is not a string (a number, say) removes nothing. */
  lemma DeleteByNonStringIdKeepsAll(s: ProductsState, productId: Value)
    requires !productId.Str?
    ensures Reduce(s, DeleteProductSuccess(productId)).products == s.products
  {
    RemainingNonString(s.products, productId);
  }

  lemma RemainingNonString(products: seq<Product>, productId: Value)
    requires !productId.Str?
    ensures Remaining(products, productId) == products
  {
    assert forall i :: 0 <= i < |products| ==> Keeps(productId, products[i]);
    FilterAllPass(products, p => Keeps(productId, p));
  }

  /** Each filter setter changes its own field and nothing else. */
  lemma SettersTouchOneField(s: ProductsState, v: Value)
    ensures Reduce(s, SetSearchFilter(v)) == s.(searchFilter := v)
    ensures Reduce(s, SetBrandFilter(v)) == s.(brandFilter := v)
    ensures Reduce(s, SetCategoryFilter(v)) == s.(categoryFilter := v)
    ensures Reduce(s, SetStatusFilter(v)) == s.(statusFilter := v)
  {
  }

  /** Clearing gives the initial state; the dropdown requests and an action of
      another page reach the default branch and change nothing. */
  lemma ClearAndUnknown(s: ProductsState)
    ensures Reduce(s, ClearData) == InitialState
    ensures Reduce(s, Unknown) == s
    ensures Reduce(s, FetchBrandsForFilterRequest) == s && Reduce(s, FetchCategoriesForFilterRequest) == s
  {
  }

  /** Every action keeps the state consistent. */
  lemma ReducePreservesConsistent(s: ProductsState, a: ProductsAction)
    requires Consistent(s)
    ensures Consistent(Reduce(s, a))
  {
  }

  /** Every state reachable from the initial state is consistent: its
      filtered list is its list and its returnable count is exact. */
  lemma {:induction false} RunPreservesConsistent(s: ProductsState, actions: seq<ProductsAction>)
    requires Consistent(s)
    ensures Consistent(Run(s, actions))
    decreases |actions|
  {
    if |actions| > 0 {
      ReducePreservesConsistent(s, actions[0]);
      RunPreservesConsistent(Reduce(s, actions[0]), actions[1..]);
    }
  }

  lemma ReachableConsistent(actions: seq<ProductsAction>)
    ensures Consistent(Run(InitialState, actions))
    ensures Run(InitialState, actions).filteredProducts == Run(InitialState, actions).products
  {
    assert Consistent(InitialState);
    RunPreservesConsistent(InitialState, actions);
  }
}
