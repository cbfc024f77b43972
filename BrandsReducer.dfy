/** `brandsReducer`: the Brands state and its transition on each action. The
    search text is only stored; the list is filtered by the server. */
module BrandsReducer {
  import opened Js
  import opened Entities
  import opened Sequences
  import opened BrandsActions

  datatype BrandsState = BrandsState(
    brands: seq<Brand>,
    filteredBrands: seq<Brand>,
    searchFilter: Value,
    pagination: Pagination,
    loading: bool,
    error: Value)

  const InitialState := BrandsState([], [], Str(""), Pagination(Num(10), Num(0), Num(0)), false, Null)

  /** `brand.id !== brandId`. */
  predicate Keeps(brandId: Value, b: Brand) {
    Str(b.id) != brandId
  }

  /** The rows a delete success keeps. */
  function Remaining(brands: seq<Brand>, brandId: Value): seq<Brand> {
    Filter(brands, b => Keeps(brandId, b))
  }

  function Reduce(s: BrandsState, a: BrandsAction): BrandsState {
    match a
    case FetchBrandsRequest(_) => s.(loading := true, error := Null)
    case FetchBrandsSuccess(data, pagination) =>
      var brands := if data.Some? then data.value else [];
      s.(brands := brands,
         filteredBrands := brands,
         pagination := if pagination.Some? then pagination.value else EmptyPagination,
         loading := false,
         error := Null)
    case FetchBrandsFailure(error) => s.(loading := false, error := error)
    case CreateBrandRequest => s.(loading := true, error := Null)
    case UpdateBrandRequest(_) => s.(loading := true, error := Null)
    case DeleteBrandRequest(_) => s.(loading := true, error := Null)
    case CreateBrandSuccess => s.(loading := false, error := Null)
    case UpdateBrandSuccess => s.(loading := false, error := Null)
    case DeleteBrandSuccess(brandId) =>
      var kept := Remaining(s.brands, brandId);
      s.(brands := kept, filteredBrands := kept, loading := false, error := Null)
    case CreateBrandFailure(error) => s.(loading := false, error := error)
    case UpdateBrandFailure(error) => s.(loading := false, error := error)
    case DeleteBrandFailure(error) => s.(loading := false, error := error)
    case SetSearchFilter(text) => s.(searchFilter := text)
    case ClearData => InitialState
    case Unknown => s
  }

  function Run(s: BrandsState, actions: seq<BrandsAction>): BrandsState
    decreases |actions|
  {
    if |actions| == 0 then s else Run(Reduce(s, actions[0]), actions[1..])
  }

  predicate IsRequest(a: BrandsAction) {
    a.FetchBrandsRequest? || a.CreateBrandRequest? || a.UpdateBrandRequest? || a.DeleteBrandRequest?
  }

  predicate IsFailure(a: BrandsAction) {
    a.FetchBrandsFailure? || a.CreateBrandFailure? || a.UpdateBrandFailure? || a.DeleteBrandFailure?
  }

  // Properties

  /** Every request sets `loading`, clears `error`, and changes nothing else. */
  lemma RequestOnlyStartsLoading(s: BrandsState, a: BrandsAction)
    requires IsRequest(a)
    ensures Reduce(s, a) == s.(loading := true, error := Null)
  {
  }

  /** A fetch success replaces both lists and the pagination wholesale. */
  lemma SuccessReplaces(s: BrandsState, data: Option<seq<Brand>>, pagination: Option<Pagination>)
    ensures var r := Reduce(s, FetchBrandsSuccess(data, pagination));
      r.brands == (if data.Some? then data.value else []) && r.filteredBrands == r.brands &&
      r.pagination == (if pagination.Some? then pagination.value else EmptyPagination) &&
      !r.loading && r.error == Null && r.searchFilter == s.searchFilter
  {
  }

  /** Every failure sets `error`, stops loading and keeps the lists. */
  lemma FailureKeepsLists(s: BrandsState, a: BrandsAction)
    requires IsFailure(a)
    ensures Reduce(s, a) == s.(loading := false, error := a.error)
  {
  }

  /** The kept rows are exactly the rows with another id, in their order. */
  lemma RemainingExact(brands: seq<Brand>, brandId: Value)
    ensures forall b :: b in Remaining(brands, brandId) <==> b in brands && Str(b.id) != brandId
    ensures IsSubsequence(Remaining(brands, brandId), brands)
  {
    FilterMembers(brands, b => Keeps(brandId, b));
    FilterIsSubsequence(brands, b => Keeps(brandId, b));
  }

  /** A delete success keeps exactly the brands with another id, in order. */
  lemma DeleteRemovesExactly(s: BrandsState, brandId: Value)
    ensures var r := Reduce(s, DeleteBrandSuccess(brandId));
      (forall b :: b in r.brands <==> b in s.brands && Str(b.id) != brandId) &&
      IsSubsequence(r.brands, s.brands) && r.filteredBrands == r.brands && r.pagination == s.pagination
  {
    RemainingExact(s.brands, brandId);
    assert Reduce(s, DeleteBrandSuccess(brandId)).brands == Remaining(s.brands, brandId);
  }

  /** The search text is stored and the lists are not filtered locally. */
  lemma SearchOnlyStored(s: BrandsState, text: Value)
    ensures Reduce(s, SetSearchFilter(text)) == s.(searchFilter := text)
  {
  }

  lemma ClearAndUnknown(s: BrandsState)
    ensures Reduce(s, ClearData) == InitialState
    ensures Reduce(s, Unknown) == s
  {
  }

  /** In every reachable state the filtered list is the list. */
  lemma {:induction false} RunKeepsListsEqual(s: BrandsState, actions: seq<BrandsAction>)
    requires s.filteredBrands == s.brands
    ensures Run(s, actions).filteredBrands == Run(s, actions).brands
    decreases |actions|
  {
    if |actions| > 0 {
      RunKeepsListsEqual(Reduce(s, actions[0]), actions[1..]);
    }
  }
}
