/** The Brands selectors; `None` stands for a missing slice, which reads as
    the reducer's initial state. */
module BrandsSelectors {
  import opened Js
  import opened Entities
  import opened BrandsActions
  import opened BrandsReducer

  function Domain(slice: Option<BrandsState>): BrandsState {
    if slice.Some? then slice.value else InitialState
  }

  /** `pagination.total` unless it is `undefined` or `null`, otherwise the
      number of filtered brands. */
  function BrandsCount(slice: Option<BrandsState>): (v: Value)
    ensures !v.Undefined? && !v.Null?
  {
    var s := Domain(slice);
    if !s.pagination.total.Undefined? && !s.pagination.total.Null? then s.pagination.total
    else Num(|s.filteredBrands|)
  }

  function SelectFilteredBrands(slice: Option<BrandsState>): seq<Brand> {
    Domain(slice).filteredBrands
  }

  function SelectSearchFilter(slice: Option<BrandsState>): Value {
    Domain(slice).searchFilter
  }

  function SelectLoading(slice: Option<BrandsState>): bool {
    Domain(slice).loading
  }

  /** Before any fetch: no brands, a count of 0, empty search text, not loading. */
  lemma MissingSliceDefaults()
    ensures BrandsCount(None) == Num(0) && SelectFilteredBrands(None) == []
    ensures SelectSearchFilter(None) == Str("") && !SelectLoading(None)
  {
  }

  /** A fetch whose pagination has no `total` makes the count the number of
      brands fetched. */
  lemma CountAfterSuccess(s: BrandsState, data: seq<Brand>, pagination: Pagination)
    ensures var r := Reduce(s, FetchBrandsSuccess(Some(data), Some(pagination)));
      BrandsCount(Some(r)) ==
        (if pagination.total.Undefined? || pagination.total.Null? then Num(|data|) else pagination.total)
  {
  }
}
