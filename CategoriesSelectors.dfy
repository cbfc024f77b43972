/** The Categories selectors; `None` stands for a missing slice, which reads
    as the reducer's initial state. The state has no `pagination` field, so
    every read of it gives `{}`. */
module CategoriesSelectors {
  import opened Js
  import opened Entities
  import opened CategoriesActions
  import opened CategoriesReducer

  function Domain(slice: Option<CategoriesState>): CategoriesState {
    if slice.Some? then slice.value else InitialState
  }

  /** `substate.get('pagination', {})`: the state never holds one. */
  function SelectPagination(slice: Option<CategoriesState>): Pagination {
    EmptyPagination
  }

  /** `pagination.total` unless it is `undefined` or `null`, otherwise the
      number of filtered categories. */
  function CategoriesCount(slice: Option<CategoriesState>): Value {
    var total := SelectPagination(slice).total;
    if !total.Undefined? && !total.Null? then total else Num(|Domain(slice).filteredCategories|)
  }

  function SelectFilteredCategories(slice: Option<CategoriesState>): seq<Category> {
    Domain(slice).filteredCategories
  }

  function SelectSearchFilter(slice: Option<CategoriesState>): string {
    Domain(slice).searchFilter
  }

  function SelectLoading(slice: Option<CategoriesState>): bool {
    Domain(slice).loading
  }

  /** The count is always the number of filtered categories, and the
      pagination always `{}`. */
  lemma CountIsFilteredSize(slice: Option<CategoriesState>)
    ensures CategoriesCount(slice) == Num(|SelectFilteredCategories(slice)|)
    ensures SelectPagination(slice) == EmptyPagination
  {
  }

  /** Before any fetch: no categories, a count of 0, empty search text, not loading. */
  lemma MissingSliceDefaults()
    ensures CategoriesCount(None) == Num(0) && SelectFilteredCategories(None) == []
    ensures SelectSearchFilter(None) == "" && !SelectLoading(None)
  {
  }
}
