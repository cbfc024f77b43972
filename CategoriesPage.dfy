/** The logic of the Categories page: the pagination handlers and display
    values, and how the page's dispatches become Categories actions. */
module CategoriesPage {
  import opened Js
  import opened Entities
  import opened SearchBox
  import opened CategoriesActions
  import opened CategoriesReducer
  import opened CategoriesSelectors
  import opened CategoriesSaga

  /** `actions.fetchCategories(params)` and `actions.setSearchFilter(text)`.
      `fetchCategories` ignores its argument. */
  function ToAction(d: Dispatch): CategoriesAction {
    match d
    case SetSearch(text) => SetSearchFilter(text)
    case Fetch(_) => FetchCategoriesRequest
  }

  /** `field || fallback` for a numeric pagination field. */
  function NumOr(v: Value, fallback: int): int {
    if v.Num? && v.n != 0 then v.n else fallback
  }

  function LimitOf(p: Pagination): int { NumOr(p.limit, 10) }
  function OffsetOf(p: Pagination): int { NumOr(p.offset, 0) }
  function TotalOf(p: Pagination): int { NumOr(p.total, 0) }

  /** The search text a page handler adds as `q`: the trimmed text when that
      is not empty. */
  function QueryOf(localSearch: string): Option<string> {
    if Trim(localSearch) != "" then Some(Trim(localSearch)) else None
  }

  /** `handlePreviousPage`: always fetches, one page back and never before 0. */
  function PreviousPage(p: Pagination, localSearch: string): QueryParams {
    var offset := OffsetOf(p) - LimitOf(p);
    PageParams(LimitOf(p), if offset < 0 then 0 else offset, QueryOf(localSearch))
  }

  /** `handleNextPage`: fetches one page on only while that page starts
      before the total; `None` is "does nothing". */
  function NextPage(p: Pagination, localSearch: string): Option<QueryParams> {
    var offset := OffsetOf(p) + LimitOf(p);
    if offset < TotalOf(p) then Some(PageParams(LimitOf(p), offset, QueryOf(localSearch))) else None
  }

  datatype PageDisplay = PageDisplay(
    start: int, end: int, previousDisabled: bool, nextDisabled: bool, showPagination: bool)

  /** The pagination display values. */
  function Display(p: Pagination): PageDisplay {
    var limit := LimitOf(p);
    var offset := OffsetOf(p);
    var total := TotalOf(p);
    PageDisplay(
      if total > 0 then offset + 1 else 0,
      if offset + limit < total then offset + limit else total,
      offset == 0,
      offset + limit >= total,
      total > limit)
  }

  // Properties

  /** The next button is disabled exactly when next-page does nothing. */
  lemma NextDisabledIffNoop(p: Pagination, localSearch: string)
    ensures Display(p).nextDisabled <==> NextPage(p, localSearch).None?
  {
  }

  /** Previous-page never goes below offset 0 and, for a positive limit,
      never moves forward; from offset 0 it refetches offset 0. */
  lemma PreviousPageBounds(p: Pagination, localSearch: string)
    requires LimitOf(p) > 0 && OffsetOf(p) >= 0
    ensures var q := PreviousPage(p, localSearch);
      q.offset.Num? && 0 <= q.offset.n <= OffsetOf(p) && q.limit == Num(LimitOf(p)) &&
      (OffsetOf(p) >= LimitOf(p) ==> q.offset.n == OffsetOf(p) - LimitOf(p)) &&
      (Display(p).previousDisabled ==> q.offset.n == 0)
  {
  }

  /** Going back one page and then forward again returns to the same offset. */
  lemma NextUndoesPrevious(p: Pagination, localSearch: string)
    requires 0 < LimitOf(p) <= OffsetOf(p) < TotalOf(p)
    ensures var back := p.(offset := PreviousPage(p, localSearch).offset);
      NextPage(back, localSearch).Some? && NextPage(back, localSearch).value == PageParams(LimitOf(p), OffsetOf(p), QueryOf(localSearch))
  {
  }

  /** On a page inside the total, the shown range is non-empty and inside it. */
  lemma DisplayBounds(p: Pagination)
    requires 0 <= OffsetOf(p) < TotalOf(p) && LimitOf(p) >= 1
    ensures 1 <= Display(p).start <= Display(p).end <= TotalOf(p)
    ensures Display(p).end - Display(p).start < LimitOf(p)
  {
  }

  /** The page-handler `q` is the trimmed text, present only when non-empty. */
  lemma QueryTrimmed(localSearch: string)
    ensures QueryOf(localSearch).None? <==> forall i :: 0 <= i < |localSearch| ==> IsSpace(localSearch[i])
    ensures QueryOf(localSearch).Some? ==> Trim(QueryOf(localSearch).value) == QueryOf(localSearch).value
  {
    TrimEmptyIffBlank(localSearch);
    TrimIdempotent(localSearch);
  }

  /** The page reads its pagination from the store, which never holds one:
      the total is 0, so next-page never fetches, the pagination is hidden and
      the shown range is 0 to 0. */
  lemma PagingNeverAdvances(slice: Option<CategoriesState>, localSearch: string)
    ensures NextPage(SelectPagination(slice), localSearch).None?
    ensures var d := Display(SelectPagination(slice));
      !d.showPagination && d.start == 0 && d.end == 0 && d.previousDisabled && d.nextDisabled
  {
  }

  /** Whatever the page asks for (a previous page, a search), the request
      reaches the API with the defaults: the first 10 rows and no search text. */
  lemma FetchesReachApiWithDefaults(d: Dispatch)
    requires d.Fetch?
    ensures ToAction(d) == FetchCategoriesRequest
    ensures var a := RequestParams(ToAction(d));
      a.limit == Num(10) && a.offset == Num(0) && a.q == Undefined
  {
    RequestAlwaysDefaults();
  }
}
