/** The logic of the Brands page: how the search box's dispatches become
    Brands actions and what the resulting requests ask the API for. */
module BrandsPage {
  import opened Js
  import opened Entities
  import opened SearchBox
  import opened BrandsActions
  import opened BrandsSaga

  /** `actions.fetchBrands(params)` and `actions.setSearchFilter(text)`. */
  function ToAction(d: Dispatch): BrandsAction {
    match d
    case SetSearch(text) => SetSearchFilter(Str(text))
    case Fetch(params) => FetchBrandsRequest(params)
  }

  /** The mount fetch asks the API for the first 10 brands with no search text. */
  lemma MountFetchesFirstPage()
    ensures var a := FetchBrandsParams(ToAction(Fetch(MountParams)).params);
      a.limit == Num(10) && a.offset == Num(0) && a.q == Undefined &&
      a.sortBy == Str("id") && a.sortOrder == Str("ASC")
  {
  }

  /** A fired search timer asks for the first 10 brands with the trimmed
      text, and still fetches when the text is blank. */
  lemma SearchFetchesFirstPage(text: string)
    ensures var a := FetchBrandsParams(ToAction(Fetch(SearchParams(text))).params);
      a.limit == Num(10) && a.offset == Num(0) &&
      a.q == (if Trim(text) != "" then Str(Trim(text)) else Undefined)
  {
  }

  /** Mounting the page dispatches exactly one fetch, for the first page;
      the first run of the search effect sends nothing. */
  method MountPage(searchFilter: Option<string>) returns (box: SearchBox, actions: seq<BrandsAction>)
    ensures fresh(box) && box.Valid() && !box.isInitialMount && box.pending == None
    ensures actions == [FetchBrandsRequest(MountParams)]
  {
    box := new SearchBox(searchFilter);
    box.Mount();
    actions := [ToAction(box.dispatched[0])];
  }
}
