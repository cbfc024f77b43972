# Inventory admin core, modelled in Dafny

This project models the logic of an inventory administration front end and of
the mock REST server it develops against:

- **The mock category server** (`mock-api/server.js`). One in-memory list of
  category records sits behind five routes:
  - `GET /api/v1/categories` runs a fixed pipeline: search on code or name,
    the `root` filter, the `entityCodes` and `entityIds` filters, a stable sort
    by id or code, then an offset/limit slice with `total` taken before it;
  - `GET /api/v1/categories/:id` returns one record, optionally with a page of
    its children;
  - `POST`, `PUT` and `DELETE` change the shared list.

  The store is the class `MockServer.CategoryStore`. Its `List` method filters,
  then sorts a copy of the list in place in an array. Each method is specified
  by a pure function of the old list.
- **The Redux state of the Products, Brands and Categories pages.** Each
  reducer is a pure transition function `Reduce` over an action datatype, with
  `Run` for a sequence of actions. The selectors read a slice that may be
  missing (`None`), which reads as the reducer's initial state.
- **The sagas of the three pages.**
  - A saga is a pure function from the outcome of its one API call to the
    actions it emits. That outcome is either a response (possibly `null`) or a
    thrown error.
  - The record transforms (`transformProductData`, `transformBrandData`,
    `transformCategoryData`, `determineStatus`, `transformStatus`, `getInitials`)
    are functions.
  - A transform that can throw (through `getInitials`) returns `None`, and the
    saga then emits its failure action.
- **The logic inside the page components.**
  - The debounced search box shared by the Categories and Brands pages is the
    class `SearchBox.SearchBox`. The debounce timer is one pending slot that is
    armed, cleared or fired.
  - The Categories page's paging handlers and display values are in
    `CategoriesPage`.
  - The Add Brand dialog is the class `AddBrandModal.Form`. It holds the form
    fields, the error set, and the submitted payloads.

Support modules give JavaScript's own operations a precise meaning:
- `Js`: truthiness, `String(n)`, `parseInt`, `trim`, `split`, `padStart`,
  `toLowerCase`, `includes`, and a string comparison in character (Unicode scalar value) order.
- `Sequences`: `filter` and `slice`, with negative indices counting from the end.
- `Sorting`: `Array.prototype.sort` as a stable insertion sort, both as a
  function and as an in-place array method.

Behaviours of the code that the model keeps as written:
- `fetchCategories` drops its argument, so the Categories page's paging and
  search parameters never reach the API (`CategoriesPage.FetchesReachApiWithDefaults`).
- The Categories reducer never stores a pagination, so the page's "next"
  handler is always a no-op (`CategoriesPage.PagingNeverAdvances`).
- A successful categories fetch keeps the stored search text but shows every
  fetched row (`CategoriesReducer.SuccessDropsLocalFilter`).
- The delete reducers compare each row's string id with the action's id using
  strict equality, so a numeric id removes nothing
  (`ProductsReducer.DeleteByNonStringIdKeepsAll`).
- `getInitials` on a name with a leading space produces the text `undefined`
  inside the initials, or throws (`Initials.EmptyWordInitials`).

## Model

| member | source | states |
|---|---|---|
| MockServerLemmas.FilteredExact | mock-api/server.js:30-58 | a record is in the filtered list iff it is stored and passes every active filter |
| MockServerLemmas.ListDataMatches | mock-api/server.js:30-58 | every record on the page is stored and satisfies the search, root, code and id filters that are active |
| MockServerLemmas.SearchHitIffOccurs | mock-api/server.js:30-35 | the `q` test holds iff the lower-cased text occurs at some position of the lower-cased, non-empty code or name |
| MockServerLemmas.RootFilter | mock-api/server.js:39-41 | `root=true` keeps exactly the parentless records; any other value leaves the list unfiltered by parent |
| MockServerLemmas.EntityCodesMatch | mock-api/server.js:44-49 | an `entityCodes` entry matches iff, trimmed and lower-cased, it equals the record's lower-cased code |
| MockServerLemmas.EntityIdsMatch | mock-api/server.js:52-58 | an `entityIds` entry matches a record iff `parseInt` of the trimmed entry is the record's id |
| MockServerLemmas.IdOrderConsistent | mock-api/server.js:65-68 | the id comparator is antisymmetric and transitive in both directions |
| MockServerLemmas.CodeOrderConsistent | mock-api/server.js:70-75 | the code comparator on lower-cased `code \|\| ''` is antisymmetric and transitive in both directions |
| MockServerLemmas.ListSortedById | mock-api/server.js:61-68 | with `sortBy` id (the default) the page is in ascending id order, or descending under `DESC` |
| MockServerLemmas.ListSortedByCode | mock-api/server.js:69-75 | with `sortBy=code` the page is ordered by the lower-cased code, a missing code reading as `''` |
| MockServerLemmas.ListSortStable | mock-api/server.js:64-75 | under `sortBy=id` or `sortBy=code`, ascending or descending, the filtered records that tie with any record (equal id, or equal lower-cased code with a missing code read as '') come out in store order; any other key does not sort |
| MockServerLemmas.ListSortOfIdOrdered | mock-api/server.js:64-68 | sorting an id-ordered store by id ascending changes nothing |
| Sorting.StableSortKeepsTies | mock-api/server.js:65-75 | the sort is stable: under a consistent comparator the elements that compare equal to any element keep their input order |
| MockServerLemmas.ListPageWindow | mock-api/server.js:61-92 | the page is the `[offset, offset+limit)` window of the sorted list, at most `limit` long and empty past the end; another `sortBy` keeps store order |
| MockServerLemmas.TotalIgnoresPaging | mock-api/server.js:79-92 | `total` and the filtered list do not depend on `limit` or `offset` |
| MockServerLemmas.PagingDefaults | mock-api/server.js:79-80 | an absent limit is 10 and an absent offset 0; a written number reads back as itself, except that 0 falls back to the default |
| MockServerLemmas.PathIdRoundTrip | mock-api/server.js:99 | a non-zero id written as text names that id; "0" names none |
| MockServerLemmas.ChildrenPageSound | mock-api/server.js:110-124 | every child on the children page is the `{id, code, name}` projection of a stored record whose parent is the requested id, and the page holds at most `childrenLimit` entries |
| MockServerLemmas.ChildrenPageWindow | mock-api/server.js:112-124 | with non-negative `childrenLimit` and `childrenOffset`, the children page is exactly the projection of the `[offset, offset+limit)` window of the record's children in store order, cut at the end and empty past it |
| MockServerLemmas.GetCategoryReply | mock-api/server.js:98-130 | a known id gives 200 with that record, with children exactly under `includeChildren=true` and then the children page; an unknown id gives 404 "Category not found" |
| MockServerLemmas.ParentForFound | mock-api/server.js:143-153 | a parent snapshot is only taken for a numeric `parentId` that some stored record has, and is the `{id, code, name}` of a stored record |
| MockServerLemmas.CreateEffect | mock-api/server.js:136-174 | create replies 201 with a record whose id is one more than the largest stored id (10173901 on an empty store), with `orgId` 50583, `ouId` -1 and the description or '', and the store grows by exactly that record at the end; with neither code nor name the handler throws, giving 500 and an unchanged store |
| MockServerLemmas.CreateParent | mock-api/server.js:143-162 | the created record has a parent iff `parentId` is a non-zero number that a stored record has, and that parent is a stored record's snapshot |
| MockServerLemmas.CreateDerivedCode | mock-api/server.js:159 | without a truthy code the code is the lower-cased name with each white-space run replaced by `-` |
| MockServerLemmas.CreatePreservesIntegrity | mock-api/server.js:133-175 | create keeps ids unique and every parent snapshot resolvable |
| MockServerLemmas.UpdateEffect | mock-api/server.js:178-222 | an unknown id gives 404 and an unchanged store; otherwise only the matched record changes, in `code`/`name`/`description` only when given, its modified date, and its parent as the parent rules give it (kept when `parentId` is absent, removed when it is `null`), keeping id, org, unit and creator |
| MockServerLemmas.UpdateParentRules | mock-api/server.js:188-204 | an absent `parentId` keeps the parent, `null` detaches it, a matching id re-attaches it, and an unknown id keeps the old parent |
| MockServerLemmas.UpdatePreservesIntegrity | mock-api/server.js:178-223 | update keeps ids unique and every parent snapshot resolvable |
| MockServerLemmas.DeleteEffect | mock-api/server.js:226-255 | an unknown id gives 404; an id some record names as parent gives 400 `CATEGORY_HAS_CHILDREN` with the store unchanged; otherwise the reply is 200 with the message "Category deleted successfully" and exactly the records with that id are removed, in order |
| MockServerLemmas.DeleteLeafRemovesOne | mock-api/server.js:251 | with unique ids, deleting a leaf shortens the store by exactly one |
| MockServerLemmas.DeletePreservesIntegrity | mock-api/server.js:226-256 | delete keeps ids unique and every parent snapshot resolvable |
| MockServerLemmas.CreatedIsFetchable | mock-api/server.js:133-175 | a record just created can be fetched back by its id, when that id is not 0 |
| MockServer.FindIndex | mock-api/server.js:100 | the index found is the first record with that id, and none means no record has it |
| MockServer.MaxId | mock-api/server.js:137-139 | the result bounds every id in the store and is one of them |
| MockServer.ApplyFilters | mock-api/server.js:27-58 | the successive reassignments of `filtered` give exactly the filtered list |
| MockServer.CategoryStore.constructor | mock-api/server.js:26 | the store starts with the given records |
| MockServer.CategoryStore.List | mock-api/server.js:25-95 | the filter-then-sort-in-place route returns exactly the page of the list query |
| MockServer.CategoryStore.Get | mock-api/server.js:98-130 | the route replies 200 with the first stored record having the path id, or 404 "Category not found" when none has it; the reply is that of the single-category function |
| MockServer.CategoryStore.Create | mock-api/server.js:133-175 | reply and new store are those of the create function on the old store |
| MockServer.CategoryStore.Update | mock-api/server.js:178-223 | reply and new store are those of the update function on the old store |
| MockServer.CategoryStore.Delete | mock-api/server.js:226-256 | reply and new store are those of the delete function on the old store, whose 200 reply carries the message "Category deleted successfully" |
| Sorting.SortInPlace | mock-api/server.js:65-75 | the array ends up as the stable sort of its old contents under the comparator |
| Sorting.InsertStep | mock-api/server.js:65-75 | one insertion step puts `a[i]` into the sorted prefix and leaves the rest alone |
| Sorting.StableSortPermutes | mock-api/server.js:65-75 | sorting only reorders: the result is a permutation of the input |
| Sorting.StableSortSorted | mock-api/server.js:65-75 | under a consistent comparator the result is in order |
| Sorting.StableSortOfSorted | mock-api/server.js:65-75 | an already ordered list comes back unchanged |
| Js.ParseIntToString | mock-api/server.js:79-80 | `parseInt(String(n))` is `n` |
| Js.SlugHasNoSpace | mock-api/server.js:159 | the derived code has no white space |
| Js.JoinSplit | mock-api/server.js:45 | joining the parts of a split with the separator gives back the text |
| ProductsReducer.RequestOnlyStartsLoading | app/components/pages/Products/reducer.js:28-60 | every request sets `loading`, clears `error` and changes nothing else |
| ProductsReducer.SuccessReplaces | app/components/pages/Products/reducer.js:31-44 | a fetch success replaces both lists with its data (or `[]`) and the pagination with its own (or `{}`), independent of the old state, and clears loading and error |
| ProductsReducer.ReturnableCountBounded | app/components/pages/Products/reducer.js:36 | the returnable count never exceeds the number of products |
| ProductsReducer.FailureKeepsLists | app/components/pages/Products/reducer.js:46-86 | every failure only stops loading and sets the error |
| ProductsReducer.DeleteRemovesExactly | app/components/pages/Products/reducer.js:67-79 | a delete keeps exactly the products with another id, in order, and leaves the pagination |
| ProductsReducer.DeleteByNonStringIdKeepsAll | app/components/pages/Products/reducer.js:70 | a delete with a non-string id removes nothing |
| ProductsReducer.SettersTouchOneField | app/components/pages/Products/reducer.js:88-98 | each `SET_*_FILTER` changes only its own field |
| ProductsReducer.ClearAndUnknown | app/components/pages/Products/reducer.js:100-104 | `CLEAR_DATA` gives the initial state; the two dropdown requests and any action of another page reach the default branch and change nothing |
| ProductsReducer.ReducePreservesConsistent | app/components/pages/Products/reducer.js:26-105 | every action keeps `filteredProducts == products` and the returnable count exact |
| ProductsReducer.RunPreservesConsistent | app/components/pages/Products/reducer.js:26-105 | any sequence of actions keeps the state consistent |
| ProductsReducer.ReachableConsistent | app/components/pages/Products/reducer.js:7-24 | every state reachable from the initial state has `filteredProducts == products` and an exact returnable count |
| ProductsSelectors.ProductsCount | app/components/pages/Products/selectors.js:26-36 | the count is never undefined or null |
| ProductsSelectors.SelectReturnableCount | app/components/pages/Products/selectors.js:38-47 | the returnable count is never undefined or null |
| ProductsSelectors.MissingSliceDefaults | app/components/pages/Products/selectors.js:9-10 | a missing slice gives count 0, returnable 0, search `''`, not loading, no rows |
| ProductsSelectors.CountAfterSuccess | app/components/pages/Products/selectors.js:26-36 | after a fetch the count is the pagination total, or the number of rows when the total is missing |
| ProductsSelectors.ReturnableCountExact | app/components/pages/Products/selectors.js:38-47 | in every reachable state the returnable count shown is the number of returnable filtered rows, at most their number |
| ProductsSaga.DetermineStatus | app/components/pages/Products/saga.js:29-41 | the status is always "Returnable" or "Standard" |
| ProductsSaga.DetermineStatusIgnoresCase | app/components/pages/Products/saga.js:33-38 | a string is returnable iff its lower case is "returnable" or "return"; case does not matter |
| ProductsSaga.DetermineStatusReturnableIff | app/components/pages/Products/saga.js:29-41 | only `true` and those two words give "Returnable" |
| ProductsSaga.TransformProducts | app/components/pages/Products/saga.js:104-107 | one row per API product, each its transform |
| ProductsSaga.FilterOptions | app/components/pages/Products/saga.js:136-137 | one option per record, each its transform |
| ProductsSaga.TransformedIdAndSku | app/components/pages/Products/saga.js:10-12 | the id is the stringified id; the sku is the sku, else the code, else "SKU-" and the id padded with '0' to at least four characters |
| ProductsSaga.SkuOfSeven | app/components/pages/Products/saga.js:12 | product 7 gets "SKU-0007" |
| ProductsSaga.LinkedIdPreference | app/components/pages/Products/saga.js:15-17 | brand and category ids prefer the nested id, then the flat id, both stringified, else null |
| ProductsSaga.AttributesCountAgrees | app/components/pages/Products/saga.js:18-19 | an array of attributes is kept and counted by its length; otherwise the list is `[]` and the count the first truthy fallback or 0 |
| ProductsSaga.LastUpdatedNotAvailable | app/components/pages/Products/saga.js:46-61 | the last-updated cell is 'N/A' iff every date field is falsy |
| ProductsSaga.FetchProductsParamsDefaults | app/components/pages/Products/saga.js:89-98 | the request fills limit 10, offset 0, 'id', 'ASC' where falsy and passes `q`, brand, category and status unchanged |
| ProductsSaga.FetchProductsClassifies | app/components/pages/Products/saga.js:100-125 | exactly one action: success iff the response has truthy data, with one row per array element and the pagination or `{}`; otherwise a failure with a non-empty message |
| ProductsSaga.FetchFailureReportsMessage | app/components/pages/Products/saga.js:114-118 | a failed response reports its own message |
| ProductsSaga.FilterSagasSilentOnFailure | app/components/pages/Products/saga.js:131-170 | the dropdown sagas emit one success with an option per record when data is truthy, otherwise nothing |
| ProductsSaga.RefetchOrder | app/components/pages/Products/saga.js:175-257 | each mutation refetches iff it succeeds; create and update emit the refetch first, delete emits its success first; a single action is a failure |
| ProductsSaga.DeleteSuccessRule | app/components/pages/Products/saga.js:237-244 | delete succeeds iff the response is missing, has a truthy message, or has status 200 |
| BrandsReducer.RequestOnlyStartsLoading | app/components/pages/Brands/reducer.js:22-44 | every request sets `loading`, clears `error` and changes nothing else |
| BrandsReducer.SuccessReplaces | app/components/pages/Brands/reducer.js:25-34 | a fetch success replaces both lists and the pagination wholesale and clears loading and error |
| BrandsReducer.FailureKeepsLists | app/components/pages/Brands/reducer.js:36-68 | every failure only stops loading and sets the error |
| BrandsReducer.DeleteRemovesExactly | app/components/pages/Brands/reducer.js:51-61 | a delete keeps exactly the brands with another id, in order |
| BrandsReducer.SearchOnlyStored | app/components/pages/Brands/reducer.js:70-73 | the search text is stored and nothing is filtered locally |
| BrandsReducer.ClearAndUnknown | app/components/pages/Brands/reducer.js:75-79 | `CLEAR_DATA` gives the initial state; another action changes nothing |
| BrandsReducer.RunKeepsListsEqual | app/components/pages/Brands/reducer.js:20-80 | `filteredBrands == brands` is kept by every sequence of actions |
| BrandsSelectors.BrandsCount | app/components/pages/Brands/selectors.js:26-36 | the count is never undefined or null |
| BrandsSelectors.MissingSliceDefaults | app/components/pages/Brands/selectors.js:6-46 | a missing slice gives no brands, count 0, search `''`, not loading |
| BrandsSelectors.CountAfterSuccess | app/components/pages/Brands/selectors.js:26-36 | after a fetch the count is the pagination total, or the number of rows when the total is missing |
| BrandsSaga.TransformedCodeAndId | app/components/pages/Brands/saga.js:10-11 | a missing code becomes "B" and the stringified id padded with '0' to at least three characters |
| BrandsSaga.CodeOfOne | app/components/pages/Brands/saga.js:11 | brand 1 gets "B001" |
| BrandsSaga.ParentBrandIdPreference | app/components/pages/Brands/saga.js:15 | the parent id is the stringified nested id when truthy, else `parentBrandId` when truthy, else `parentId` when truthy, else null |
| BrandsSaga.TransformThrowsOnlyInInitials | app/components/pages/Brands/saga.js:8-20 | the transform fails iff `getInitials` throws on the name; otherwise the status is "Active" and the initials are those of the name |
| BrandsSaga.FetchBrandsParamsDefaults | app/components/pages/Brands/saga.js:60-74 | the request fills limit 10, offset 0, 'id', 'ASC' where falsy and passes the hierarchy parameters unchanged |
| BrandsSaga.FetchBrandsClassifies | app/components/pages/Brands/saga.js:76-101 | exactly one action: success iff the response has truthy data and no initials throw, one row per element; otherwise a failure with a non-empty message |
| BrandsSaga.RefetchOrder | app/components/pages/Brands/saga.js:107-193 | each mutation refetches iff it succeeds; delete succeeds iff the response is missing, has a message or status 200, and emits its success first |
| CategoriesReducer.RequestOnlyStartsLoading | app/components/pages/Categories/reducer.js:53-54 | a request sets `loading`, clears `error` and changes nothing else |
| CategoriesReducer.SuccessFallsBackToMock | app/components/pages/Categories/reducer.js:55-59 | a success sets both lists to its data, or to the four built-in rows, stops loading and keeps the error |
| CategoriesReducer.FailureKeepsLists | app/components/pages/Categories/reducer.js:60-61 | a failure only stops loading and sets the error |
| CategoriesReducer.SearchExact | app/components/pages/Categories/reducer.js:62-74 | empty text shows every category; otherwise exactly the categories whose lower-cased name or id contains the lower-cased text; `categories` is unchanged |
| CategoriesReducer.MatchesIffOccurs | app/components/pages/Categories/reducer.js:66-69 | a match means the lower-cased text occurs at some position of the lower-cased name or id |
| CategoriesReducer.SearchIsSubsequence | app/components/pages/Categories/reducer.js:64-71 | the search result keeps the order of the full list |
| CategoriesReducer.SearchIdempotent | app/components/pages/Categories/reducer.js:62-74 | searching twice for the same text is the same as once |
| CategoriesReducer.SuccessDropsLocalFilter | app/components/pages/Categories/reducer.js:55-59 | a success after a search shows every fetched row though the search text stays |
| CategoriesReducer.ClearAndUnknown | app/components/pages/Categories/reducer.js:75-78 | `CLEAR_DATA` gives the initial state; other actions, including the create/update/delete results, change nothing |
| CategoriesReducer.RunKeepsSubsequence | app/components/pages/Categories/reducer.js:51-80 | in every reachable state the filtered list is an order-preserving subsequence of the list |
| CategoriesSelectors.CountIsFilteredSize | app/components/pages/Categories/selectors.js:48-51 | the pagination is always `{}`, so the count is always the number of filtered categories |
| CategoriesSelectors.MissingSliceDefaults | app/components/pages/Categories/selectors.js:6-46 | a missing slice gives no categories, count 0, search `''`, not loading |
| CategoriesSaga.TransformedCategory | app/components/pages/Categories/saga.js:8-19 | the parent name prefers the nested name, then the flat fallbacks, null iff all are missing; the parent id is the stringified nested id |
| CategoriesSaga.TransformThrowsOnlyInInitials | app/components/pages/Categories/saga.js:8-19 | the transform fails iff `getInitials` throws on the name |
| CategoriesSaga.TransformStatus | app/components/pages/Categories/saga.js:56-62 | the normalised status is never empty; the full mapping is stated in `TransformStatusProperties` |
| CategoriesSaga.TransformStatusProperties | app/components/pages/Categories/saga.js:56-62 | a falsy status gives "Active"; "active" and "inactive" in any case give "Active" and "Inactive"; any other status comes back unchanged; normalising twice is normalising once |
| CategoriesSaga.RequestAlwaysDefaults | app/components/pages/Categories/actions.js:3-5 | every fetch request reaches the API with limit 10, offset 0, 'id', 'ASC' and no search |
| CategoriesSaga.FetchCategoriesParamsDefaults | app/components/pages/Categories/saga.js:70-79 | the request fills the paging and sorting defaults and passes `root`, `entityCodes` and `entityIds` |
| CategoriesSaga.FetchCategoriesClassifies | app/components/pages/Categories/saga.js:81-106 | exactly one action: success iff the response has truthy data and no initials throw, one row per element; otherwise a failure with a non-empty message |
| CategoriesSaga.RefetchOrder | app/components/pages/Categories/saga.js:112-198 | each mutation refetches iff it succeeds; delete succeeds iff the response is missing, has a message or status 200 |
| Initials.GetInitials | app/components/pages/Categories/saga.js:44-51 | an empty name gives `''`; a one-word name gives one or two characters |
| Initials.TwoWordInitials | app/components/pages/Brands/saga.js:45-52 | two or more words give the upper-cased first letters of the first two |
| Initials.OneWordInitials | app/components/pages/Categories/Categories.js:178-185 | one word gives its first two characters upper-cased |
| Initials.EmptyWordInitials | app/components/pages/Brands/Brands.js:130-137 | for any two space-free words, an empty first or second word contributes the upper-cased text "UNDEFINED" in place of its initial, and two empty words throw |
| Entities.FirstTextIsFirst | app/components/pages/Categories/saga.js:13 | the `\|\|` chain is null iff every field is falsy, and otherwise the first truthy field |
| Entities.FormatDate | app/components/pages/Products/saga.js:46-61 | the date cell is 'N/A' iff the date is falsy |
| Entities.ErrorText | app/components/pages/Products/saga.js:117 | the error text is the response's message when truthy, and truthy whenever the fallback is |
| Entities.ThrownText | app/components/pages/Products/saga.js:120-124 | a thrown error always gives a truthy message |
| Entities.DefaultsFillFalsy | app/components/pages/Products/saga.js:89-98 | the defaults replace exactly the falsy limit, offset, sort key and order |
| Entities.Collect | app/components/pages/Brands/saga.js:80-83 | mapping a transform that may throw throws iff one element throws, and otherwise keeps length and order |
| SearchBox.SearchParamsShape | app/components/pages/Categories/Categories.js:85-95 | the debounced fetch is for limit 10, offset 0, with `q` the trimmed text, absent iff the text is blank |
| SearchBox.SearchBox.constructor | app/components/pages/Categories/Categories.js:56-58 | the local text starts as the stored search text or `''`, no timer armed |
| SearchBox.SearchBox.SearchEffect | app/components/pages/Categories/Categories.js:67-105 | the first run only clears the initial-mount flag; later runs replace any pending timer by one for the current text |
| SearchBox.SearchBox.Mount | app/components/pages/Brands/Brands.js:59-71 | mounting dispatches exactly one first-page fetch and arms no timer |
| SearchBox.SearchBox.Change | app/components/pages/Categories/Categories.js:114-118 | a new text re-arms the timer for that text; the same text changes nothing |
| SearchBox.SearchBox.SyncFromStore | app/components/pages/Categories/Categories.js:108-112 | a different stored search text (or '' when none is stored) replaces the local one and re-arms the debounce timer for it (after the first effect run); the same text changes nothing |
| SearchBox.SearchBox.TimerFires | app/components/pages/Brands/Brands.js:81-95 | a fired timer dispatches `setSearchFilter` with the raw text and then the first-page fetch, even for empty text |
| SearchBox.SearchBox.Unmount | app/components/pages/Brands/Brands.js:98-104 | the cleanup clears the pending timer and changes nothing else |
| SearchBox.SearchBox.Type | app/components/pages/Brands/Brands.js:65-105 | a burst of changes dispatches nothing and leaves at most one timer, for the last text |
| SearchBox.SearchBox.TypeThenWait | app/components/pages/Categories/Categories.js:67-105 | a burst followed by the delay yields one `setSearchFilter` and one fetch, both for the last text, or nothing if the text never changed |
| CategoriesPage.NextDisabledIffNoop | app/components/pages/Categories/Categories.js:148-175 | the next button is disabled iff next-page does nothing |
| CategoriesPage.PreviousPageBounds | app/components/pages/Categories/Categories.js:131-146 | previous-page moves back one limit, never below offset 0 |
| CategoriesPage.NextUndoesPrevious | app/components/pages/Categories/Categories.js:131-166 | previous then next returns to the same offset |
| CategoriesPage.DisplayBounds | app/components/pages/Categories/Categories.js:169-176 | on a page inside the total, 1 ≤ start ≤ end ≤ total and the range is at most one limit |
| CategoriesPage.QueryTrimmed | app/components/pages/Categories/Categories.js:141-143 | `q` is the trimmed text, present iff the text is not blank |
| CategoriesPage.PagingNeverAdvances | app/components/pages/Categories/Categories.js:148-176 | with the store's pagination the next handler never fires and the pager is hidden |
| CategoriesPage.FetchesReachApiWithDefaults | app/components/pages/Categories/actions.js:3-5 | every fetch the page dispatches reaches the API with the saga defaults |
| BrandsPage.MountFetchesFirstPage | app/components/pages/Brands/Brands.js:59-62 | the mount fetch asks for 10 brands from offset 0 with no search text |
| BrandsPage.SearchFetchesFirstPage | app/components/pages/Brands/Brands.js:81-95 | a fired search asks for the first 10 brands with the trimmed text as `q` |
| BrandsPage.MountPage | app/components/pages/Brands/Brands.js:54-71 | mounting yields exactly one fetch action, for the first page, and no pending timer |
| AddBrandModal.Form.constructor | app/components/pages/Brands/AddBrandModal.js:20-25 | the form opens with empty fields and no errors |
| AddBrandModal.Form.InputChange | app/components/pages/Brands/AddBrandModal.js:35-45 | sets only the named field and removes only that field's error |
| AddBrandModal.Form.ValidateForm | app/components/pages/Brands/AddBrandModal.js:47-60 | the errors become exactly the blank required fields, and validation passes iff there are none |
| AddBrandModal.Form.HandleSubmit | app/components/pages/Brands/AddBrandModal.js:62-71 | the payload is submitted exactly when validation passes |
| AddBrandModal.Form.HandleCancel | app/components/pages/Brands/AddBrandModal.js:73-77 | cancel empties the form and the errors, then reports one cancellation |
| AddBrandModal.Form.VisibilityChanged | app/components/pages/Brands/AddBrandModal.js:28-33 | closing the dialog empties the form and the errors; opening it changes nothing |
| AddBrandModal.RequiredErrorsExact | app/components/pages/Brands/AddBrandModal.js:47-57 | code and name are flagged iff all white space; the description never is |
| AddBrandModal.PayloadTrimmed | app/components/pages/Brands/AddBrandModal.js:62-68 | a valid payload has non-empty, trimmed code and name, and a trimmed description present iff one was given |
| AddBrandModal.PayloadStable | app/components/pages/Brands/AddBrandModal.js:64-68 | building the payload again from a payload gives the same payload |

## Left out

- The CORS middleware, `server.listen`, and the default router for the other
  resources (`mock-api/server.js:10-22, 259-272`): these are transport and
  process setup.
- The brand and product endpoints are served by the json-server library router.
  Its behaviour is not part of this model.
- `app/services/api.js` is not part of this model. The network client, the 401
  redirect and the storage it reads are foreign I/O. Each saga takes the
  outcome of its API call as a parameter.
- Clocks: `new Date().toISOString()` is a parameter `now` of the server routes.
- `Entities.FormatDate` keeps the raw date text: `toLocaleString` formatting
  depends on the locale and the clock.
- `Js.CompareText` compares characters (Unicode scalar values) in order.
  `localeCompare` is locale-aware, and the model does not capture locale
  collation. Scalar-value order also differs from UTF-16 code-unit order above
  U+FFFF.
- Strings are sequences of Unicode scalar values, while JavaScript indexes
  UTF-16 code units. A character outside the Basic Multilingual Plane is one
  element in the model and two code units (a surrogate pair) in the program.
  The lines below name the members where this shows; ids and codes are ASCII
  in practice.
- `Initials.GetInitials`: `words[0][0]` and `substring(0, 2)` take code units.
  For a name that starts with a non-BMP character, the program keeps a lone
  surrogate, or the bare character for a one-word name, where the model keeps
  the whole character and the next one.
- `Initials.TwoWordInitials`: each initial is the word's first scalar value.
  The program takes the first code unit, which is half a surrogate pair for a
  non-BMP first character.
- `Initials.OneWordInitials`: the result is the first two scalar values. The
  program takes two code units, which is one non-BMP character.
- `Initials.EmptyWordInitials`: the non-empty word's initial is its first
  scalar value. The program takes its first code unit.
- `Js.PadStart`: the width counts scalar values. The program counts code
  units; the padded ids are decimal digits, where the two agree.
- `Js.Lower` and `Js.Upper` fold ASCII letters only. Unicode case mapping is
  not modelled.
- Mock-store ids are integers. The create route gives every new record a
  number, and a non-numeric id is not modelled.
- `MockServerLemmas.CreateEffect`: the maximum counts non-numeric ids as 0.
  The model has only numeric ids, so that case does not arise.
- Saga concurrency is not modelled: `takeLatest` cancels an in-flight fetch
  when a new request arrives. Each saga is one call and its emitted actions.
- Real timers are not modelled. The debounce delay is the explicit step
  `SearchBox.SearchBox.TimerFires`.
- Rendering, JSX, styles, messages, routes and loaders hold no logic beyond
  wiring and are not part of this model. So are the placeholder pages, the
  error boundary and the sidebar.
- The action creators and constants are the constructors of the action
  datatypes.
- The Categories create/update/delete action types are not defined in
  `app/components/pages/Categories/constants.js`, so in the program they
  read as `undefined`. The model keeps them as distinct actions, and the
  reducer ignores them. Redux refuses to dispatch an action whose `type` is
  undefined, so the program's `put` of these actions would throw into the
  saga's `catch`. `CategoriesSaga.CreateCategory`, `CategoriesSaga.UpdateCategory`
  and `CategoriesSaga.DeleteCategory` therefore give the intended action
  sequences, not that failure.
- The saga watchers are not part of this model. In
  `app/components/pages/Categories/saga.js` the root saga registers
  `takeLatest` on the three undefined create/update/delete types, in one
  `all` with the fetch watcher. redux-saga rejects an undefined pattern: in
  0.16 always, and in 1.x outside production builds. That error aborts the
  `all` and with it the fetch watcher, so a categories fetch request is then
  never served and `loading` stays true. In a 1.x production build the
  undefined pattern matches every action instead, so every action would start
  the three mutation sagas. The model's fetch saga assumes the watcher runs.
- `Initials.InitialsTypeError` stands for the engine's `TypeError` message,
  whose exact wording depends on the JavaScript engine.
- `Entities.ErrorText` is truthy only when its fallback text is non-empty.
  Every saga passes a non-empty fallback.
- `CategoriesPage.NumOr` reads a pagination field that is not a number as its
  fallback. This includes a truthy non-number, which JavaScript arithmetic
  would coerce.
- `ProductsSelectors.SelectReturnableCount`: the recount fallback is stated,
  but in reachable states it is never used.
