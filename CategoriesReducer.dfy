/** `categoriesReducer`: the Categories state and its transition on each
    action. Unlike the other pages it filters locally on the search text,
    falls back to a built-in list when a success carries no data, and stores
    no pagination. */
module CategoriesReducer {
  import opened Js
  import opened Entities
  import opened Sequences
  import opened CategoriesActions

  datatype CategoriesState = CategoriesState(
    categories: seq<Category>,
    filteredCategories: seq<Category>,
    searchFilter: string,
    loading: bool,
    error: Value)

  const InitialState := CategoriesState([], [], "", false, Null)

  const MockUpdated := Formatted("Nov 25, 2025 9:38 AM")

  /** The four built-in rows shown when a success carries no data. */
  const MockCategories := [
    Category("C001", "Electronics", "EL", None, Undefined, MockUpdated, "Active", None),
    Category("C002", "Laptops", "LA", Some("Electronics"), Undefined, MockUpdated, "Active", None),
    Category("C003", "Smartphones", "SM", Some("Electronics"), Undefined, MockUpdated, "Active", None),
    Category("C004", "Home & Garden", "HO", None, Undefined, MockUpdated, "Active", None)]

  /** The lower-cased search text occurs in the lower-cased name or id. */
  predicate Matches(text: string, c: Category) {
    Contains(Lower(c.name), Lower(text)) || Contains(Lower(c.id), Lower(text))
  }

  /** The local search: every category for empty text, otherwise the matching ones. */
  function Search(categories: seq<Category>, text: string): seq<Category> {
    if Lower(text) != "" then Filter(categories, c => Matches(text, c)) else categories
  }

  function Reduce(s: CategoriesState, a: CategoriesAction): CategoriesState {
    match a
    case FetchCategoriesRequest => s.(loading := true, error := Null)
    case FetchCategoriesSuccess(data, _) =>
      var rows := if data.Some? then data.value else MockCategories;
      s.(categories := rows, filteredCategories := rows, loading := false)
    case FetchCategoriesFailure(error) => s.(loading := false, error := error)
    case SetSearchFilter(text) => s.(searchFilter := text, filteredCategories := Search(s.categories, text))
    case ClearData => InitialState
    case _ => s
  }

  function Run(s: CategoriesState, actions: seq<CategoriesAction>): CategoriesState
    decreases |actions|
  {
    if |actions| == 0 then s else Run(Reduce(s, actions[0]), actions[1..])
  }

  // Properties

  lemma RequestOnlyStartsLoading(s: CategoriesState)
    ensures Reduce(s, FetchCategoriesRequest) == s.(loading := true, error := Null)
  {
  }

  /** A success sets both lists to its data, or to the built-in rows when it
      carries none; it stops loading but keeps any earlier error and the
      search text. */
  lemma SuccessFallsBackToMock(s: CategoriesState, data: Option<seq<Category>>, pagination: Option<Pagination>)
    ensures var r := Reduce(s, FetchCategoriesSuccess(data, pagination));
      r.categories == (if data.Some? then data.value else MockCategories) &&
      r.filteredCategories == r.categories && !r.loading &&
      r.error == s.error && r.searchFilter == s.searchFilter
    ensures |Reduce(s, FetchCategoriesSuccess(None, pagination)).categories| == 4
  {
  }

  lemma FailureKeepsLists(s: CategoriesState, error: Value)
    ensures Reduce(s, FetchCategoriesFailure(error)) == s.(loading := false, error := error)
  {
  }

  /** The search keeps exactly the categories whose lower-cased name or id
      contains the lower-cased text, all of them for empty text, and leaves
      the full list alone. */
  lemma SearchExact(s: CategoriesState, text: string)
    ensures var r := Reduce(s, SetSearchFilter(text));
      r.categories == s.categories && r.searchFilter == text &&
      (text == "" ==> r.filteredCategories == s.categories) &&
      (text != "" ==> forall c :: c in r.filteredCategories <==> c in s.categories && Matches(text, c))
  {
    assert |Lower(text)| == |text|;
  }

  /** A match means the lower-cased text occurs at some position of the
      lower-cased name or id. */
  lemma MatchesIffOccurs(text: string, c: Category)
    ensures Matches(text, c) <==>
      (exists i :: OccursAt(Lower(c.name), Lower(text), i)) || (exists i :: OccursAt(Lower(c.id), Lower(text), i))
  {
    ContainsIffOccurs(Lower(c.name), Lower(text));
    ContainsIffOccurs(Lower(c.id), Lower(text));
  }

  /** The search result keeps the order of the full list. */
  lemma SearchIsSubsequence(categories: seq<Category>, text: string)
    ensures IsSubsequence(Search(categories, text), categories)
  {
    if Lower(text) != "" {
      FilterIsSubsequence(categories, c => Matches(text, c));
    } else {
      SubsequenceReflexive(categories);
    }
  }

  /** Searching again for the same text changes nothing: the search always
      starts from the full list. */
  lemma SearchIdempotent(s: CategoriesState, text: string)
    ensures Reduce(Reduce(s, SetSearchFilter(text)), SetSearchFilter(text)) == Reduce(s, SetSearchFilter(text))
  {
  }

  /** A success after a search shows every fetched row although the search
      text is still stored. */
  lemma SuccessDropsLocalFilter(s: CategoriesState, text: string, rows: seq<Category>)
    ensures var r := Reduce(Reduce(s, SetSearchFilter(text)), FetchCategoriesSuccess(Some(rows), None));
      r.searchFilter == text && r.filteredCategories == rows
  {
  }

  /** Clearing gives the initial state; every action the reducer does not
      handle, the create/update/delete results among them, changes nothing. */
  lemma ClearAndUnknown(s: CategoriesState)
    ensures Reduce(s, ClearData) == InitialState
    ensures forall a: CategoriesAction ::
      (!a.FetchCategoriesRequest? && !a.FetchCategoriesSuccess? && !a.FetchCategoriesFailure? &&
       !a.SetSearchFilter? && !a.ClearData?) ==> Reduce(s, a) == s
    ensures Reduce(s, Unknown) == s && Reduce(s, CreateCategorySuccess) == s
  {
  }

  /** In every reachable state the filtered list is an order-preserving
      subsequence of the full list. */
  lemma {:induction false} RunKeepsSubsequence(s: CategoriesState, actions: seq<CategoriesAction>)
    requires IsSubsequence(s.filteredCategories, s.categories)
    ensures IsSubsequence(Run(s, actions).filteredCategories, Run(s, actions).categories)
    decreases |actions|
  {
    if |actions| > 0 {
      var r := Reduce(s, actions[0]);
      if actions[0].FetchCategoriesSuccess? {
        SubsequenceReflexive(r.categories);
      } else if actions[0].SetSearchFilter? {
        SearchIsSubsequence(s.categories, actions[0].searchText);
      }
      RunKeepsSubsequence(r, actions[1..]);
    }
  }
}
