/** The Categories saga: how an API category becomes a category row, the
    status normalisation, the outgoing parameters, and which actions each saga
    emits for the response it gets. */
module CategoriesSaga {
  import opened Js
  import opened Entities
  import opened Initials
  import opened CategoriesActions

  /** A category record as the API returns it, with every field the
      transform reads. */
  datatype ApiCategory = ApiCategory(
    id: Value,
    categoryId: Value,
    name: Option<string>,
    categoryName: Option<string>,
    parent: Option<Nested>,
    parentCategory: Option<string>,
    parentCategoryName: Option<string>,
    parentCategoryId: Value,
    parentId: Value,
    dates: DateFields,
    description: Option<string>)

  /** `transformCategoryData`; `None` when `getInitials` throws on the name. */
  function TransformCategory(c: ApiCategory): Option<Category> {
    var name := TextOr(OrText(c.name, c.categoryName), "");
    var initials := GetInitials(Some(name));
    if initials.None? then None
    else
      Some(Category(
        ToString(ValueOr(c.id, c.categoryId)),
        name,
        initials.value,
        FirstText([if c.parent.Some? then c.parent.value.name else None, c.parentCategory, c.parentCategoryName]),
        if c.parent.Some? && Truthy(c.parent.value.id) then Str(ToString(c.parent.value.id))
        else ValueOr(c.parentCategoryId, ValueOr(c.parentId, Null)),
        FormatDate(PickDate(c.dates)),
        "Active",
        Some(TextOr(c.description, ""))))
  }

  function TransformCategories(items: seq<ApiCategory>): Option<seq<Category>> {
    Collect(seq(|items|, i requires 0 <= i < |items| => TransformCategory(items[i])))
  }

  /** `transformStatus`: a falsy status is "Active", "active" and "inactive"
      in any case are normalised, and any other text is returned as it is. */
  function TransformStatus(status: Option<string>): (r: string)
    ensures r != ""
  {
    if !Present(status) then "Active"
    else if Lower(status.value) == "active" then "Active"
    else if Lower(status.value) == "inactive" then "Inactive"
    else status.value
  }

  /** The `apiParams` of `fetchCategories`: paging and sorting defaults, and
      the search and hierarchy fields passed through. */
  function FetchCategoriesParams(p: QueryParams): QueryParams {
    NoParams.(
      q := p.q,
      limit := DefaultLimit(p),
      offset := DefaultOffset(p),
      root := p.root,
      entityCodes := p.entityCodes,
      entityIds := p.entityIds,
      sortBy := DefaultSortBy(p),
      sortOrder := DefaultSortOrder(p))
  }

  /** The parameters a fetch request leads to: the request carries none, so
      the saga reads `{}`. */
  function RequestParams(a: CategoriesAction): QueryParams
    requires a.FetchCategoriesRequest?
  {
    FetchCategoriesParams(NoParams)
  }

  /** What `fetchCategories` emits for the outcome of `getCategories`. */
  function FetchCategories(outcome: Outcome<ApiCategory>): seq<CategoriesAction> {
    match outcome
    case Threw(message) => [FetchCategoriesFailure(ThrownText(message))]
    case Returned(response) =>
      if HasData(response) then
        var rows := TransformCategories(ItemsOf(response.value.data));
        if rows.None? then [FetchCategoriesFailure(Str(InitialsTypeError))]
        else
          [FetchCategoriesSuccess(
            rows,
            Some(if response.value.pagination.Some? then response.value.pagination.value else EmptyPagination))]
      else [FetchCategoriesFailure(ErrorText(response, "Failed to fetch categories"))]
  }

  function CreateCategory(outcome: Outcome<ApiCategory>): seq<CategoriesAction> {
    match outcome
    case Threw(message) => [CreateCategoryFailure(ThrownText(message))]
    case Returned(response) =>
      if HasData(response) then [FetchCategoriesRequest, CreateCategorySuccess]
      else [CreateCategoryFailure(ErrorText(response, "Failed to create category"))]
  }

  function UpdateCategory(outcome: Outcome<ApiCategory>): seq<CategoriesAction> {
    match outcome
    case Threw(message) => [UpdateCategoryFailure(ThrownText(message))]
    case Returned(response) =>
      if HasData(response) then [FetchCategoriesRequest, UpdateCategorySuccess]
      else [UpdateCategoryFailure(ErrorText(response, "Failed to update category"))]
  }

  function DeleteCategory(categoryId: Value, outcome: Outcome<ApiCategory>): seq<CategoriesAction> {
    match outcome
    case Threw(message) => [DeleteCategoryFailure(ThrownText(message))]
    case Returned(response) =>
      if DeleteSucceeded(response) then [DeleteCategorySuccess(categoryId), FetchCategoriesRequest]
      else [DeleteCategoryFailure(ErrorText(response, "Failed to delete category"))]
  }

  // Properties

  /** The row has the stringified id, the status "Active", the name's
      initials, and the parent's name before the flat fallbacks. */
  lemma TransformedCategory(c: ApiCategory)
    requires TransformCategory(c).Some?
    ensures var r := TransformCategory(c).value;
      r.id == ToString(ValueOr(c.id, c.categoryId)) && r.status == "Active" &&
      Some(r.initials) == GetInitials(Some(r.name)) &&
      (c.parent.Some? && Present(c.parent.value.name) ==> r.parentCategory == c.parent.value.name) &&
      (c.parent.Some? && Truthy(c.parent.value.id) ==> r.parentCategoryId == Str(ToString(c.parent.value.id))) &&
      (r.parentCategory.None? <==>
        !(c.parent.Some? && Present(c.parent.value.name)) && !Present(c.parentCategory) && !Present(c.parentCategoryName))
  {
    var xs := [if c.parent.Some? then c.parent.value.name else None, c.parentCategory, c.parentCategoryName];
    FirstTextIsFirst(xs);
    assert TransformCategory(c).value.parentCategory == FirstText(xs);
    assert xs[0] == (if c.parent.Some? then c.parent.value.name else None);
    assert xs[1] == c.parentCategory && xs[2] == c.parentCategoryName;
  }

  /** A transform throws only when `getInitials` throws on the name. */
  lemma TransformThrowsOnlyInInitials(c: ApiCategory)
    ensures TransformCategory(c).None? <==> GetInitials(Some(TextOr(OrText(c.name, c.categoryName), ""))).None?
  {
  }

  /** The status normalisation maps a falsy status to "Active", "active" and
      "inactive" in any case to "Active" and "Inactive", and returns any other
      status unchanged; it ignores case on the known words and is idempotent. */
  lemma TransformStatusProperties(status: Option<string>)
    ensures !Present(status) ==> TransformStatus(status) == "Active"
    ensures Present(status) && Lower(status.value) == "active" ==> TransformStatus(status) == "Active"
    ensures Present(status) && Lower(status.value) == "inactive" ==> TransformStatus(status) == "Inactive"
    ensures Present(status) && Lower(status.value) != "active" && Lower(status.value) != "inactive" ==>
      TransformStatus(status) == status.value
    ensures TransformStatus(status) in {"Active", "Inactive"} || TransformStatus(status) == status.value
    ensures Present(status) && (Lower(status.value) == "active" || Lower(status.value) == "inactive") ==>
      TransformStatus(status) == TransformStatus(Some(Lower(status.value)))
    ensures TransformStatus(Some(TransformStatus(status))) == TransformStatus(status)
  {
    if Present(status) {
      LowerIdempotent(status.value);
    }
    assert Lower("Active") == "active";
    assert Lower("Inactive") == "inactive";
  }

  /** Every fetch request the page dispatches reaches the API with the
      defaults: 10 rows from offset 0 by id ascending, and no search text,
      whatever parameters the page built. */
  lemma RequestAlwaysDefaults()
    ensures var a := RequestParams(FetchCategoriesRequest);
      a.limit == Num(10) && a.offset == Num(0) && a.sortBy == Str("id") && a.sortOrder == Str("ASC") &&
      a.q == Undefined && a.root == Undefined
  {
  }

  lemma FetchCategoriesParamsDefaults(p: QueryParams)
    ensures var a := FetchCategoriesParams(p);
      a.limit == DefaultLimit(p) && a.offset == DefaultOffset(p) &&
      a.sortBy == DefaultSortBy(p) && a.sortOrder == DefaultSortOrder(p) &&
      a.q == p.q && a.root == p.root && a.entityCodes == p.entityCodes && a.entityIds == p.entityIds &&
      a.brandId == Undefined && a.includeChildren == Undefined
  {
  }

  /** `fetchCategories` emits exactly one action: success with one row per
      array element exactly when truthy data came back and no name made
      `getInitials` throw; otherwise a failure with a non-empty message. */
  lemma FetchCategoriesClassifies(outcome: Outcome<ApiCategory>)
    ensures |FetchCategories(outcome)| == 1
    ensures FetchCategories(outcome)[0].FetchCategoriesSuccess? <==>
      outcome.Returned? && HasData(outcome.response) &&
      TransformCategories(ItemsOf(outcome.response.value.data)).Some?
    ensures FetchCategories(outcome)[0].FetchCategoriesSuccess? ==>
      FetchCategories(outcome)[0].data.Some? &&
      |FetchCategories(outcome)[0].data.value| == |ItemsOf(outcome.response.value.data)|
    ensures FetchCategories(outcome)[0].FetchCategoriesFailure? ==> Truthy(FetchCategories(outcome)[0].error)
  {
  }

  /** Each mutation requests a refetch exactly when it succeeds. Delete
      succeeds on a missing response, any message or status 200, and then
      requests a refetch; create and update refetch before their success. */
  lemma RefetchOrder(categoryId: Value, outcome: Outcome<ApiCategory>)
    ensures DeleteCategory(categoryId, outcome)[0] == DeleteCategorySuccess(categoryId) <==>
      outcome.Returned? && DeleteSucceeded(outcome.response)
    ensures DeleteCategorySuccess(categoryId) in DeleteCategory(categoryId, outcome) ==>
      DeleteCategory(categoryId, outcome) == [DeleteCategorySuccess(categoryId), FetchCategoriesRequest]
    ensures FetchCategoriesRequest in CreateCategory(outcome) <==> CreateCategorySuccess in CreateCategory(outcome)
    ensures CreateCategorySuccess in CreateCategory(outcome) ==>
      CreateCategory(outcome) == [FetchCategoriesRequest, CreateCategorySuccess]
    ensures FetchCategoriesRequest in UpdateCategory(outcome) <==> UpdateCategorySuccess in UpdateCategory(outcome)
    ensures UpdateCategorySuccess in UpdateCategory(outcome) ==>
      UpdateCategory(outcome) == [FetchCategoriesRequest, UpdateCategorySuccess]
    ensures FetchCategoriesRequest in DeleteCategory(categoryId, outcome) <==>
      DeleteCategorySuccess(categoryId) in DeleteCategory(categoryId, outcome)
  {
  }
}
