/** The Brands saga: how an API brand becomes a brand row, how the outgoing
    list parameters are defaulted, and which actions each saga emits for the
    response it gets. */
module BrandsSaga {
  import opened Js
  import opened Entities
  import opened Initials
  import opened BrandsActions

  /** A brand record as the API returns it, with every field the transform reads. */
  datatype ApiBrand = ApiBrand(
    id: Value,
    brandId: Value,
    code: Option<string>,
    name: Option<string>,
    brandName: Option<string>,
    parent: Option<Nested>,
    parentBrand: Option<string>,
    parentBrandName: Option<string>,
    parentBrandId: Value,
    parentId: Value,
    dates: DateFields,
    description: Option<string>)

  /** The generated code: "B" and the id left-padded with '0' to three characters. */
  function CodeFallback(id: Value): string {
    "B" + PadStart(ToString(id), 3, '0')
  }

  /** `transformBrandData`; `None` when `getInitials` throws on the name. */
  function TransformBrand(b: ApiBrand): Option<Brand> {
    var id := ValueOr(b.id, b.brandId);
    var name := TextOr(OrText(b.name, b.brandName), "");
    var initials := GetInitials(Some(name));
    if initials.None? then None
    else
      Some(Brand(
        ToString(id),
        if Present(b.code) then b.code.value else CodeFallback(id),
        name,
        initials.value,
        FirstText([if b.parent.Some? then b.parent.value.name else None, b.parentBrand, b.parentBrandName]),
        if b.parent.Some? && Truthy(b.parent.value.id) then Str(ToString(b.parent.value.id))
        else ValueOr(b.parentBrandId, ValueOr(b.parentId, Null)),
        FormatDate(PickDate(b.dates)),
        "Active",
        TextOr(b.description, "")))
  }

  /** `brands.map(transformBrandData)`, which throws when one element throws. */
  function TransformBrands(items: seq<ApiBrand>): Option<seq<Brand>> {
    Collect(seq(|items|, i requires 0 <= i < |items| => TransformBrand(items[i])))
  }

  /** The `apiParams` of `fetchBrands`: paging and sorting defaults, and the
      search, hierarchy and children fields passed through. */
  function FetchBrandsParams(p: QueryParams): QueryParams {
    NoParams.(
      q := p.q,
      limit := DefaultLimit(p),
      offset := DefaultOffset(p),
      root := p.root,
      entityCodes := p.entityCodes,
      entityIds := p.entityIds,
      sortBy := DefaultSortBy(p),
      sortOrder := DefaultSortOrder(p),
      includeChildren := p.includeChildren,
      childrenLimit := p.childrenLimit,
      childrenOffset := p.childrenOffset,
      ouCode := p.ouCode,
      fetchType := p.fetchType)
  }

  /** What `fetchBrands` emits for the outcome of `getBrands`. A transform
      that throws lands in the saga's `catch`. */
  function FetchBrands(outcome: Outcome<ApiBrand>): seq<BrandsAction> {
    match outcome
    case Threw(message) => [FetchBrandsFailure(ThrownText(message))]
    case Returned(response) =>
      if HasData(response) then
        var rows := TransformBrands(ItemsOf(response.value.data));
        if rows.None? then [FetchBrandsFailure(Str(InitialsTypeError))]
        else
          [FetchBrandsSuccess(
            rows,
            Some(if response.value.pagination.Some? then response.value.pagination.value else EmptyPagination))]
      else [FetchBrandsFailure(ErrorText(response, "Failed to fetch brands"))]
  }

  /** The refetch the mutation sagas emit: a request without `params`. */
  const Refetch := FetchBrandsRequest(NoParams)

  function CreateBrand(outcome: Outcome<ApiBrand>): seq<BrandsAction> {
    match outcome
    case Threw(message) => [CreateBrandFailure(ThrownText(message))]
    case Returned(response) =>
      if HasData(response) then [Refetch, CreateBrandSuccess]
      else [CreateBrandFailure(ErrorText(response, "Failed to create brand"))]
  }

  function UpdateBrand(outcome: Outcome<ApiBrand>): seq<BrandsAction> {
    match outcome
    case Threw(message) => [UpdateBrandFailure(ThrownText(message))]
    case Returned(response) =>
      if HasData(response) then [Refetch, UpdateBrandSuccess]
      else [UpdateBrandFailure(ErrorText(response, "Failed to update brand"))]
  }

  function DeleteBrand(brandId: Value, outcome: Outcome<ApiBrand>): seq<BrandsAction> {
    match outcome
    case Threw(message) => [DeleteBrandFailure(ThrownText(message))]
    case Returned(response) =>
      if DeleteSucceeded(response) then [DeleteBrandSuccess(brandId), Refetch]
      else [DeleteBrandFailure(ErrorText(response, "Failed to delete brand"))]
  }

  // Properties

  /** A brand without a code gets "B" followed by its id padded to at least
      three characters; its id is the stringified id and its status "Active". */
  lemma TransformedCodeAndId(b: ApiBrand)
    requires TransformBrand(b).Some?
    ensures var r := TransformBrand(b).value;
      r.id == ToString(ValueOr(b.id, b.brandId)) && r.status == "Active" &&
      (Present(b.code) ==> r.code == b.code.value) &&
      (!Present(b.code) ==>
        |r.code| >= 4 && r.code[0] == 'B' && r.code[|r.code| - |r.id|..] == r.id &&
        (forall i :: 1 <= i < |r.code| - |r.id| ==> r.code[i] == '0'))
  {
    var r := TransformBrand(b).value;
    if !Present(b.code) {
      var padded := PadStart(r.id, 3, '0');
      assert r.code == "B" + padded;
      assert r.code[1..] == padded;
    }
  }

  /** Brand 1 gets the code "B001". */
  lemma CodeOfOne()
    ensures CodeFallback(Num(1)) == "B001"
  {
    assert ToString(Num(1)) == "1";
    assert PadStart("1", 3, '0') == "001";
  }

  /** The parent id is the stringified nested id when that is truthy,
      otherwise the first truthy flat field, otherwise `null`. */
  lemma ParentBrandIdPreference(b: ApiBrand)
    requires TransformBrand(b).Some?
    ensures var r := TransformBrand(b).value;
      (b.parent.Some? && Truthy(b.parent.value.id) ==> r.parentBrandId == Str(ToString(b.parent.value.id))) &&
      (!(b.parent.Some? && Truthy(b.parent.value.id)) && Truthy(b.parentBrandId) ==> r.parentBrandId == b.parentBrandId) &&
      (!(b.parent.Some? && Truthy(b.parent.value.id)) && !Truthy(b.parentBrandId) && Truthy(b.parentId) ==>
        r.parentBrandId == b.parentId) &&
      (!(b.parent.Some? && Truthy(b.parent.value.id)) && !Truthy(b.parentBrandId) && !Truthy(b.parentId) ==>
        r.parentBrandId == Null)
  {
  }

  /** The initials are those of the brand's displayed name, the status is
      always "Active"; the transform throws only when `getInitials` throws on
      that name. */
  lemma TransformThrowsOnlyInInitials(b: ApiBrand)
    ensures TransformBrand(b).None? <==> GetInitials(Some(TextOr(OrText(b.name, b.brandName), ""))).None?
    ensures TransformBrand(b).Some? ==>
      Some(TransformBrand(b).value.initials) == GetInitials(Some(TransformBrand(b).value.name)) &&
      TransformBrand(b).value.status == "Active"
  {
  }

  /** The outgoing parameters fill the paging and sorting defaults, pass the
      search, hierarchy and children fields through, and drop the product
      filters. */
  lemma FetchBrandsParamsDefaults(p: QueryParams)
    ensures var a := FetchBrandsParams(p);
      a.limit == DefaultLimit(p) && a.offset == DefaultOffset(p) &&
      a.sortBy == DefaultSortBy(p) && a.sortOrder == DefaultSortOrder(p) &&
      Truthy(a.limit) && Truthy(a.sortBy) && Truthy(a.sortOrder) &&
      a.q == p.q && a.root == p.root && a.entityCodes == p.entityCodes && a.entityIds == p.entityIds &&
      a.includeChildren == p.includeChildren && a.childrenLimit == p.childrenLimit &&
      a.childrenOffset == p.childrenOffset && a.ouCode == p.ouCode && a.fetchType == p.fetchType &&
      a.brandId == Undefined && a.categoryId == Undefined && a.status == Undefined
  {
  }

  /** `fetchBrands` emits exactly one action: a success with one row per array
      element exactly when truthy data came back and no name made
      `getInitials` throw; otherwise a failure with a non-empty message. */
  lemma FetchBrandsClassifies(outcome: Outcome<ApiBrand>)
    ensures |FetchBrands(outcome)| == 1
    ensures FetchBrands(outcome)[0].FetchBrandsSuccess? <==>
      outcome.Returned? && HasData(outcome.response) &&
      TransformBrands(ItemsOf(outcome.response.value.data)).Some?
    ensures FetchBrands(outcome)[0].FetchBrandsSuccess? ==>
      FetchBrands(outcome)[0].data.Some? &&
      |FetchBrands(outcome)[0].data.value| == |ItemsOf(outcome.response.value.data)|
    ensures FetchBrands(outcome)[0].FetchBrandsFailure? ==> Truthy(FetchBrands(outcome)[0].error)
  {
  }

  /** Each mutation emits the refetch exactly when it emits its success:
      create and update put it first, delete puts it last. */
  lemma RefetchOrder(brandId: Value, outcome: Outcome<ApiBrand>)
    ensures Refetch in CreateBrand(outcome) <==> CreateBrandSuccess in CreateBrand(outcome)
    ensures Refetch in UpdateBrand(outcome) <==> UpdateBrandSuccess in UpdateBrand(outcome)
    ensures Refetch in DeleteBrand(brandId, outcome) <==> DeleteBrandSuccess(brandId) in DeleteBrand(brandId, outcome)
    ensures CreateBrandSuccess in CreateBrand(outcome) ==> CreateBrand(outcome) == [Refetch, CreateBrandSuccess]
    ensures UpdateBrandSuccess in UpdateBrand(outcome) ==> UpdateBrand(outcome) == [Refetch, UpdateBrandSuccess]
    ensures DeleteBrandSuccess(brandId) in DeleteBrand(brandId, outcome) ==>
      DeleteBrand(brandId, outcome) == [DeleteBrandSuccess(brandId), Refetch]
    ensures DeleteBrand(brandId, outcome)[0] == DeleteBrandSuccess(brandId) <==>
      outcome.Returned? && DeleteSucceeded(outcome.response)
  {
  }
}
