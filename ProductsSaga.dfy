/** The Products saga: how an API product becomes a product row, how the
    outgoing list parameters are defaulted, and which actions each saga emits
    for the response it gets. The API calls themselves are parameters: each
    saga is a function of the call's outcome. */
module ProductsSaga {
  import opened Js
  import opened Entities
  import opened ProductsActions

  /** A product record as the API returns it, with every field the transform
      reads. An absent field is `None`, `Undefined` or `NotList(Undefined)`. */
  datatype ApiProduct = ApiProduct(
    id: Value,
    productId: Value,
    name: Option<string>,
    productName: Option<string>,
    sku: Option<string>,
    code: Option<string>,
    image: Option<string>,
    imageUrl: Option<string>,
    thumbnail: Option<string>,
    brand: Option<Nested>,
    brandName: Option<string>,
    brandId: Value,
    category: Option<Nested>,
    categoryName: Option<string>,
    categoryId: Value,
    attributes: JsonList,
    attributeList: JsonList,
    attributesCount: Value,
    attributeCount: Value,
    dates: DateFields,
    status: Value,
    productStatus: Value,
    isReturnable: Value,
    description: Option<string>)

  const Returnable := "Returnable"
  const Standard := "Standard"

  /** `determineStatus`: booleans map directly, the strings "returnable" and
      "return" in any case are returnable, and everything else is standard. */
  function DetermineStatus(v: Value): (r: string)
    ensures r == Returnable || r == Standard
  {
    match v
    case Bool(b) => if b then Returnable else Standard
    case Str(s) => if Lower(s) == "returnable" || Lower(s) == "return" then Returnable else Standard
    case _ => Standard
  }

  /** `nested?.name`. */
  function NestedName(n: Option<Nested>): Option<string> {
    if n.Some? then n.value.name else None
  }

  /** `nested?.id ? String(nested.id) : (flat ? String(flat) : null)`. */
  function LinkedId(n: Option<Nested>, flat: Value): Option<string> {
    if n.Some? && Truthy(n.value.id) then Some(ToString(n.value.id))
    else if Truthy(flat) then Some(ToString(flat))
    else None
  }

  /** The generated SKU: "SKU-" and the id left-padded with '0' to four characters. */
  function SkuFallback(id: Value): string {
    "SKU-" + PadStart(ToString(id), 4, '0')
  }

  /** `transformProductData`. */
  function TransformProduct(p: ApiProduct): Product {
    var id := ValueOr(p.id, p.productId);
    var attributes :=
      if ListTruthy(p.attributes) then p.attributes
      else if ListTruthy(p.attributeList) then p.attributeList
      else List([]);
    Product(
      ToString(id),
      TextOr(OrText(p.name, p.productName), ""),
      if Present(p.sku) then p.sku.value else if Present(p.code) then p.code.value else SkuFallback(id),
      FirstText([p.image, p.imageUrl, p.thumbnail]),
      FirstText([NestedName(p.brand), p.brandName]),
      LinkedId(p.brand, p.brandId),
      FirstText([NestedName(p.category), p.categoryName]),
      LinkedId(p.category, p.categoryId),
      attributes,
      if p.attributes.List? then Num(|p.attributes.items|)
      else ValueOr(p.attributesCount, ValueOr(p.attributeCount, Num(0))),
      FormatDate(PickDate(p.dates)),
      DetermineStatus(ValueOr(p.status, ValueOr(p.productStatus, p.isReturnable))),
      TextOr(p.description, ""))
  }

  function TransformProducts(items: seq<ApiProduct>): (r: seq<Product>)
    ensures |r| == |items|
    ensures forall i :: 0 <= i < |items| ==> r[i] == TransformProduct(items[i])
  {
    seq(|items|, i requires 0 <= i < |items| => TransformProduct(items[i]))
  }

  /** `transformBrandForFilter` and `transformCategoryForFilter`. */
  function FilterOptionOf(n: ApiNamed): FilterOption {
    FilterOption(ToString(n.id), TextOr(OrText(n.name, n.altName), ""))
  }

  function FilterOptions(items: seq<ApiNamed>): (r: seq<FilterOption>)
    ensures |r| == |items|
    ensures forall i :: 0 <= i < |items| ==> r[i] == FilterOptionOf(items[i])
  {
    seq(|items|, i requires 0 <= i < |items| => FilterOptionOf(items[i]))
  }

  /** The `apiParams` of `fetchProducts`: paging and sorting defaults, the
      search text and the three filters passed through, nothing else. */
  function FetchProductsParams(p: QueryParams): QueryParams {
    NoParams.(
      q := p.q,
      limit := DefaultLimit(p),
      offset := DefaultOffset(p),
      brandId := p.brandId,
      categoryId := p.categoryId,
      status := p.status,
      sortBy := DefaultSortBy(p),
      sortOrder := DefaultSortOrder(p))
  }

  /** `response.pagination || {}`. */
  function PaginationOr(p: Option<Pagination>): Pagination {
    if p.Some? then p.value else EmptyPagination
  }

  /** What `fetchProducts` emits for the outcome of `getProducts`. */
  function FetchProducts(outcome: Outcome<ApiProduct>): seq<ProductsAction> {
    match outcome
    case Threw(message) => [FetchProductsFailure(ThrownText(message))]
    case Returned(response) =>
      if HasData(response) then
        [FetchProductsSuccess(
          Some(TransformProducts(ItemsOf(response.value.data))),
          Some(PaginationOr(response.value.pagination)))]
      else [FetchProductsFailure(ErrorText(response, "Failed to fetch products"))]
  }

  /** The parameters both filter-dropdown sagas request. */
  const FilterListParams := NoParams.(limit := Num(100), offset := Num(0))

  /** What `fetchBrandsForFilter` emits: the options on a response with data,
      and nothing at all otherwise, not even on a thrown error. */
  function FetchBrandsForFilter(outcome: Outcome<ApiNamed>): seq<ProductsAction> {
    if outcome.Returned? && HasData(outcome.response) then
      [FetchBrandsForFilterSuccess(Some(FilterOptions(ItemsOf(outcome.response.value.data))))]
    else []
  }

  /** What `fetchCategoriesForFilter` emits; the same rule as for brands. */
  function FetchCategoriesForFilter(outcome: Outcome<ApiNamed>): seq<ProductsAction> {
    if outcome.Returned? && HasData(outcome.response) then
      [FetchCategoriesForFilterSuccess(Some(FilterOptions(ItemsOf(outcome.response.value.data))))]
    else []
  }

  /** The refetch the mutation sagas emit: a request without `params`, which
      `fetchProducts` reads as `{}`. */
  const Refetch := FetchProductsRequest(NoParams)

  /** What `createProduct` emits. */
  function CreateProduct(outcome: Outcome<ApiProduct>): seq<ProductsAction> {
    match outcome
    case Threw(message) => [CreateProductFailure(ThrownText(message))]
    case Returned(response) =>
      if HasData(response) then [Refetch, CreateProductSuccess]
      else [CreateProductFailure(ErrorText(response, "Failed to create product"))]
  }

  /** What `updateProduct` emits. */
  function UpdateProduct(outcome: Outcome<ApiProduct>): seq<ProductsAction> {
    match outcome
    case Threw(message) => [UpdateProductFailure(ThrownText(message))]
    case Returned(response) =>
      if HasData(response) then [Refetch, UpdateProductSuccess]
      else [UpdateProductFailure(ErrorText(response, "Failed to update product"))]
  }

  /** What `deleteProduct` emits for the product id it was asked to delete. */
  function DeleteProduct(productId: Value, outcome: Outcome<ApiProduct>): seq<ProductsAction> {
    match outcome
    case Threw(message) => [DeleteProductFailure(ThrownText(message))]
    case Returned(response) =>
      if DeleteSucceeded(response) then [DeleteProductSuccess(productId), Refetch]
      else [DeleteProductFailure(ErrorText(response, "Failed to delete product"))]
  }

  // Properties

  /** A string status is returnable exactly when it is "returnable" or
      "return" in some letter case; the decision ignores case. */
  lemma DetermineStatusIgnoresCase(s: string)
    ensures DetermineStatus(Str(s)) == Returnable <==> Lower(s) == "returnable" || Lower(s) == "return"
    ensures DetermineStatus(Str(s)) == DetermineStatus(Str(Lower(s)))
  {
    LowerIdempotent(s);
  }

  /** Only `true` and the two returnable words give "Returnable". */
  lemma DetermineStatusReturnableIff(v: Value)
    ensures DetermineStatus(v) == Returnable <==>
      v == Bool(true) || (v.Str? && (Lower(v.s) == "returnable" || Lower(v.s) == "return"))
  {
  }

  /** The row id is the stringified id (or `productId`); a product without a
      SKU or code gets "SKU-" followed by the id padded to at least four
      characters, so the generated SKU ends with the row id. */
  lemma TransformedIdAndSku(p: ApiProduct)
    ensures TransformProduct(p).id == ToString(ValueOr(p.id, p.productId))
    ensures Present(p.sku) ==> TransformProduct(p).sku == p.sku.value
    ensures !Present(p.sku) && Present(p.code) ==> TransformProduct(p).sku == p.code.value
    ensures !Present(p.sku) && !Present(p.code) ==>
      var r := TransformProduct(p);
      |r.sku| >= 8 && r.sku[..4] == "SKU-" && r.sku[|r.sku| - |r.id|..] == r.id &&
      (forall i :: 4 <= i < |r.sku| - |r.id| ==> r.sku[i] == '0')
  {
    if !Present(p.sku) && !Present(p.code) {
      var r := TransformProduct(p);
      var padded := PadStart(r.id, 4, '0');
      assert r.sku == "SKU-" + padded;
      assert r.sku[4..] == padded;
    }
  }

  /** The SKU of product 7 is "SKU-0007". */
  lemma SkuOfSeven()
    ensures SkuFallback(Num(7)) == "SKU-0007"
  {
    assert ToString(Num(7)) == "7";
    assert PadStart("7", 4, '0') == "0007";
  }

  /** A brand or category id prefers the nested object's id, then the flat id,
      each stringified; it is `null` only when both are falsy. */
  lemma LinkedIdPreference(n: Option<Nested>, flat: Value)
    ensures LinkedId(n, flat).None? <==> !(n.Some? && Truthy(n.value.id)) && !Truthy(flat)
    ensures n.Some? && Truthy(n.value.id) ==> LinkedId(n, flat) == Some(ToString(n.value.id))
    ensures !(n.Some? && Truthy(n.value.id)) && Truthy(flat) ==> LinkedId(n, flat) == Some(ToString(flat))
  {
  }

  /** When `attributes` is an array, the row keeps it and counts its
      elements; otherwise the count is the first truthy count field, or 0.
      The row's `attributes` is always truthy. */
  lemma AttributesCountAgrees(p: ApiProduct)
    ensures p.attributes.List? ==>
      TransformProduct(p).attributes == p.attributes &&
      TransformProduct(p).attributesCount == Num(|TransformProduct(p).attributes.items|)
    ensures !p.attributes.List? ==>
      TransformProduct(p).attributesCount == ValueOr(p.attributesCount, ValueOr(p.attributeCount, Num(0)))
    ensures ListTruthy(TransformProduct(p).attributes)
  {
  }

  /** The last-updated text is 'N/A' exactly when every date field is falsy. */
  lemma LastUpdatedNotAvailable(p: ApiProduct)
    ensures TransformProduct(p).lastUpdated.NotAvailable? <==>
      (p.dates.attribution.None? ||
        (!Present(p.dates.attribution.value.modifiedDate) && !Present(p.dates.attribution.value.updatedDate))) &&
      !Present(p.dates.updatedAt) && !Present(p.dates.lastUpdated) && !Present(p.dates.modifiedAt)
  {
    var d := p.dates;
    var front := if d.attribution.Some? then [d.attribution.value.modifiedDate, d.attribution.value.updatedDate] else [];
    var xs := front + [d.updatedAt, d.lastUpdated, d.modifiedAt];
    FirstTextIsFirst(xs);
    assert xs[|xs| - 3] == d.updatedAt && xs[|xs| - 2] == d.lastUpdated && xs[|xs| - 1] == d.modifiedAt;
  }

  /** The outgoing parameters fill the paging and sorting defaults, pass `q`,
      `brandId`, `categoryId` and `status` through, and drop every other field. */
  lemma FetchProductsParamsDefaults(p: QueryParams)
    ensures var a := FetchProductsParams(p);
      a.limit == (if Truthy(p.limit) then p.limit else Num(10)) &&
      a.offset == (if Truthy(p.offset) then p.offset else Num(0)) &&
      a.sortBy == (if Truthy(p.sortBy) then p.sortBy else Str("id")) &&
      a.sortOrder == (if Truthy(p.sortOrder) then p.sortOrder else Str("ASC")) &&
      a.q == p.q && a.brandId == p.brandId && a.categoryId == p.categoryId && a.status == p.status &&
      a.root == Undefined && a.entityCodes == Undefined && a.entityIds == Undefined &&
      a.includeChildren == Undefined && a.ouCode == Undefined && a.fetchType == Undefined
  {
  }

  /** `fetchProducts` emits exactly one action: success exactly when a
      response with truthy data came back, carrying one row per array element
      (none when `data` is not an array); otherwise a failure whose message is
      never empty. */
  lemma FetchProductsClassifies(outcome: Outcome<ApiProduct>)
    ensures |FetchProducts(outcome)| == 1
    ensures FetchProducts(outcome)[0].FetchProductsSuccess? <==> outcome.Returned? && HasData(outcome.response)
    ensures FetchProducts(outcome)[0].FetchProductsFailure? <==> !(outcome.Returned? && HasData(outcome.response))
    ensures FetchProducts(outcome)[0].FetchProductsFailure? ==> Truthy(FetchProducts(outcome)[0].error)
    ensures FetchProducts(outcome)[0].FetchProductsSuccess? ==>
      var a := FetchProducts(outcome)[0];
      a.data.Some? && |a.data.value| == |ItemsOf(outcome.response.value.data)| && a.pagination.Some?
  {
  }

  /** A failure response reports its own `message` when it has one. */
  lemma FetchFailureReportsMessage(response: Response<ApiProduct>)
    requires !PayloadTruthy(response.data) && Truthy(response.message)
    ensures FetchProducts(Returned(Some(response))) == [FetchProductsFailure(response.message)]
  {
  }

  /** The filter-dropdown sagas either emit one success with an option per
      array element or stay silent. */
  lemma FilterSagasSilentOnFailure(outcome: Outcome<ApiNamed>)
    ensures |FetchBrandsForFilter(outcome)| <= 1 && |FetchCategoriesForFilter(outcome)| <= 1
    ensures FetchBrandsForFilter(outcome) == [] <==> !(outcome.Returned? && HasData(outcome.response))
    ensures FetchCategoriesForFilter(outcome) == [] <==> !(outcome.Returned? && HasData(outcome.response))
    ensures FetchBrandsForFilter(outcome) != [] ==>
      FetchBrandsForFilter(outcome)[0].options.Some? &&
      |FetchBrandsForFilter(outcome)[0].options.value| == |ItemsOf(outcome.response.value.data)|
  {
  }

  /** Each mutation saga emits the refetch exactly when it emits its success:
      create and update put the refetch first, delete puts it last. A failed
      mutation emits only its failure. */
  lemma RefetchOrder(productId: Value, outcome: Outcome<ApiProduct>)
    ensures Refetch in CreateProduct(outcome) <==> CreateProductSuccess in CreateProduct(outcome)
    ensures Refetch in UpdateProduct(outcome) <==> UpdateProductSuccess in UpdateProduct(outcome)
    ensures Refetch in DeleteProduct(productId, outcome) <==> DeleteProductSuccess(productId) in DeleteProduct(productId, outcome)
    ensures CreateProductSuccess in CreateProduct(outcome) ==> CreateProduct(outcome) == [Refetch, CreateProductSuccess]
    ensures UpdateProductSuccess in UpdateProduct(outcome) ==> UpdateProduct(outcome) == [Refetch, UpdateProductSuccess]
    ensures DeleteProductSuccess(productId) in DeleteProduct(productId, outcome) ==>
      DeleteProduct(productId, outcome) == [DeleteProductSuccess(productId), Refetch]
    ensures |CreateProduct(outcome)| == 1 ==> CreateProduct(outcome)[0].CreateProductFailure?
    ensures |DeleteProduct(productId, outcome)| == 1 ==> DeleteProduct(productId, outcome)[0].DeleteProductFailure?
  {
  }

  /** Delete succeeds on a missing response, on any message and on status 200,
      and fails on every other response and on a thrown error. */
  lemma DeleteSuccessRule(productId: Value, outcome: Outcome<ApiProduct>)
    ensures DeleteProduct(productId, outcome)[0] == DeleteProductSuccess(productId) <==>
      outcome.Returned? &&
      (outcome.response.None? || Truthy(outcome.response.value.message) || outcome.response.value.status == Num(200))
  {
  }
}
