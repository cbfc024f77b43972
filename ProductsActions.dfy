/** The front-end shapes of the Products page: a product row, a filter
    dropdown option, and the actions its saga and reducer exchange. */
module ProductsActions {
  import opened Js
  import opened Entities

  /** A product as the page shows it, after `transformProductData`. */
  datatype Product = Product(
    id: string,
    name: string,
    sku: string,
    image: Option<string>,
    brand: Option<string>,
    brandId: Option<string>,
    category: Option<string>,
    categoryId: Option<string>,
    attributes: JsonList,
    attributesCount: Value,
    lastUpdated: DateDisplay,
    status: string,
    description: string)

  /** An entry of the brand or category filter dropdown; `caption` is its `label`. */
  datatype FilterOption = FilterOption(value: string, caption: string)

  /** A brand or category record as the list endpoints return it, reduced to
      the fields the filter dropdowns read. */
  datatype ApiNamed = ApiNamed(id: Value, name: Option<string>, altName: Option<string>)

  /** The Products actions. A field the action does not carry is `None` or
      `Undefined`; `Unknown` stands for any action of another page. */
  datatype ProductsAction =
    | FetchProductsRequest(params: QueryParams)
    | FetchProductsSuccess(data: Option<seq<Product>>, pagination: Option<Pagination>)
    | FetchProductsFailure(error: Value)
    | FetchBrandsForFilterRequest
    | FetchBrandsForFilterSuccess(options: Option<seq<FilterOption>>)
    | FetchCategoriesForFilterRequest
    | FetchCategoriesForFilterSuccess(options: Option<seq<FilterOption>>)
    | CreateProductRequest
    | UpdateProductRequest(productId: Value)
    | DeleteProductRequest(productId: Value)
    | CreateProductSuccess
    | UpdateProductSuccess
    | DeleteProductSuccess(productId: Value)
    | CreateProductFailure(error: Value)
    | UpdateProductFailure(error: Value)
    | DeleteProductFailure(error: Value)
    | SetSearchFilter(searchText: Value)
    | SetBrandFilter(brandId: Value)
    | SetCategoryFilter(categoryId: Value)
    | SetStatusFilter(status: Value)
    | ClearData
    | Unknown
}
