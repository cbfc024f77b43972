/** The front-end shapes of the Brands page: a brand row and the actions its
    saga, reducer and page exchange. */
module BrandsActions {
  import opened Js
  import opened Entities

  /** A brand as the page shows it, after `transformBrandData`.
      `parentBrandId` is a stringified id or the raw fallback field. */
  datatype Brand = Brand(
    id: string,
    code: string,
    name: string,
    initials: string,
    parentBrand: Option<string>,
    parentBrandId: Value,
    lastUpdated: DateDisplay,
    status: string,
    description: string)

  /** The Brands actions; `Unknown` stands for any action of another page. */
  datatype BrandsAction =
    | FetchBrandsRequest(params: QueryParams)
    | FetchBrandsSuccess(data: Option<seq<Brand>>, pagination: Option<Pagination>)
    | FetchBrandsFailure(error: Value)
    | SetSearchFilter(searchText: Value)
    | ClearData
    | CreateBrandRequest
    | UpdateBrandRequest(brandId: Value)
    | DeleteBrandRequest(brandId: Value)
    | CreateBrandSuccess
    | UpdateBrandSuccess
    | DeleteBrandSuccess(brandId: Value)
    | CreateBrandFailure(error: Value)
    | UpdateBrandFailure(error: Value)
    | DeleteBrandFailure(error: Value)
    | Unknown
}
