/** The front-end shapes of the Categories page: a category row and the
    actions its saga, reducer and page exchange. */
module CategoriesActions {
  import opened Js
  import opened Entities

  /** A category as the page shows it. `description` is absent from the
      built-in mock rows; `parentCategoryId` is a stringified id or the raw
      fallback field. */
  datatype Category = Category(
    id: string,
    name: string,
    initials: string,
    parentCategory: Option<string>,
    parentCategoryId: Value,
    lastUpdated: DateDisplay,
    status: string,
    description: Option<string>)

  /** The Categories actions. `fetchCategories()` takes no argument, so a fetch
      request carries no parameters. The create, update and delete variants
      are the ones the saga emits; their action types are not defined by the
      page's constants, and the reducer ignores them. */
  datatype CategoriesAction =
    | FetchCategoriesRequest
    | FetchCategoriesSuccess(data: Option<seq<Category>>, pagination: Option<Pagination>)
    | FetchCategoriesFailure(error: Value)
    | SetSearchFilter(searchText: string)
    | ClearData
    | CreateCategorySuccess
    | UpdateCategorySuccess
    | DeleteCategorySuccess(categoryId: Value)
    | CreateCategoryFailure(error: Value)
    | UpdateCategoryFailure(error: Value)
    | DeleteCategoryFailure(error: Value)
    | Unknown
}
