/** The values the admin screens exchange with the API: pagination, nested
    references, date fields, list-or-scalar fields, query parameters, and the
    outcome of one API call. */
module Entities {
  import opened Js

  /** `pagination` as stored; `{}` has every field undefined. */
  datatype Pagination = Pagination(limit: Value, offset: Value, total: Value)

  const EmptyPagination := Pagination(Undefined, Undefined, Undefined)

  /** A nested `{id, name}` object of an API record: `brand`, `category`, `parent`. */
  datatype Nested = Nested(id: Value, name: Option<string>)

  datatype AttributionDates = AttributionDates(modifiedDate: Option<string>, updatedDate: Option<string>)

  /** The date fields the transforms read, in their order of preference. */
  datatype DateFields = DateFields(
    attribution: Option<AttributionDates>,
    updatedAt: Option<string>,
    lastUpdated: Option<string>,
    modifiedAt: Option<string>)

  /** A last-updated cell. `formatDate` gives 'N/A' for a falsy date and
      otherwise the `en-US` locale rendering, kept here as the raw text it is
      computed from; `Formatted` is text already in display form. */
  datatype DateDisplay = NotAvailable | Localized(raw: string) | Formatted(text: string)

  /** `a || b || … || null` over optional text fields: the first non-empty one. */
  function FirstText(xs: seq<Option<string>>): (r: Option<string>)
    ensures r.Some? ==> Present(r)
  {
    if |xs| == 0 then None
    else if Present(xs[0]) then xs[0]
    else FirstText(xs[1..])
  }

  /** `FirstText` is `null` exactly when every field is falsy, and otherwise
      the field at the first truthy position. */
  lemma {:induction false} FirstTextIsFirst(xs: seq<Option<string>>)
    ensures FirstText(xs).None? <==> forall i :: 0 <= i < |xs| ==> !Present(xs[i])
    ensures FirstText(xs).Some? ==>
      exists i :: 0 <= i < |xs| && xs[i] == FirstText(xs) && (forall j :: 0 <= j < i ==> !Present(xs[j]))
  {
    if |xs| > 0 && !Present(xs[0]) {
      FirstTextIsFirst(xs[1..]);
      assert forall i :: 1 <= i < |xs| ==> xs[i] == xs[1..][i - 1];
      if FirstText(xs).Some? {
        var i :| 0 <= i < |xs[1..]| && xs[1..][i] == FirstText(xs) &&
          forall j :: 0 <= j < i ==> !Present(xs[1..][j]);
        assert xs[i + 1] == FirstText(xs);
      }
    }
  }

  /** The preferred date: `attribution?.modifiedDate || attribution?.updatedDate
      || updatedAt || lastUpdated || modifiedAt`. */
  function PickDate(d: DateFields): Option<string> {
    var fromAttribution :=
      if d.attribution.Some? then [d.attribution.value.modifiedDate, d.attribution.value.updatedDate] else [];
    FirstText(fromAttribution + [d.updatedAt, d.lastUpdated, d.modifiedAt])
  }

  function FormatDate(date: Option<string>): (r: DateDisplay)
    ensures r.NotAvailable? <==> !Present(date)
  {
    if Present(date) then Localized(date.value) else NotAvailable
  }

  /** An API field that may hold an array or a scalar. Arrays are truthy. */
  datatype JsonList = NotList(v: Value) | List(items: seq<Value>)

  predicate ListTruthy(l: JsonList) {
    l.List? || Truthy(l.v)
  }

  /** The `data` of a response: absent or falsy, an array of records, or a
      single object. */
  datatype Payload<T> = Scalar(v: Value) | Items(items: seq<T>) | Single

  predicate PayloadTruthy<T>(d: Payload<T>) {
    !d.Scalar? || Truthy(d.v)
  }

  /** A parsed response body: `{data, pagination, message, error}` plus the
      HTTP `status` when the client copies it in. */
  datatype Response<T> = Response(
    data: Payload<T>,
    pagination: Option<Pagination>,
    message: Value,
    error: Value,
    status: Value)

  /** What one API call gives the saga: a response (possibly `null`) or a
      thrown error with its `message`. */
  datatype Outcome<T> = Returned(response: Option<Response<T>>) | Threw(message: Value)

  /** `response?.message || response?.error || fallback`. */
  function ErrorText<T>(response: Option<Response<T>>, fallback: string): (v: Value)
    ensures fallback != "" ==> Truthy(v)
    ensures response.Some? && Truthy(response.value.message) ==> v == response.value.message
  {
    if response.None? then Str(fallback)
    else ValueOr(response.value.message, ValueOr(response.value.error, Str(fallback)))
  }

  const NetworkError := "Network error occurred"

  /** `error.message || 'Network error occurred'` for a thrown error. */
  function ThrownText(message: Value): (v: Value)
    ensures Truthy(v)
  {
    ValueOr(message, Str(NetworkError))
  }

  /** `response && response.data`: the response carries truthy data. */
  predicate HasData<T>(response: Option<Response<T>>) {
    response.Some? && PayloadTruthy(response.value.data)
  }

  /** `Array.isArray(response.data) ? response.data : []`. */
  function ItemsOf<T>(d: Payload<T>): seq<T> {
    if d.Items? then d.items else []
  }

  /** `!response || response.message || response.status === 200`: how every
      delete saga decides success. */
  predicate DeleteSucceeded<T>(response: Option<Response<T>>) {
    response.None? || Truthy(response.value.message) || response.value.status == Num(200)
  }

  /** The `params` object of a fetch request; `{}` has every field undefined. */
  datatype QueryParams = QueryParams(
    q: Value,
    limit: Value,
    offset: Value,
    sortBy: Value,
    sortOrder: Value,
    brandId: Value,
    categoryId: Value,
    status: Value,
    root: Value,
    entityCodes: Value,
    entityIds: Value,
    includeChildren: Value,
    childrenLimit: Value,
    childrenOffset: Value,
    ouCode: Value,
    fetchType: Value)

  const NoParams := QueryParams(
    Undefined, Undefined, Undefined, Undefined, Undefined, Undefined, Undefined, Undefined,
    Undefined, Undefined, Undefined, Undefined, Undefined, Undefined, Undefined, Undefined)

  /** The `{limit, offset, q?}` object the list pages build. */
  function PageParams(limit: int, offset: int, q: Option<string>): QueryParams {
    NoParams.(limit := Num(limit), offset := Num(offset), q := if q.Some? then Str(q.value) else Undefined)
  }

  /** The paging and sorting defaults every fetch saga applies:
      `limit || 10`, `offset || 0`, `sortBy || 'id'`, `sortOrder || 'ASC'`. */
  function DefaultLimit(p: QueryParams): Value { ValueOr(p.limit, Num(10)) }
  function DefaultOffset(p: QueryParams): Value { ValueOr(p.offset, Num(0)) }
  function DefaultSortBy(p: QueryParams): Value { ValueOr(p.sortBy, Str("id")) }
  function DefaultSortOrder(p: QueryParams): Value { ValueOr(p.sortOrder, Str("ASC")) }

  /** The defaults fill exactly the falsy fields and keep the truthy ones. */
  lemma DefaultsFillFalsy(p: QueryParams)
    ensures Truthy(DefaultLimit(p)) && Truthy(DefaultSortBy(p)) && Truthy(DefaultSortOrder(p))
    ensures DefaultLimit(p) == (if Truthy(p.limit) then p.limit else Num(10))
    ensures DefaultOffset(p) == (if Truthy(p.offset) then p.offset else Num(0))
    ensures DefaultSortBy(p) == (if Truthy(p.sortBy) then p.sortBy else Str("id"))
    ensures DefaultSortOrder(p) == (if Truthy(p.sortOrder) then p.sortOrder else Str("ASC"))
  {
  }

  /** `items.map(f)` for an `f` that may throw: the mapped list, or `None` as
      soon as one element throws. */
  function Collect<T>(xs: seq<Option<T>>): (r: Option<seq<T>>)
    ensures r.None? <==> exists i :: 0 <= i < |xs| && xs[i].None?
    ensures r.Some? ==> |r.value| == |xs| && forall i :: 0 <= i < |xs| ==> xs[i] == Some(r.value[i])
    decreases |xs|
  {
    if |xs| == 0 then Some([])
    else if xs[0].None? then None
    else
      var rest := Collect(xs[1..]);
      assert forall i :: 1 <= i < |xs| ==> xs[i] == xs[1..][i - 1];
      if rest.None? then None else Some([xs[0].value] + rest.value)
  }
}
