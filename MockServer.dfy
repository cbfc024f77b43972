/** The mock REST server's category store: the list query pipeline of
    `GET /api/v1/categories`, the lookup of one category with its children,
    and the create, update and delete routes that change the shared list. */
module MockServer {
  import opened Js
  import opened Sequences
  import opened Sorting

  /** The `{id, code, name}` copy of a parent taken when a category is written. */
  datatype ParentRef = ParentRef(id: int, code: Option<string>, name: Option<string>)

  datatype Attribution = Attribution(createdBy: int, createdDate: string, modifiedDate: string)

  /** One stored category. `parent == None` is a JSON `null` parent. */
  datatype Record = Record(
    id: int,
    orgId: int,
    ouId: int,
    code: Option<string>,
    name: Option<string>,
    description: Option<string>,
    parent: Option<ParentRef>,
    attribution: Attribution)

  /** The query string of the list route; an absent parameter is `None`. */
  datatype ListParams = ListParams(
    q: Option<string>,
    root: Option<string>,
    entityCodes: Option<string>,
    entityIds: Option<string>,
    sortBy: Option<string>,
    sortOrder: Option<string>,
    limit: Option<string>,
    offset: Option<string>)

  /** `{data, pagination: {limit, offset, total}}`. */
  datatype Page = Page(data: seq<Record>, limit: int, offset: int, total: nat)

  /** `{id, code, name}` of a child in the `includeChildren` projection. */
  datatype ChildRef = ChildRef(id: int, code: Option<string>, name: Option<string>)

  /** The body of a single-category reply: the record and, when asked for,
      its children. */
  datatype Detail = Detail(record: Record, children: Option<seq<ChildRef>>)

  /** An HTTP reply: a success status with its data, or an error status with
      the message and the optional `error.code`. */
  datatype Reply<T> =
    | Ok(status: nat, data: T)
    | Failed(status: nat, message: string, errorCode: Option<string>)

  const NotFoundMessage := "Category not found"
  const HasChildrenMessage := "Cannot delete category with subcategories"
  const HasChildrenCode := "CATEGORY_HAS_CHILDREN"
  const DeletedMessage := "Category deleted successfully"
  /** What the server answers when the handler throws. */
  const CrashMessage := "Internal Server Error"

  const SeedId := 10173900
  const DefaultOrgId := 50583
  const DefaultOuId := -1
  const DefaultCreatedBy := 15000449

  /* ---------------- the list query ---------------- */

  /** The `q` test: the lower-cased search text occurs in the lower-cased code
      or name, where a missing or empty field never matches. */
  predicate SearchHit(search: string, r: Record) {
    (Present(r.code) && Contains(Lower(r.code.value), search)) ||
    (Present(r.name) && Contains(Lower(r.name.value), search))
  }

  /** `entityCodes` split on ',' with each entry trimmed and lower-cased. */
  function CodeList(entityCodes: string): (codes: seq<string>)
    ensures |codes| == |Split(entityCodes, ',')|
    ensures forall i :: 0 <= i < |codes| ==> codes[i] == Lower(Trim(Split(entityCodes, ',')[i]))
  {
    var parts := Split(entityCodes, ',');
    seq(|parts|, i requires 0 <= i < |parts| => Lower(Trim(parts[i])))
  }

  predicate CodeListed(codes: seq<string>, r: Record) {
    Present(r.code) && Lower(r.code.value) in codes
  }

  /** `entityIds` split on ',' with each entry trimmed and read by `parseInt`;
      an entry that is NaN stays text and so never equals a numeric id. */
  function IdList(entityIds: string): (ids: seq<Option<int>>)
    ensures |ids| == |Split(entityIds, ',')|
    ensures forall i :: 0 <= i < |ids| ==> ids[i] == ParseInt(Trim(Split(entityIds, ',')[i]))
  {
    var parts := Split(entityIds, ',');
    seq(|parts|, i requires 0 <= i < |parts| => ParseInt(Trim(parts[i])))
  }

  predicate IdListed(ids: seq<Option<int>>, r: Record) {
    Some(r.id) in ids
  }

  /** Each filter of the pipeline, true when the filter is not active. */
  predicate SearchOk(p: ListParams, r: Record) {
    Present(p.q) ==> SearchHit(Lower(p.q.value), r)
  }

  predicate RootOk(p: ListParams, r: Record) {
    p.root == Some("true") ==> r.parent.None?
  }

  predicate CodesOk(p: ListParams, r: Record) {
    Present(p.entityCodes) ==> CodeListed(CodeList(p.entityCodes.value), r)
  }

  predicate IdsOk(p: ListParams, r: Record) {
    Present(p.entityIds) ==> IdListed(IdList(p.entityIds.value), r)
  }

  /** A record is in the result set when it passes every active filter. */
  predicate Matches(p: ListParams, r: Record) {
    SearchOk(p, r) && RootOk(p, r) && CodesOk(p, r) && IdsOk(p, r)
  }

  /** The filtered list: the store's records that match, in store order. */
  function Filtered(records: seq<Record>, p: ListParams): seq<Record> {
    Filter(records, r => Matches(p, r))
  }

  /** `a.id - b.id`, negated for descending order. */
  function IdOrder(desc: bool): (Record, Record) -> int {
    (a: Record, b: Record) => if desc then -(a.id - b.id) else a.id - b.id
  }

  /** The code comparison of lower-cased `code || ''`, negated for descending order. */
  function CodeOrder(desc: bool): (Record, Record) -> int {
    (a: Record, b: Record) =>
      var c := CompareText(Lower(TextOr(a.code, "")), Lower(TextOr(b.code, "")));
      if desc then -c else c
  }

  function SortKey(p: ListParams): string {
    TextOr(p.sortBy, "id")
  }

  predicate Descending(p: ListParams) {
    TextOr(p.sortOrder, "ASC") == "DESC"
  }

  /** The sort step: by id, by code, or (any other key) no sort at all. */
  function Sorted(p: ListParams, s: seq<Record>): seq<Record> {
    if SortKey(p) == "id" then StableSort(s, IdOrder(Descending(p)))
    else if SortKey(p) == "code" then StableSort(s, CodeOrder(Descending(p)))
    else s
  }

  function Limit(p: ListParams): int {
    ParseIntOr(p.limit, 10)
  }

  function Offset(p: ListParams): int {
    ParseIntOr(p.offset, 0)
  }

  /** The whole list route as a function of the store and the query string. */
  function ListQuery(records: seq<Record>, p: ListParams): Page {
    var filtered := Filtered(records, p);
    var sorted := Sorted(p, filtered);
    Page(JsSlice(sorted, Offset(p), Offset(p) + Limit(p)), Limit(p), Offset(p), |filtered|)
  }

  /* ---------------- one category ---------------- */

  /** `parseInt(id) || id`: a path id that reads as a non-zero number is that
      number; otherwise it stays text and matches no numeric id. */
  function PathId(text: string): Option<int> {
    match ParseInt(text)
    case Some(n) => if n != 0 then Some(n) else None
    case None => None
  }

  /** The index of the first record with this id, as `find` returns it. */
  function FindIndex(records: seq<Record>, id: int): (k: Option<nat>)
    ensures k.Some? ==> k.value < |records| && records[k.value].id == id
    ensures k.Some? ==> forall j :: 0 <= j < k.value ==> records[j].id != id
    ensures k.None? ==> forall j :: 0 <= j < |records| ==> records[j].id != id
  {
    if |records| == 0 then None
    else if records[0].id == id then Some(0)
    else match FindIndex(records[1..], id)
      case None => None
      case Some(k) => Some(k + 1)
  }

  /** The record a path id refers to, if any. */
  function Lookup(records: seq<Record>, idText: string): Option<nat> {
    match PathId(idText)
    case None => None
    case Some(id) => FindIndex(records, id)
  }

  predicate IsChildOf(id: int, r: Record) {
    r.parent.Some? && r.parent.value.id == id
  }

  function Project(r: Record): ChildRef {
    ChildRef(r.id, r.code, r.name)
  }

  /** The query string of the single-category route. */
  datatype DetailParams = DetailParams(
    includeChildren: Option<string>,
    childrenLimit: Option<string>,
    childrenOffset: Option<string>)

  /** The children page: records whose parent snapshot names `id`, in store
      order, cut to `[childrenOffset, childrenOffset + childrenLimit)`. */
  function ChildrenPage(records: seq<Record>, id: int, q: DetailParams): seq<ChildRef> {
    var children := Filter(records, r => IsChildOf(id, r));
    var limit := ParseIntOr(q.childrenLimit, 10);
    var offset := ParseIntOr(q.childrenOffset, 0);
    var page := JsSlice(children, offset, offset + limit);
    seq(|page|, i requires 0 <= i < |page| => Project(page[i]))
  }

  /** `GET /api/v1/categories/:id`. */
  function GetCategory(records: seq<Record>, idText: string, q: DetailParams): Reply<Detail> {
    match Lookup(records, idText)
    case None => Failed(404, NotFoundMessage, None)
    case Some(k) =>
      var children :=
        if q.includeChildren == Some("true") then Some(ChildrenPage(records, records[k].id, q)) else None;
      Ok(200, Detail(records[k], children))
  }

  /* ---------------- create ---------------- */

  /** The request body of a create; the parent id may be any JSON scalar. */
  datatype CreateBody = CreateBody(
    code: Option<string>,
    name: Option<string>,
    description: Option<string>,
    parentId: Value)

  /** The largest id in a non-empty store. */
  function MaxId(records: seq<Record>): (m: int)
    requires |records| > 0
    ensures forall i :: 0 <= i < |records| ==> records[i].id <= m
    ensures exists i :: 0 <= i < |records| && records[i].id == m
  {
    if |records| == 1 then records[0].id
    else
      var m := MaxId(records[1..]);
      assert records[1..][0] == records[1];
      if records[0].id >= m then records[0].id else m
  }

  /** One more than the largest id, or than the seed on an empty store. */
  function NextId(records: seq<Record>): int {
    (if |records| > 0 then MaxId(records) else SeedId) + 1
  }

  function Snapshot(r: Record): ParentRef {
    ParentRef(r.id, r.code, r.name)
  }

  /** The parent snapshot for a `parentId` found by strict equality, if any. */
  function ParentFor(records: seq<Record>, parentId: Value): Option<ParentRef> {
    match parentId
    case Num(n) =>
      (match FindIndex(records, n)
       case Some(k) => Some(Snapshot(records[k]))
       case None => None)
    case _ => None
  }

  /** The record a create stores, or `None` when building it throws: the code
      is falsy and there is no name to derive it from. */
  function NewRecord(records: seq<Record>, body: CreateBody, now: string): Option<Record> {
    if !Present(body.code) && body.name.None? then None
    else
      var code := if Present(body.code) then body.code.value else Slug(Lower(body.name.value));
      var parent := if Truthy(body.parentId) then ParentFor(records, body.parentId) else None;
      Some(Record(
        NextId(records), DefaultOrgId, DefaultOuId, Some(code), body.name,
        Some(TextOr(body.description, "")), parent,
        Attribution(DefaultCreatedBy, now, now)))
  }

  /** `POST /api/v1/categories`: the reply and the store afterwards. */
  function CreateCategory(records: seq<Record>, body: CreateBody, now: string): (Reply<Record>, seq<Record>) {
    match NewRecord(records, body, now)
    case None => (Failed(500, CrashMessage, None), records)
    case Some(r) => (Ok(201, r), records + [r])
  }

  /* ---------------- update ---------------- */

  /** The request body of an update: `None` is a field left out of the body. */
  datatype UpdateBody = UpdateBody(
    code: Option<Option<string>>,
    name: Option<Option<string>>,
    description: Option<Option<string>>,
    parentId: Value)

  /** The parent after an update: kept when `parentId` is absent, cleared when
      it is `null`, re-resolved when it names a record, kept otherwise. */
  function UpdatedParent(records: seq<Record>, current: Option<ParentRef>, parentId: Value): Option<ParentRef> {
    match parentId
    case Undefined => current
    case Null => None
    case _ =>
      match ParentFor(records, parentId)
      case Some(s) => Some(s)
      case None => current
  }

  function Merge<T>(field: Option<T>, current: T): T {
    if field.Some? then field.value else current
  }

  /** The merged record: only the fields present in the body, the parent and
      the modification date change. */
  function Updated(records: seq<Record>, r: Record, body: UpdateBody, now: string): Record {
    r.(code := Merge(body.code, r.code),
       name := Merge(body.name, r.name),
       description := Merge(body.description, r.description),
       parent := UpdatedParent(records, r.parent, body.parentId),
       attribution := r.attribution.(modifiedDate := now))
  }

  /** `PUT /api/v1/categories/:id`: the reply and the store afterwards. */
  function UpdateCategory(records: seq<Record>, idText: string, body: UpdateBody, now: string): (Reply<Record>, seq<Record>) {
    match Lookup(records, idText)
    case None => (Failed(404, NotFoundMessage, None), records)
    case Some(k) =>
      var r := Updated(records, records[k], body, now);
      (Ok(200, r), records[k := r])
  }

  /* ---------------- delete ---------------- */

  predicate HasChildren(records: seq<Record>, id: int) {
    exists i :: 0 <= i < |records| && IsChildOf(id, records[i])
  }

  /** `DELETE /api/v1/categories/:id`: the reply and the store afterwards. */
  function DeleteCategory(records: seq<Record>, idText: string): (Reply<string>, seq<Record>) {
    match Lookup(records, idText)
    case None => (Failed(404, NotFoundMessage, None), records)
    case Some(k) =>
      var id := records[k].id;
      if HasChildren(records, id) then (Failed(400, HasChildrenMessage, Some(HasChildrenCode)), records)
      else (Ok(200, DeletedMessage), Filter(records, (r: Record) => r.id != id))
  }

  /** The filter steps of the list route: each active filter narrows
      `filtered` in turn, and the result is the single filter by `Matches`. */
  method ApplyFilters(records: seq<Record>, p: ListParams) returns (filtered: seq<Record>)
    ensures filtered == Filtered(records, p)
  {
    filtered := records;
    ghost var stage1 := r => SearchOk(p, r);
    if Present(p.q) {
      var search := Lower(p.q.value);
      filtered := Filter(filtered, r => SearchHit(search, r));
      FilterCongruent(records, r => SearchHit(search, r), stage1);
    } else {
      FilterAllPass(records, stage1);
    }

    ghost var stage2 := r => SearchOk(p, r) && RootOk(p, r);
    if p.root == Some("true") {
      filtered := Filter(filtered, (r: Record) => r.parent.None?);
      FilterCompose(records, stage1, (r: Record) => r.parent.None?, stage2);
    } else {
      FilterCongruent(records, stage1, stage2);
    }

    ghost var stage3 := r => SearchOk(p, r) && RootOk(p, r) && CodesOk(p, r);
    if Present(p.entityCodes) {
      var codes := CodeList(p.entityCodes.value);
      filtered := Filter(filtered, r => CodeListed(codes, r));
      FilterCompose(records, stage2, r => CodeListed(codes, r), stage3);
    } else {
      FilterCongruent(records, stage2, stage3);
    }

    ghost var stage4 := r => Matches(p, r);
    if Present(p.entityIds) {
      var ids := IdList(p.entityIds.value);
      filtered := Filter(filtered, r => IdListed(ids, r));
      FilterCompose(records, stage3, r => IdListed(ids, r), stage4);
    } else {
      FilterCongruent(records, stage3, stage4);
    }
  }

  /* ---------------- the store ---------------- */

  /** The in-memory category list that every route reads and writes. */
  class CategoryStore {
    var records: seq<Record>

    constructor(initial: seq<Record>)
      ensures records == initial
    {
      records := initial;
    }

    /** The list route: the filtered list is copied, sorted in place and
        sliced. */
    method List(p: ListParams) returns (page: Page)
      ensures page == ListQuery(records, p)
    {
      var filtered := ApplyFilters(records, p);
      var sorted := new Record[|filtered|](i requires 0 <= i < |filtered| => filtered[i]);
      assert sorted[..] == filtered;
      var sortBy := TextOr(p.sortBy, "id");
      var sortOrder := TextOr(p.sortOrder, "ASC");
      if sortBy == "id" {
        SortInPlace(sorted, IdOrder(sortOrder == "DESC"));
      } else if sortBy == "code" {
        SortInPlace(sorted, CodeOrder(sortOrder == "DESC"));
      }

      var limit := ParseIntOr(p.limit, 10);
      var offset := ParseIntOr(p.offset, 0);
      page := Page(JsSlice(sorted[..], offset, offset + limit), limit, offset, |filtered|);
    }

    method Get(idText: string, q: DetailParams) returns (reply: Reply<Detail>)
      ensures reply == GetCategory(records, idText, q)
      ensures reply.Ok? <==> Lookup(records, idText).Some?
      ensures reply.Ok? ==> reply.status == 200 && reply.data.record == records[Lookup(records, idText).value]
      ensures reply.Failed? ==> reply == Failed(404, NotFoundMessage, None)
    {
      reply := GetCategory(records, idText, q);
    }

    /** `push` of the new record. */
    method Create(body: CreateBody, now: string) returns (reply: Reply<Record>)
      modifies this
      ensures (reply, records) == CreateCategory(old(records), body, now)
    {
      var created := NewRecord(records, body, now);
      match created {
        case None =>
          reply := Failed(500, CrashMessage, None);
        case Some(r) =>
          records := records + [r];
          reply := Ok(201, r);
      }
    }

    /** `assign` of the merged fields onto the first record with the id. */
    method Update(idText: string, body: UpdateBody, now: string) returns (reply: Reply<Record>)
      modifies this
      ensures (reply, records) == UpdateCategory(old(records), idText, body, now)
    {
      var found := Lookup(records, idText);
      match found {
        case None =>
          reply := Failed(404, NotFoundMessage, None);
        case Some(k) =>
          var r := Updated(records, records[k], body, now);
          records := records[k := r];
          reply := Ok(200, r);
      }
    }

    /** `remove` of every record with the id, unless one is still a parent. */
    method Delete(idText: string) returns (reply: Reply<string>)
      modifies this
      ensures (reply, records) == DeleteCategory(old(records), idText)
    {
      var found := Lookup(records, idText);
      match found {
        case None =>
          reply := Failed(404, NotFoundMessage, None);
        case Some(k) =>
          var id := records[k].id;
          if HasChildren(records, id) {
            reply := Failed(400, HasChildrenMessage, Some(HasChildrenCode));
          } else {
            records := Filter(records, (r: Record) => r.id != id);
            reply := Ok(200, DeletedMessage);
          }
      }
    }
  }
}
