/** What the mock server's routes promise: the list page holds only matching
    records in the requested order and within the requested window, `total`
    ignores paging, and create, update and delete keep every parent snapshot
    pointing at a stored category. */
module MockServerLemmas {
  import opened Js
  import opened Sequences
  import opened Sorting
  import opened MockServer

  /* ---------------- filters ---------------- */

  /** A record is in the filtered list exactly when it is stored and passes
      every active filter. */
  lemma FilteredExact(records: seq<Record>, p: ListParams, r: Record)
    ensures r in Filtered(records, p) <==> r in records && Matches(p, r)
  {
    var f := Filtered(records, p);
    if r in f {
      var i :| 0 <= i < |f| && f[i] == r;
    }
    if r in records && Matches(p, r) {
      var i :| 0 <= i < |records| && records[i] == r;
    }
  }

  /** Every record on the page is a stored record that passes every active
      filter. */
  lemma ListDataMatches(records: seq<Record>, p: ListParams)
    ensures forall r :: r in ListQuery(records, p).data ==> r in records && Matches(p, r)
  {
    var f := Filtered(records, p);
    var sorted := Sorted(p, f);
    forall r | r in ListQuery(records, p).data
      ensures r in records && Matches(p, r)
    {
      assert r in sorted;
      if SortKey(p) == "id" {
        StableSortPermutes(f, IdOrder(Descending(p)));
        assert r in multiset(sorted);
      } else if SortKey(p) == "code" {
        StableSortPermutes(f, CodeOrder(Descending(p)));
        assert r in multiset(sorted);
      }
      assert r in f;
      FilteredExact(records, p, r);
    }
  }

  /** The search test is a substring test: the lower-cased text occurs at some
      position of the lower-cased code or of the lower-cased name. */
  lemma SearchHitIffOccurs(search: string, r: Record)
    ensures SearchHit(search, r) <==>
      (Present(r.code) && exists i :: OccursAt(Lower(r.code.value), search, i)) ||
      (Present(r.name) && exists i :: OccursAt(Lower(r.name.value), search, i))
  {
    if Present(r.code) {
      ContainsIffOccurs(Lower(r.code.value), search);
    }
    if Present(r.name) {
      ContainsIffOccurs(Lower(r.name.value), search);
    }
  }

  /** With `root=true` the page holds only parentless records; with any other
      `root` value the filter is skipped altogether. */
  lemma RootFilter(records: seq<Record>, p: ListParams)
    ensures p.root == Some("true") ==>
      forall r :: r in ListQuery(records, p).data ==> r.parent.None?
    ensures p.root != Some("true") ==> Filtered(records, p) == Filtered(records, p.(root := None))
  {
    ListDataMatches(records, p);
    var q := p.(root := None);
    if p.root != Some("true") {
      FilterCongruent(records, r => Matches(p, r), r => Matches(q, r));
    }
  }

  /** An `entityCodes` entry matches a record whose lower-cased code equals
      the entry trimmed and lower-cased. */
  lemma EntityCodesMatch(entityCodes: string, r: Record)
    ensures CodeListed(CodeList(entityCodes), r) ==>
      exists i :: 0 <= i < |Split(entityCodes, ',')| && Lower(Trim(Split(entityCodes, ',')[i])) == Lower(r.code.value)
    ensures forall i ::
      (0 <= i < |Split(entityCodes, ',')| && Present(r.code) &&
       Lower(Trim(Split(entityCodes, ',')[i])) == Lower(r.code.value)) ==> CodeListed(CodeList(entityCodes), r)
  {
    var codes := CodeList(entityCodes);
    if CodeListed(codes, r) {
      var i :| 0 <= i < |codes| && codes[i] == Lower(r.code.value);
      assert Lower(Trim(Split(entityCodes, ',')[i])) == Lower(r.code.value);
    }
    forall i | 0 <= i < |Split(entityCodes, ',')| && Present(r.code) &&
      Lower(Trim(Split(entityCodes, ',')[i])) == Lower(r.code.value)
      ensures CodeListed(codes, r)
    {
      assert codes[i] == Lower(r.code.value);
    }
  }

  /** An `entityIds` entry matches a record whose id `parseInt` reads from the
      trimmed entry. */
  lemma EntityIdsMatch(entityIds: string, r: Record)
    ensures IdListed(IdList(entityIds), r) ==>
      exists i :: 0 <= i < |Split(entityIds, ',')| && ParseInt(Trim(Split(entityIds, ',')[i])) == Some(r.id)
    ensures forall i ::
      (0 <= i < |Split(entityIds, ',')| && ParseInt(Trim(Split(entityIds, ',')[i])) == Some(r.id)) ==>
        IdListed(IdList(entityIds), r)
  {
    var ids := IdList(entityIds);
    if IdListed(ids, r) {
      var i :| 0 <= i < |ids| && ids[i] == Some(r.id);
      assert ParseInt(Trim(Split(entityIds, ',')[i])) == Some(r.id);
    }
    forall i | 0 <= i < |Split(entityIds, ',')| && ParseInt(Trim(Split(entityIds, ',')[i])) == Some(r.id)
      ensures IdListed(ids, r)
    {
      assert ids[i] == Some(r.id);
    }
  }

  /* ---------------- sorting ---------------- */

  lemma IdOrderConsistent(desc: bool)
    ensures Consistent(IdOrder(desc))
  {
  }

  lemma CodeOrderConsistent(desc: bool)
    ensures Consistent(CodeOrder(desc))
  {
    var cmp := CodeOrder(desc);
    forall a: Record, b: Record ensures cmp(a, b) > 0 <==> cmp(b, a) < 0 {
      CompareTextAntisymmetric(Lower(TextOr(a.code, "")), Lower(TextOr(b.code, "")));
    }
    forall a: Record, b: Record, c: Record | cmp(a, b) <= 0 && cmp(b, c) <= 0
      ensures cmp(a, c) <= 0
    {
      var ka, kb, kc := Lower(TextOr(a.code, "")), Lower(TextOr(b.code, "")), Lower(TextOr(c.code, ""));
      if desc {
        CompareTextAntisymmetric(ka, kb);
        CompareTextAntisymmetric(kb, kc);
        CompareTextAntisymmetric(ka, kc);
        CompareTextTransitive(kc, kb, ka);
      } else {
        CompareTextTransitive(ka, kb, kc);
      }
    }
  }

  /** A window of a sorted list is sorted. */
  lemma SliceSorted<T>(s: seq<T>, cmp: (T, T) -> int, start: int, end: int)
    requires SortedBy(s, cmp)
    ensures SortedBy(JsSlice(s, start, end), cmp)
  {
    var from := SliceIndex(start, |s|);
    var to := SliceIndex(end, |s|);
    if from < to {
      var w := s[from..to];
      forall i, j | 0 <= i < j < |w| ensures cmp(w[i], w[j]) <= 0 {
        assert w[i] == s[from + i] && w[j] == s[from + j];
      }
    }
  }

  /** `sortBy=id` (the default) orders the page by id: ascending, or
      descending under `sortOrder=DESC`. */
  lemma ListSortedById(records: seq<Record>, p: ListParams)
    requires SortKey(p) == "id"
    ensures var d := ListQuery(records, p).data;
      forall i, j :: 0 <= i < j < |d| ==>
        if Descending(p) then d[i].id >= d[j].id else d[i].id <= d[j].id
  {
    var cmp := IdOrder(Descending(p));
    var sorted := Sorted(p, Filtered(records, p));
    IdOrderConsistent(Descending(p));
    StableSortSorted(Filtered(records, p), cmp);
    SliceSorted(sorted, cmp, Offset(p), Offset(p) + Limit(p));
    var d := ListQuery(records, p).data;
    forall i, j | 0 <= i < j < |d|
      ensures if Descending(p) then d[i].id >= d[j].id else d[i].id <= d[j].id
    {
      assert cmp(d[i], d[j]) <= 0;
    }
  }

  /** `sortBy=code` orders the page by lower-cased code, a missing code
      sorting as the empty text. */
  lemma ListSortedByCode(records: seq<Record>, p: ListParams)
    requires SortKey(p) == "code"
    ensures var d := ListQuery(records, p).data;
      forall i, j :: 0 <= i < j < |d| ==>
        var c := CompareText(Lower(TextOr(d[i].code, "")), Lower(TextOr(d[j].code, "")));
        if Descending(p) then c >= 0 else c <= 0
  {
    var cmp := CodeOrder(Descending(p));
    var sorted := Sorted(p, Filtered(records, p));
    CodeOrderConsistent(Descending(p));
    StableSortSorted(Filtered(records, p), cmp);
    SliceSorted(sorted, cmp, Offset(p), Offset(p) + Limit(p));
    var d := ListQuery(records, p).data;
    forall i, j | 0 <= i < j < |d|
      ensures var c := CompareText(Lower(TextOr(d[i].code, "")), Lower(TextOr(d[j].code, "")));
        if Descending(p) then c >= 0 else c <= 0
    {
      assert cmp(d[i], d[j]) <= 0;
    }
  }

  /** The list sort is stable under either key and either order: the filtered
      records that tie with any record `x` (the same id, or the same
      lower-cased code with a missing code read as '') keep their store order;
      any other key leaves the list as it is. */
  lemma ListSortStable(records: seq<Record>, p: ListParams, x: Record)
    ensures var f := Filtered(records, p);
      SortKey(p) == "id" ==>
        Filter(Sorted(p, f), TiesWith(IdOrder(Descending(p)), x)) == Filter(f, TiesWith(IdOrder(Descending(p)), x))
    ensures var f := Filtered(records, p);
      SortKey(p) == "code" ==>
        Filter(Sorted(p, f), TiesWith(CodeOrder(Descending(p)), x)) == Filter(f, TiesWith(CodeOrder(Descending(p)), x))
    ensures SortKey(p) != "id" && SortKey(p) != "code" ==> Sorted(p, Filtered(records, p)) == Filtered(records, p)
  {
    var f := Filtered(records, p);
    if SortKey(p) == "id" {
      IdOrderConsistent(Descending(p));
      StableSortKeepsTies(f, IdOrder(Descending(p)), x);
    } else if SortKey(p) == "code" {
      CodeOrderConsistent(Descending(p));
      StableSortKeepsTies(f, CodeOrder(Descending(p)), x);
    }
  }

  /** Sorting by id leaves an id-ordered list as it is, so records with equal
      ids keep their store order. */
  lemma ListSortOfIdOrdered(records: seq<Record>, p: ListParams)
    requires SortKey(p) == "id" && !Descending(p)
    requires forall i, j :: 0 <= i < j < |records| ==> records[i].id <= records[j].id
    ensures Sorted(p, Filtered(records, p)) == Filtered(records, p)
  {
    var f := Filtered(records, p);
    FilterIsSubsequence(records, r => Matches(p, r));
    forall i, j | 0 <= i < j < |f| ensures IdOrder(false)(f[i], f[j]) <= 0 {
      SubsequenceOrder(f, records, i, j);
    }
    StableSortOfSorted(f, IdOrder(false));
  }

  /** Two elements of a subsequence of an id-ordered list are in id order. */
  lemma {:induction false} SubsequenceOrder(r: seq<Record>, s: seq<Record>, i: nat, j: nat)
    requires IsSubsequence(r, s) && i < j < |r|
    requires forall a, b :: 0 <= a < b < |s| ==> s[a].id <= s[b].id
    ensures r[i].id <= r[j].id
    decreases |s|
  {
    if r[0] == s[0] {
      if i == 0 {
        SubsequenceMember(r[1..], s[1..], j - 1);
      } else {
        SubsequenceOrder(r[1..], s[1..], i - 1, j - 1);
      }
    } else {
      SubsequenceOrder(r, s[1..], i, j);
    }
  }

  /** An element of a subsequence of `s[1..]` sits at some later position of `s`. */
  lemma {:induction false} SubsequenceMember(r: seq<Record>, t: seq<Record>, k: nat)
    requires IsSubsequence(r, t) && k < |r|
    ensures exists m :: 0 <= m < |t| && t[m] == r[k]
    decreases |t|
  {
    if r[0] == t[0] {
      if k > 0 {
        SubsequenceMember(r[1..], t[1..], k - 1);
        var m :| 0 <= m < |t[1..]| && t[1..][m] == r[1..][k - 1];
        assert t[m + 1] == r[k];
      }
    } else {
      SubsequenceMember(r, t[1..], k);
      var m :| 0 <= m < |t[1..]| && t[1..][m] == r[k];
      assert t[m + 1] == r[k];
    }
  }

  /* ---------------- paging ---------------- */

  /** With a non-negative limit and offset the page is the window
      `[offset, offset + limit)` of the sorted list, never longer than the
      limit, and `total` counts the whole filtered list. Any `sortBy` other
      than `id` or `code` leaves the filtered list in store order. */
  lemma ListPageWindow(records: seq<Record>, p: ListParams)
    requires Limit(p) >= 0 && Offset(p) >= 0
    ensures var page := ListQuery(records, p);
      var sorted := Sorted(p, Filtered(records, p));
      && |sorted| == page.total
      && |page.data| <= Limit(p)
      && (Offset(p) <= page.total ==>
          page.data == sorted[Offset(p)..if Offset(p) + Limit(p) < page.total then Offset(p) + Limit(p) else page.total])
      && (Offset(p) >= page.total ==> page.data == [])
    ensures SortKey(p) != "id" && SortKey(p) != "code" ==> Sorted(p, Filtered(records, p)) == Filtered(records, p)
  {
    var f := Filtered(records, p);
    StableSortPermutes(f, IdOrder(Descending(p)));
    StableSortPermutes(f, CodeOrder(Descending(p)));
    JsSliceWindow(Sorted(p, f), Offset(p), Limit(p));
  }

  /** `total` and the filtered list do not depend on `limit` or `offset`. */
  lemma TotalIgnoresPaging(records: seq<Record>, p: ListParams, limit: Option<string>, offset: Option<string>)
    ensures ListQuery(records, p.(limit := limit, offset := offset)).total == ListQuery(records, p).total
    ensures Filtered(records, p.(limit := limit, offset := offset)) == Filtered(records, p)
  {
    var q := p.(limit := limit, offset := offset);
    FilterCongruent(records, r => Matches(q, r), r => Matches(p, r));
  }

  /** A page size or offset written out by `String(n)` is read back as `n`,
      except that 0 falls back to the default (10 for the limit, 0 for the
      offset); an absent value takes the default. */
  lemma PagingDefaults(p: ListParams, n: int)
    ensures p.limit.None? ==> Limit(p) == 10
    ensures p.offset.None? ==> Offset(p) == 0
    ensures Limit(p.(limit := Some(IntToString(n)))) == if n != 0 then n else 10
    ensures Offset(p.(offset := Some(IntToString(n)))) == n
  {
    ParseIntToString(n);
  }

  /* ---------------- one category ---------------- */

  /** A non-zero id written out by `String(n)` names that id; "0" names none. */
  lemma PathIdRoundTrip(n: int)
    ensures PathId(IntToString(n)) == if n != 0 then Some(n) else None
  {
    ParseIntToString(n);
  }

  /** Every child on the children page is the `{id, code, name}` projection
      of a stored record whose parent snapshot names the requested id, and
      the page is no longer than a non-negative `childrenLimit`. */
  lemma ChildrenPageSound(records: seq<Record>, id: int, q: DetailParams)
    ensures forall c :: c in ChildrenPage(records, id, q) ==>
      exists r :: r in records && IsChildOf(id, r) && Project(r) == c
    ensures var limit := ParseIntOr(q.childrenLimit, 10);
      var offset := ParseIntOr(q.childrenOffset, 0);
      limit >= 0 && offset >= 0 ==> |ChildrenPage(records, id, q)| <= limit
  {
    var children := Filter(records, r => IsChildOf(id, r));
    var limit := ParseIntOr(q.childrenLimit, 10);
    var offset := ParseIntOr(q.childrenOffset, 0);
    var page := JsSlice(children, offset, offset + limit);
    var out := ChildrenPage(records, id, q);
    forall c | c in out
      ensures exists r :: r in records && IsChildOf(id, r) && Project(r) == c
    {
      var i :| 0 <= i < |out| && out[i] == c;
      assert page[i] in children;
      var k :| 0 <= k < |children| && children[k] == page[i];
      assert page[i] in records && IsChildOf(id, page[i]);
    }
    if limit >= 0 && offset >= 0 {
      JsSliceWindow(children, offset, limit);
    }
  }

  /** With a non-negative `childrenLimit` and `childrenOffset`, the children
      page is the `{id, code, name}` projection of the window
      `[offset, offset + limit)` of the requested record's children in store
      order, cut at the end of the list and empty past it. */
  lemma ChildrenPageWindow(records: seq<Record>, id: int, q: DetailParams)
    ensures var limit := ParseIntOr(q.childrenLimit, 10);
      var offset := ParseIntOr(q.childrenOffset, 0);
      var children := Filter(records, r => IsChildOf(id, r));
      var end := if offset + limit < |children| then offset + limit else |children|;
      var window := if 0 <= offset <= |children| && limit >= 0 then children[offset..end] else [];
      var page := ChildrenPage(records, id, q);
      limit >= 0 && offset >= 0 ==>
        |page| == |window| && forall i :: 0 <= i < |window| ==> page[i] == Project(window[i])
  {
    var limit := ParseIntOr(q.childrenLimit, 10);
    var offset := ParseIntOr(q.childrenOffset, 0);
    if limit >= 0 && offset >= 0 {
      JsSliceWindow(Filter(records, r => IsChildOf(id, r)), offset, limit);
    }
  }

  /** A known path id gives 200 with that record, an unknown one 404. */
  lemma GetCategoryReply(records: seq<Record>, idText: string, q: DetailParams)
    ensures var reply := GetCategory(records, idText, q);
      match PathId(idText)
      case None => reply == Failed(404, NotFoundMessage, None)
      case Some(id) =>
        if exists i :: 0 <= i < |records| && records[i].id == id then
          reply.Ok? && reply.status == 200 && reply.data.record.id == id && reply.data.record in records &&
          (reply.data.children.Some? <==> q.includeChildren == Some("true")) &&
          (q.includeChildren == Some("true") ==> reply.data.children == Some(ChildrenPage(records, id, q)))
        else reply == Failed(404, NotFoundMessage, None)
  {
  }

  /* ---------------- store integrity ---------------- */

  /** Every parent snapshot names a category that is in the store. */
  ghost predicate ParentsResolve(records: seq<Record>) {
    forall i :: 0 <= i < |records| && records[i].parent.Some? ==>
      exists j :: 0 <= j < |records| && records[j].id == records[i].parent.value.id
  }

  /** No two stored categories share an id. */
  ghost predicate UniqueIds(records: seq<Record>) {
    forall i, j :: 0 <= i < j < |records| ==> records[i].id != records[j].id
  }

  /** The parent snapshot is taken from a stored record. */
  lemma ParentForFound(records: seq<Record>, parentId: Value)
    ensures ParentFor(records, parentId).Some? ==>
      exists j :: 0 <= j < |records| && Snapshot(records[j]) == ParentFor(records, parentId).value
    ensures ParentFor(records, parentId).Some? <==>
      parentId.Num? && exists j :: 0 <= j < |records| && records[j].id == parentId.n
  {
    if parentId.Num? {
      var k := FindIndex(records, parentId.n);
      if k.Some? {
        assert Snapshot(records[k.value]) == ParentFor(records, parentId).value;
      }
    }
  }

  /** Create: a new record with a fresh id (one more than the largest, or
      10173901 on an empty store) is appended, so the store grows by one;
      when neither a code nor a name is given the handler throws, the reply
      is 500 and the store is unchanged. */
  lemma CreateEffect(records: seq<Record>, body: CreateBody, now: string)
    ensures var (reply, after) := CreateCategory(records, body, now);
      if !Present(body.code) && body.name.None? then
        reply.Failed? && reply.status == 500 && after == records
      else
        && reply.Ok? && reply.status == 201
        && after == records + [reply.data]
        && |after| == |records| + 1
        && (forall i :: 0 <= i < |records| ==> records[i].id < reply.data.id)
        && (records != [] ==> reply.data.id == MaxId(records) + 1)
        && (records == [] ==> reply.data.id == 10173901)
        && reply.data.orgId == 50583 && reply.data.ouId == -1
        && reply.data.name == body.name
        && reply.data.description == Some(TextOr(body.description, ""))
        && reply.data.attribution == Attribution(15000449, now, now)
  {
  }

  /** Create: the parent is a snapshot of the stored record whose id equals a
      truthy numeric `parentId`, and `null` otherwise. */
  lemma CreateParent(records: seq<Record>, body: CreateBody, now: string)
    requires NewRecord(records, body, now).Some?
    ensures var r := NewRecord(records, body, now).value;
      && (r.parent.Some? <==>
          body.parentId.Num? && body.parentId.n != 0 &&
          exists j :: 0 <= j < |records| && records[j].id == body.parentId.n)
      && (r.parent.Some? ==> exists j :: 0 <= j < |records| && Snapshot(records[j]) == r.parent.value)
  {
    ParentForFound(records, body.parentId);
  }

  /** Create: without a truthy code the code is the lower-cased name with each
      run of white space turned into '-', so it holds no white space and is
      no longer than the name. */
  lemma CreateDerivedCode(records: seq<Record>, body: CreateBody, now: string)
    requires NewRecord(records, body, now).Some?
    ensures var r := NewRecord(records, body, now).value;
      && r.code.Some?
      && (Present(body.code) ==> r.code == body.code)
      && (!Present(body.code) ==>
          && r.code.value == Slug(Lower(body.name.value))
          && (forall i :: 0 <= i < |r.code.value| ==> !IsSpace(r.code.value[i]))
          && |r.code.value| <= |body.name.value|)
  {
    if !Present(body.code) {
      SlugHasNoSpace(Lower(body.name.value));
      SlugNoLonger(Lower(body.name.value));
    }
  }

  /** Create keeps ids unique and every parent resolvable. */
  lemma CreatePreservesIntegrity(records: seq<Record>, body: CreateBody, now: string)
    requires ParentsResolve(records) && UniqueIds(records)
    ensures ParentsResolve(CreateCategory(records, body, now).1)
    ensures UniqueIds(CreateCategory(records, body, now).1)
  {
    var after := CreateCategory(records, body, now).1;
    var made := NewRecord(records, body, now);
    if made.Some? {
      var r := made.value;
      ParentForFound(records, body.parentId);
      forall i | 0 <= i < |after| && after[i].parent.Some?
        ensures exists j :: 0 <= j < |after| && after[j].id == after[i].parent.value.id
      {
        if i < |records| {
          var j :| 0 <= j < |records| && records[j].id == records[i].parent.value.id;
          assert after[j] == records[j];
        } else {
          var j :| 0 <= j < |records| && Snapshot(records[j]) == r.parent.value;
          assert after[j] == records[j];
        }
      }
    }
  }

  /** Update: an unknown id gives 404 and an unchanged store. Otherwise only
      the first record with the id is replaced; it keeps its id, org, unit,
      creator and creation date, takes `code`, `name` and `description` only
      where the body has them, and gets the new modification date. */
  lemma UpdateEffect(records: seq<Record>, idText: string, body: UpdateBody, now: string)
    ensures var (reply, after) := UpdateCategory(records, idText, body, now);
      match Lookup(records, idText)
      case None => reply == Failed(404, NotFoundMessage, None) && after == records
      case Some(k) =>
        var before := records[k];
        var r := after[k];
        && reply == Ok(200, r)
        && |after| == |records|
        && (forall j :: 0 <= j < |records| && j != k ==> after[j] == records[j])
        && r.id == before.id && r.orgId == before.orgId && r.ouId == before.ouId
        && r.attribution.createdBy == before.attribution.createdBy
        && r.attribution.createdDate == before.attribution.createdDate
        && r.attribution.modifiedDate == now
        && r.code == (if body.code.Some? then body.code.value else before.code)
        && r.name == (if body.name.Some? then body.name.value else before.name)
        && r.description == (if body.description.Some? then body.description.value else before.description)
        && r.parent == UpdatedParent(records, before.parent, body.parentId)
        && (body.parentId == Undefined ==> r.parent == before.parent)
        && (body.parentId == Null ==> r.parent == None)
  {
  }

  /** Update: `parentId` absent keeps the parent, `null` detaches it, an id of
      a stored record re-attaches to a fresh snapshot of it, and anything else
      keeps the old parent. */
  lemma UpdateParentRules(records: seq<Record>, current: Option<ParentRef>, parentId: Value)
    ensures parentId == Undefined ==> UpdatedParent(records, current, parentId) == current
    ensures parentId == Null ==> UpdatedParent(records, current, parentId) == None
    ensures parentId.Num? && (exists j :: 0 <= j < |records| && records[j].id == parentId.n) ==>
      UpdatedParent(records, current, parentId).Some? &&
      UpdatedParent(records, current, parentId).value.id == parentId.n
    ensures parentId != Null && !(parentId.Num? && exists j :: 0 <= j < |records| && records[j].id == parentId.n) ==>
      UpdatedParent(records, current, parentId) == current
  {
    ParentForFound(records, parentId);
  }

  /** Update keeps ids unique and every parent resolvable. */
  lemma UpdatePreservesIntegrity(records: seq<Record>, idText: string, body: UpdateBody, now: string)
    requires ParentsResolve(records) && UniqueIds(records)
    ensures ParentsResolve(UpdateCategory(records, idText, body, now).1)
    ensures UniqueIds(UpdateCategory(records, idText, body, now).1)
  {
    var after := UpdateCategory(records, idText, body, now).1;
    var found := Lookup(records, idText);
    if found.Some? {
      var k := found.value;
      assert forall j :: 0 <= j < |records| ==> after[j].id == records[j].id;
      ParentForFound(records, body.parentId);
      forall i | 0 <= i < |after| && after[i].parent.Some?
        ensures exists j :: 0 <= j < |after| && after[j].id == after[i].parent.value.id
      {
        if i != k || after[k].parent == records[k].parent {
          var j :| 0 <= j < |records| && records[j].id == records[i].parent.value.id;
          assert after[j].id == records[j].id;
        } else {
          var j :| 0 <= j < |records| && Snapshot(records[j]) == ParentFor(records, body.parentId).value;
          assert after[j].id == records[j].id;
        }
      }
    }
  }

  /** Delete: an unknown id gives 404, a category that some record names as
      its parent gives 400 with `CATEGORY_HAS_CHILDREN`, and both leave the
      store unchanged; otherwise exactly the records with that id are removed
      and the rest keep their order. */
  lemma DeleteEffect(records: seq<Record>, idText: string)
    ensures var (reply, after) := DeleteCategory(records, idText);
      match Lookup(records, idText)
      case None => reply == Failed(404, NotFoundMessage, None) && after == records
      case Some(k) =>
        var id := records[k].id;
        if exists i :: 0 <= i < |records| && IsChildOf(id, records[i]) then
          reply == Failed(400, HasChildrenMessage, Some("CATEGORY_HAS_CHILDREN")) && after == records
        else
          && reply == Ok(200, "Category deleted successfully")
          && (forall r :: r in after <==> r in records && r.id != id)
          && IsSubsequence(after, records)
  {
    var found := Lookup(records, idText);
    if found.Some? {
      var id := records[found.value].id;
      if !HasChildren(records, id) {
        var after := Filter(records, (r: Record) => r.id != id);
        FilterIsSubsequence(records, (r: Record) => r.id != id);
        forall r ensures r in after <==> r in records && r.id != id {
          if r in after {
            var i :| 0 <= i < |after| && after[i] == r;
          }
          if r in records && r.id != id {
            var i :| 0 <= i < |records| && records[i] == r;
          }
        }
      }
    }
  }

  /** Removing an id that occurs once takes exactly one record away. */
  lemma {:induction false} RemoveUniqueId(records: seq<Record>, k: nat)
    requires UniqueIds(records) && k < |records|
    ensures |Filter(records, (r: Record) => r.id != records[k].id)| == |records| - 1
    decreases |records|
  {
    var id := records[k].id;
    var keep := (r: Record) => r.id != id;
    if k == 0 {
      FilterAllPass(records[1..], keep);
    } else {
      RemoveUniqueId(records[1..], k - 1);
      assert records[1..][k - 1] == records[k];
    }
  }

  /** Deleting a leaf category from a store with unique ids removes exactly
      one record. */
  lemma DeleteLeafRemovesOne(records: seq<Record>, idText: string)
    requires UniqueIds(records)
    requires Lookup(records, idText).Some?
    requires !HasChildren(records, records[Lookup(records, idText).value].id)
    ensures |DeleteCategory(records, idText).1| == |records| - 1
  {
    RemoveUniqueId(records, Lookup(records, idText).value);
  }

  /** Delete keeps ids unique and every parent resolvable: it only removes a
      category that no stored record names as its parent. */
  lemma DeletePreservesIntegrity(records: seq<Record>, idText: string)
    requires ParentsResolve(records) && UniqueIds(records)
    ensures ParentsResolve(DeleteCategory(records, idText).1)
    ensures UniqueIds(DeleteCategory(records, idText).1)
  {
    var after := DeleteCategory(records, idText).1;
    DeleteEffect(records, idText);
    var found := Lookup(records, idText);
    if found.Some? && !HasChildren(records, records[found.value].id) {
      var id := records[found.value].id;
      forall i | 0 <= i < |after| && after[i].parent.Some?
        ensures exists j :: 0 <= j < |after| && after[j].id == after[i].parent.value.id
      {
        assert after[i] in records;
        var a :| 0 <= a < |records| && records[a] == after[i];
        var j :| 0 <= j < |records| && records[j].id == records[a].parent.value.id;
        assert !IsChildOf(id, records[a]);
        assert records[j] in after;
      }
      forall i, j | 0 <= i < j < |after| ensures after[i].id != after[j].id {
        SubsequenceDistinct(after, records, i, j);
      }
    }
  }

  /** Two positions of a subsequence of a list with unique ids hold different ids. */
  lemma {:induction false} SubsequenceDistinct(r: seq<Record>, s: seq<Record>, i: nat, j: nat)
    requires IsSubsequence(r, s) && i < j < |r| && UniqueIds(s)
    ensures r[i].id != r[j].id
    decreases |s|
  {
    if r[0] == s[0] {
      if i == 0 {
        SubsequenceMember(r[1..], s[1..], j - 1);
        var m :| 0 <= m < |s[1..]| && s[1..][m] == r[1..][j - 1];
        assert s[m + 1] == r[j];
      } else {
        SubsequenceDistinct(r[1..], s[1..], i - 1, j - 1);
      }
    } else {
      SubsequenceDistinct(r, s[1..], i, j);
    }
  }

  /** A record just created can be fetched back by its id, provided that id
      is not 0 (the path id "0" is read as text). */
  lemma CreatedIsFetchable(records: seq<Record>, body: CreateBody, now: string, q: DetailParams)
    requires NewRecord(records, body, now).Some?
    requires NextId(records) != 0
    ensures var r := NewRecord(records, body, now).value;
      var reply := GetCategory(CreateCategory(records, body, now).1, IntToString(r.id), q);
      reply.Ok? && reply.data.record == r
  {
    var r := NewRecord(records, body, now).value;
    var after := CreateCategory(records, body, now).1;
    PathIdRoundTrip(r.id);
    var k := FindIndex(after, r.id);
    assert after[|records|] == r;
    assert k.Some? && k.value == |records|;
  }
}
