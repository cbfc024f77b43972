/** `Array.prototype.sort` with a comparator that returns a number: a stable
    sort, so elements the comparator calls equal keep their relative order.
    The specification is insertion of each element, left to right, after every
    earlier element that does not compare greater. */
module Sorting {
  import opened Sequences

  /** The comparator behaves like a total preorder: its sign is antisymmetric and
      "not greater" is transitive. Comparators of this kind make every stable
      sort produce the same list. */
  ghost predicate Consistent<T(!new)>(cmp: (T, T) -> int) {
    && (forall a, b :: cmp(a, b) > 0 <==> cmp(b, a) < 0)
    && (forall a, b, c :: cmp(a, b) <= 0 && cmp(b, c) <= 0 ==> cmp(a, c) <= 0)
  }

  /** No element compares greater than an element after it. */
  ghost predicate SortedBy<T>(s: seq<T>, cmp: (T, T) -> int) {
    forall i, j :: 0 <= i < j < |s| ==> cmp(s[i], s[j]) <= 0
  }

  /** Put `x` after the last element of `t` that does not compare greater. */
  function Insert<T>(t: seq<T>, x: T, cmp: (T, T) -> int): seq<T>
    decreases |t|
  {
    if |t| == 0 || cmp(t[|t| - 1], x) <= 0 then t + [x]
    else Insert(t[..|t| - 1], x, cmp) + [t[|t| - 1]]
  }

  /** The stable sort of `s` under `cmp`. */
  function StableSort<T>(s: seq<T>, cmp: (T, T) -> int): seq<T>
    decreases |s|
  {
    if |s| == 0 then [] else Insert(StableSort(s[..|s| - 1], cmp), s[|s| - 1], cmp)
  }

  lemma {:induction false} InsertPermutes<T>(t: seq<T>, x: T, cmp: (T, T) -> int)
    ensures multiset(Insert(t, x, cmp)) == multiset(t) + multiset{x}
    decreases |t|
  {
    if |t| > 0 && cmp(t[|t| - 1], x) > 0 {
      InsertPermutes(t[..|t| - 1], x, cmp);
      assert t == t[..|t| - 1] + [t[|t| - 1]];
    }
  }

  /** Sorting only reorders: the result is a permutation of the input. */
  lemma {:induction false} StableSortPermutes<T>(s: seq<T>, cmp: (T, T) -> int)
    ensures multiset(StableSort(s, cmp)) == multiset(s)
    ensures |StableSort(s, cmp)| == |s|
    decreases |s|
  {
    if |s| > 0 {
      StableSortPermutes(s[..|s| - 1], cmp);
      InsertPermutes(StableSort(s[..|s| - 1], cmp), s[|s| - 1], cmp);
      assert s == s[..|s| - 1] + [s[|s| - 1]];
    }
  }

  /** Inserting an element that does not compare greater than `y` into a
      list of such elements keeps every element not greater than `y`. */
  lemma {:induction false} InsertBelow<T>(t: seq<T>, x: T, y: T, cmp: (T, T) -> int)
    requires forall i :: 0 <= i < |t| ==> cmp(t[i], y) <= 0
    requires cmp(x, y) <= 0
    ensures forall i :: 0 <= i < |Insert(t, x, cmp)| ==> cmp(Insert(t, x, cmp)[i], y) <= 0
    decreases |t|
  {
    if |t| > 0 && cmp(t[|t| - 1], x) > 0 {
      InsertBelow(t[..|t| - 1], x, y, cmp);
    }
  }

  lemma {:induction false} InsertSorted<T(!new)>(t: seq<T>, x: T, cmp: (T, T) -> int)
    requires Consistent(cmp) && SortedBy(t, cmp)
    ensures SortedBy(Insert(t, x, cmp), cmp)
    decreases |t|
  {
    if |t| > 0 {
      var last := t[|t| - 1];
      if cmp(last, x) <= 0 {
        assert forall i :: 0 <= i < |t| ==> cmp(t[i], x) <= 0 by {
          forall i | 0 <= i < |t| ensures cmp(t[i], x) <= 0 {
            if i < |t| - 1 { assert cmp(t[i], last) <= 0; }
          }
        }
        assert Insert(t, x, cmp) == t + [x];
      } else {
        var init := t[..|t| - 1];
        assert SortedBy(init, cmp);
        InsertSorted(init, x, cmp);
        assert cmp(x, last) <= 0;
        assert forall i :: 0 <= i < |init| ==> cmp(init[i], last) <= 0;
        InsertBelow(init, x, last, cmp);
        var r := Insert(init, x, cmp);
        assert Insert(t, x, cmp) == r + [last];
      }
    }
  }

  /** Under a consistent comparator the sort's output is in order. */
  lemma {:induction false} StableSortSorted<T(!new)>(s: seq<T>, cmp: (T, T) -> int)
    requires Consistent(cmp)
    ensures SortedBy(StableSort(s, cmp), cmp)
    decreases |s|
  {
    if |s| > 0 {
      StableSortSorted(s[..|s| - 1], cmp);
      InsertSorted(StableSort(s[..|s| - 1], cmp), s[|s| - 1], cmp);
    }
  }

  /** A list that is already in order comes back unchanged: the sort is stable. */
  lemma {:induction false} StableSortOfSorted<T>(s: seq<T>, cmp: (T, T) -> int)
    requires SortedBy(s, cmp)
    ensures StableSort(s, cmp) == s
    decreases |s|
  {
    if |s| > 0 {
      var init := s[..|s| - 1];
      assert SortedBy(init, cmp);
      StableSortOfSorted(init, cmp);
      if |init| > 0 {
        assert cmp(init[|init| - 1], s[|s| - 1]) <= 0;
      }
    }
  }

  /** The elements the comparator calls equal to `x`. */
  function TiesWith<T>(cmp: (T, T) -> int, x: T): T -> bool {
    e => cmp(e, x) == 0
  }

  /** An element that compares greater than one tied with `x` is not tied with `x`. */
  lemma GreaterNotTied<T(!new)>(cmp: (T, T) -> int, e: T, y: T, x: T)
    requires Consistent(cmp) && cmp(e, y) > 0 && cmp(y, x) == 0
    ensures cmp(e, x) != 0
  {
    assert cmp(x, y) <= 0;
  }

  /** Inserting `y` adds it after every element that ties with `x` when it
      ties with `x` itself, and leaves the tied elements alone otherwise. */
  lemma {:induction false} InsertKeepsTies<T>(t: seq<T>, y: T, x: T, cmp: (T, T) -> int)
    requires cmp(y, x) == 0 ==> forall e :: cmp(e, y) > 0 ==> cmp(e, x) != 0
    ensures Filter(Insert(t, y, cmp), TiesWith(cmp, x)) ==
      Filter(t, TiesWith(cmp, x)) + (if cmp(y, x) == 0 then [y] else [])
    decreases |t|
  {
    var tie := TiesWith(cmp, x);
    var tail := if cmp(y, x) == 0 then [y] else [];
    if |t| == 0 || cmp(t[|t| - 1], y) <= 0 {
      assert Insert(t, y, cmp) == t + [y];
      FilterConcat(t, [y], tie);
      assert Filter([y], tie) == tail;
    } else {
      var init, last := t[..|t| - 1], t[|t| - 1];
      assert t == init + [last];
      var r := Insert(init, y, cmp);
      assert Insert(t, y, cmp) == r + [last];
      InsertKeepsTies(init, y, x, cmp);
      FilterConcat(r, [last], tie);
      FilterConcat(init, [last], tie);
      if cmp(y, x) == 0 {
        assert Filter([last], tie) == [];
      } else {
        assert tail == [];
      }
    }
  }

  /** The sort is stable: the elements that tie with any `x` come out in the
      order they went in. */
  lemma {:induction false} StableSortKeepsTies<T(!new)>(s: seq<T>, cmp: (T, T) -> int, x: T)
    requires Consistent(cmp)
    ensures Filter(StableSort(s, cmp), TiesWith(cmp, x)) == Filter(s, TiesWith(cmp, x))
    decreases |s|
  {
    if |s| > 0 {
      var tie := TiesWith(cmp, x);
      var init, last := s[..|s| - 1], s[|s| - 1];
      var tail := if cmp(last, x) == 0 then [last] else [];
      assert StableSort(s, cmp) == Insert(StableSort(init, cmp), last, cmp);
      forall e | cmp(e, last) > 0 && cmp(last, x) == 0 ensures cmp(e, x) != 0 {
        GreaterNotTied(cmp, e, last, x);
      }
      InsertKeepsTies(StableSort(init, cmp), last, x, cmp);
      StableSortKeepsTies(init, cmp, x);
      assert Filter(StableSort(s, cmp), tie) == Filter(init, tie) + tail;
      assert s == init + [last];
      FilterConcat(init, [last], tie);
      assert Filter([last], tie) == tail;
    }
  }

  /** Insertion lands at the first position `j` from which every element of `t`
      compares greater than `x`. */
  lemma {:induction false} InsertAt<T>(t: seq<T>, x: T, cmp: (T, T) -> int, j: nat)
    requires j <= |t|
    requires j == 0 || cmp(t[j - 1], x) <= 0
    requires forall k :: j <= k < |t| ==> cmp(t[k], x) > 0
    ensures Insert(t, x, cmp) == t[..j] + [x] + t[j..]
    decreases |t|
  {
    if j < |t| {
      InsertAt(t[..|t| - 1], x, cmp, j);
      assert t[..|t| - 1][..j] == t[..j];
      assert t[..|t| - 1][j..] + [t[|t| - 1]] == t[j..];
    }
  }

  /** One step of insertion sort: `a[i]` moves left past the elements of the
      sorted prefix `a[..i]` that compare greater than it. */
  method InsertStep<T>(a: array<T>, i: nat, cmp: (T, T) -> int)
    requires i < a.Length
    modifies a
    ensures a[..i + 1] == Insert(old(a[..i]), old(a[i]), cmp)
    ensures a[i + 1..] == old(a[i + 1..])
  {
    var x := a[i];
    ghost var sorted := a[..i];
    var j := i;
    while j > 0 && cmp(a[j - 1], x) > 0
      invariant 0 <= j <= i
      invariant forall k :: 0 <= k < j ==> a[k] == sorted[k]
      invariant forall k :: j < k <= i ==> a[k] == sorted[k - 1]
      invariant forall k :: i < k < a.Length ==> a[k] == old(a[k])
      invariant forall k :: j <= k < i ==> cmp(sorted[k], x) > 0
    {
      a[j] := a[j - 1];
      j := j - 1;
    }
    a[j] := x;
    InsertAt(sorted, x, cmp, j);
    assert a[..i + 1] == sorted[..j] + [x] + sorted[j..];
  }

  /** Insertion sort in place: `a` ends up as the stable sort of its old contents. */
  method SortInPlace<T>(a: array<T>, cmp: (T, T) -> int)
    modifies a
    ensures a[..] == StableSort(old(a[..]), cmp)
  {
    ghost var input := a[..];
    var i := 0;
    while i < a.Length
      invariant 0 <= i <= a.Length
      invariant a[..i] == StableSort(input[..i], cmp)
      invariant a[i..] == input[i..]
    {
      assert a[i] == input[i] by { assert a[i..][0] == input[i..][0]; }
      assert a[i + 1..] == input[i + 1..] by { assert a[i + 1..] == a[i..][1..]; }
      InsertStep(a, i, cmp);
      assert input[..i + 1][..i] == input[..i];
      assert StableSort(input[..i + 1], cmp) == Insert(StableSort(input[..i], cmp), input[i], cmp);
      i := i + 1;
    }
    assert input[..a.Length] == input;
  }
}
