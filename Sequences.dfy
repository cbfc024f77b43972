/** The array built-ins the core calls on lists: `filter` and `slice`. */
module Sequences {

  /** `s.filter(p)`: the elements that pass, in their original order. */
  function Filter<T(==)>(s: seq<T>, p: T -> bool): (r: seq<T>)
    ensures |r| <= |s|
    ensures forall i :: 0 <= i < |r| ==> r[i] in s && p(r[i])
    ensures forall i :: 0 <= i < |s| && p(s[i]) ==> s[i] in r
    decreases |s|
  {
    if |s| == 0 then [] else (if p(s[0]) then [s[0]] else []) + Filter(s[1..], p)
  }

  /** `r` is `s` with some elements left out and the rest kept in order. */
  predicate IsSubsequence<T(==)>(r: seq<T>, s: seq<T>)
    decreases |s|
  {
    if |r| == 0 then true
    else if |s| == 0 then false
    else if r[0] == s[0] then IsSubsequence(r[1..], s[1..])
    else IsSubsequence(r, s[1..])
  }

  lemma {:induction false} SubsequenceOfTail<T>(r: seq<T>, s: seq<T>)
    requires |s| > 0 && IsSubsequence(r, s[1..])
    ensures IsSubsequence(r, s)
    decreases |s|, 0
  {
    if |r| > 0 && r[0] == s[0] {
      SubsequenceDropHead(r, s[1..]);
    }
  }

  lemma {:induction false} SubsequenceDropHead<T>(r: seq<T>, s: seq<T>)
    requires |r| > 0 && IsSubsequence(r, s)
    ensures IsSubsequence(r[1..], s)
    decreases |s|, 1
  {
    if r[0] == s[0] {
      SubsequenceOfTail(r[1..], s);
    } else {
      SubsequenceDropHead(r, s[1..]);
      SubsequenceOfTail(r[1..], s);
    }
  }

  /** Every list is a subsequence of itself. */
  lemma {:induction false} SubsequenceReflexive<T>(s: seq<T>)
    ensures IsSubsequence(s, s)
    decreases |s|
  {
    if |s| > 0 {
      SubsequenceReflexive(s[1..]);
    }
  }

  /** Filtering a concatenation filters each part. */
  lemma {:induction false} FilterConcat<T>(a: seq<T>, b: seq<T>, p: T -> bool)
    ensures Filter(a + b, p) == Filter(a, p) + Filter(b, p)
    decreases |a|
  {
    if |a| > 0 {
      FilterConcat(a[1..], b, p);
      assert (a + b)[1..] == a[1..] + b;
    } else {
      assert a + b == b;
    }
  }

  /** An element is in a filter result exactly when it is in the input and passes. */
  lemma FilterMembers<T>(s: seq<T>, p: T -> bool)
    ensures forall x :: x in Filter(s, p) <==> x in s && p(x)
  {
  }

  /** A filter result is an order-preserving subsequence of its input. */
  lemma {:induction false} FilterIsSubsequence<T>(s: seq<T>, p: T -> bool)
    ensures IsSubsequence(Filter(s, p), s)
    decreases |s|
  {
    if |s| > 0 {
      FilterIsSubsequence(s[1..], p);
      if p(s[0]) {
        assert Filter(s, p)[1..] == Filter(s[1..], p);
      } else {
        assert Filter(s, p) == Filter(s[1..], p);
        SubsequenceOfTail(Filter(s, p), s);
      }
    }
  }

  /** Filtering twice equals filtering once by both conditions. */
  lemma {:induction false} FilterCompose<T>(s: seq<T>, p: T -> bool, q: T -> bool, both: T -> bool)
    requires forall x :: both(x) == (p(x) && q(x))
    ensures Filter(Filter(s, p), q) == Filter(s, both)
    decreases |s|
  {
    if |s| > 0 {
      FilterCompose(s[1..], p, q, both);
      if p(s[0]) {
        var fp := Filter(s, p);
        assert fp == [s[0]] + Filter(s[1..], p);
        assert fp[0] == s[0] && fp[1..] == Filter(s[1..], p);
        assert Filter(fp, q) == (if q(s[0]) then [s[0]] else []) + Filter(fp[1..], q);
      } else {
        assert Filter(s, p) == Filter(s[1..], p);
      }
    }
  }

  /** Filters by two tests that agree on every element give the same list. */
  lemma {:induction false} FilterCongruent<T>(s: seq<T>, p: T -> bool, q: T -> bool)
    requires forall x :: p(x) == q(x)
    ensures Filter(s, p) == Filter(s, q)
    decreases |s|
  {
    if |s| > 0 {
      FilterCongruent(s[1..], p, q);
    }
  }

  /** A filter that every element passes returns its input. */
  lemma {:induction false} FilterAllPass<T>(s: seq<T>, p: T -> bool)
    requires forall i :: 0 <= i < |s| ==> p(s[i])
    ensures Filter(s, p) == s
    decreases |s|
  {
    if |s| > 0 {
      FilterAllPass(s[1..], p);
    }
  }

  /** A filter keeps a list where it removes none, so filtering is idempotent. */
  lemma FilterIdempotent<T>(s: seq<T>, p: T -> bool)
    ensures Filter(Filter(s, p), p) == Filter(s, p)
  {
    var r := Filter(s, p);
    assert forall i :: 0 <= i < |r| ==> r[i] in r;
    FilterAllPass(r, p);
  }

  /** The number of elements that pass `p`. */
  function Count<T(==)>(s: seq<T>, p: T -> bool): nat {
    |Filter(s, p)|
  }

  /** How `slice` resolves one relative index against a length. */
  function SliceIndex(rel: int, len: nat): (k: nat)
    ensures k <= len
  {
    if rel < 0 then (if len + rel < 0 then 0 else len + rel)
    else if rel < len then rel else len
  }

  /** `s.slice(start, end)`: negative indices count from the end, both are
      clamped to the length, and an empty range gives `[]`. */
  function JsSlice<T>(s: seq<T>, start: int, end: int): (r: seq<T>)
    ensures |r| <= |s|
    ensures forall i :: 0 <= i < |r| ==> r[i] in s
  {
    var from := SliceIndex(start, |s|);
    var to := SliceIndex(end, |s|);
    if from < to then s[from..to] else []
  }

  /** With a non-negative offset and length, `slice(offset, offset + n)` is the
      window `[offset, offset + n)` of `s`, cut at its end: never longer than `n`. */
  lemma JsSliceWindow<T>(s: seq<T>, offset: int, n: int)
    requires offset >= 0 && n >= 0
    ensures |JsSlice(s, offset, offset + n)| <= n
    ensures offset <= |s| ==> JsSlice(s, offset, offset + n) == s[offset..if offset + n < |s| then offset + n else |s|]
    ensures offset >= |s| ==> JsSlice(s, offset, offset + n) == []
  {
  }
}
