/** The array methods the source uses as expressions: `find`/`findIndex`/`some`
    (FirstIndex) and `filter` (Filter). */
module Seqs {

  /** `findIndex`: the index of the first element satisfying `p`, or -1. */
  function FirstIndex<T>(s: seq<T>, p: T -> bool): (i: int)
    ensures -1 <= i < |s|
    ensures i == -1 <==> forall k :: 0 <= k < |s| ==> !p(s[k])
    ensures 0 <= i ==> p(s[i]) && forall k :: 0 <= k < i ==> !p(s[k])
  {
    if |s| == 0 then -1
    else if p(s[0]) then 0
    else
      var j := FirstIndex(s[1..], p);
      if j == -1 then -1 else j + 1
  }

  /** `r` is obtained from `s` by deleting some elements, keeping the order. */
  predicate IsSubsequence<T(==)>(r: seq<T>, s: seq<T>)
    decreases |s|
  {
    r == [] || (s != [] && ((r[0] == s[0] && IsSubsequence(r[1..], s[1..])) || IsSubsequence(r, s[1..])))
  }

  /** `Array.prototype.filter`: keeps, in order, the elements satisfying `p`. */
  function Filter<T(==,!new)>(s: seq<T>, p: T -> bool): (r: seq<T>)
    ensures |r| <= |s|
    ensures forall x :: x in r <==> x in s && p(x)
    ensures IsSubsequence(r, s)
  {
    if s == [] then []
    else
      var rest := Filter(s[1..], p);
      if p(s[0]) then [s[0]] + rest else rest
  }

  /** A filtered sequence holds each element satisfying `p` exactly as often as
      the input does, and no other element. */
  lemma {:induction false} FilterCount<T(!new)>(s: seq<T>, p: T -> bool)
    ensures forall x :: multiset(Filter(s, p))[x] == if p(x) then multiset(s)[x] else 0
  {
    if s != [] {
      FilterCount(s[1..], p);
      assert s == [s[0]] + s[1..];
    }
  }

  /** A filter whose predicate holds everywhere returns its input. */
  lemma {:induction false} FilterAll<T(!new)>(s: seq<T>, p: T -> bool)
    requires forall x :: x in s ==> p(x)
    ensures Filter(s, p) == s
  {
    if s != [] {
      FilterAll(s[1..], p);
    }
  }

  /** Filters by predicates that agree on the input's elements give the same result. */
  lemma {:induction false} FilterCongruent<T(!new)>(s: seq<T>, p: T -> bool, q: T -> bool)
    requires forall x :: x in s ==> p(x) == q(x)
    ensures Filter(s, p) == Filter(s, q)
  {
    if s != [] {
      FilterCongruent(s[1..], p, q);
    }
  }
}
