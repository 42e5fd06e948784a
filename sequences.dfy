/** Order-preserving filtering of sequences, the `Array.prototype.filter` that
    the listing filter, the saved-list removal and the phone-digit stripping
    all use, together with the subsequence relation it establishes. */
module Sequences {

  /** `r` can be obtained from `s` by deleting elements, keeping the order of
      those that remain. */
  ghost predicate IsSubsequenceOf<T>(r: seq<T>, s: seq<T>)
    decreases |s|
  {
    if r == [] then true
    else if s == [] then false
    else (r[0] == s[0] && IsSubsequenceOf(r[1..], s[1..])) || IsSubsequenceOf(r, s[1..])
  }

  /** The elements of `s` for which `f` holds, in their original order. */
  function Filter<T>(s: seq<T>, f: T -> bool): (r: seq<T>)
    ensures |r| <= |s|
    ensures forall k :: 0 <= k < |r| ==> f(r[k])
    ensures forall x :: x in r ==> x in s
  {
    if s == [] then []
    else if f(s[0]) then [s[0]] + Filter(s[1..], f)
    else Filter(s[1..], f)
  }

  /** Every element that passes the test is kept. */
  lemma {:induction false} FilterComplete<T>(s: seq<T>, f: T -> bool)
    ensures forall k :: 0 <= k < |s| && f(s[k]) ==> s[k] in Filter(s, f)
  {
    if s != [] {
      FilterComplete(s[1..], f);
      forall k | 0 < k < |s| && f(s[k])
        ensures s[k] in Filter(s, f)
      {
        assert s[k] == s[1..][k - 1];
      }
    }
  }

  /** The result holds every passing element as many times as the input does,
      and no other element. */
  lemma {:induction false} FilterCount<T>(s: seq<T>, f: T -> bool)
    ensures forall x :: multiset(Filter(s, f))[x] == if f(x) then multiset(s)[x] else 0
  {
    if s != [] {
      FilterCount(s[1..], f);
      assert s == [s[0]] + s[1..];
      assert multiset(s) == multiset([s[0]]) + multiset(s[1..]);
    }
  }

  /** The result keeps the order of the input. */
  lemma {:induction false} FilterIsSubsequence<T>(s: seq<T>, f: T -> bool)
    ensures IsSubsequenceOf(Filter(s, f), s)
  {
    if s != [] {
      FilterIsSubsequence(s[1..], f);
      var r := Filter(s, f);
      if f(s[0]) {
        assert r[0] == s[0] && r[1..] == Filter(s[1..], f);
      } else if r != [] {
        assert r == Filter(s[1..], f);
      }
    }
  }

  /** Filtering removes nothing exactly when every element passes. */
  lemma {:induction false} FilterKeepsAll<T>(s: seq<T>, f: T -> bool)
    ensures Filter(s, f) == s <==> forall k :: 0 <= k < |s| ==> f(s[k])
  {
    if s != [] {
      FilterKeepsAll(s[1..], f);
      if !f(s[0]) {
        assert |Filter(s, f)| < |s|;
      } else if Filter(s, f) == s {
        assert Filter(s[1..], f) == s[1..];
        forall k | 0 < k < |s| ensures f(s[k]) {
          assert s[k] == s[1..][k - 1];
        }
      } else {
        assert Filter(s[1..], f) != s[1..];
      }
    }
  }

  /** Filtering keeps nothing exactly when no element passes. */
  lemma FilterDropsAll<T>(s: seq<T>, f: T -> bool)
    ensures Filter(s, f) == [] <==> forall k :: 0 <= k < |s| ==> !f(s[k])
  {
    FilterComplete(s, f);
    if Filter(s, f) != [] {
      assert f(Filter(s, f)[0]) && Filter(s, f)[0] in s;
    }
  }

  /** Filtering twice with the same test is filtering once. */
  lemma FilterIdempotent<T>(s: seq<T>, f: T -> bool)
    ensures Filter(Filter(s, f), f) == Filter(s, f)
  {
    FilterKeepsAll(Filter(s, f), f);
  }

  /** Filtering distributes over concatenation. */
  lemma {:induction false} FilterAppend<T>(a: seq<T>, b: seq<T>, f: T -> bool)
    ensures Filter(a + b, f) == Filter(a, f) + Filter(b, f)
  {
    if a == [] {
      assert a + b == b;
    } else {
      assert (a + b)[0] == a[0] && (a + b)[1..] == a[1..] + b;
      FilterAppend(a[1..], b, f);
    }
  }
}
