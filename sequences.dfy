/**
 * The collection operations the audio layer uses: LINQ's order-preserving
 * `Where`, skipping null entries while building a list, and a linear search
 * for the first element with a given key.
 */
module Sequences {
  import opened Wrappers

  /** `Where`: the elements satisfying `p`, in their original order. */
  function Keep<T>(s: seq<T>, p: T -> bool): (r: seq<T>)
    ensures |r| <= |s|
  {
    if s == [] then [] else Keep(s[..|s| - 1], p) + (if p(s[|s| - 1]) then [s[|s| - 1]] else [])
  }

  /** `sub` can be obtained from `s` by deleting elements. */
  predicate IsSubsequence<T(==)>(sub: seq<T>, s: seq<T>)
    decreases |s|
  {
    if sub == [] then true
    else if s == [] then false
    else if sub[|sub| - 1] == s[|s| - 1] then IsSubsequence(sub[..|sub| - 1], s[..|s| - 1])
    else IsSubsequence(sub, s[..|s| - 1])
  }

  lemma {:induction false} KeepMembers<T>(s: seq<T>, p: T -> bool, x: T)
    ensures x in Keep(s, p) <==> x in s && p(x)
  {
    if s != [] {
      KeepMembers(s[..|s| - 1], p, x);
      assert s == s[..|s| - 1] + [s[|s| - 1]];
    }
  }

  /** `Where` keeps every occurrence of a satisfying element and none of the others. */
  lemma {:induction false} KeepCounts<T>(s: seq<T>, p: T -> bool, x: T)
    ensures multiset(Keep(s, p))[x] == if p(x) then multiset(s)[x] else 0
  {
    if s != [] {
      KeepCounts(s[..|s| - 1], p, x);
      assert s == s[..|s| - 1] + [s[|s| - 1]];
    }
  }

  lemma {:induction false} KeepAll<T>(s: seq<T>, p: T -> bool)
    ensures (forall i :: 0 <= i < |Keep(s, p)| ==> p(Keep(s, p)[i]))
  {
    if s != [] {
      KeepAll(s[..|s| - 1], p);
    }
  }

  lemma {:induction false} KeepIsSubsequence<T>(s: seq<T>, p: T -> bool)
    ensures IsSubsequence(Keep(s, p), s)
  {
    if s != [] {
      var init := s[..|s| - 1];
      KeepIsSubsequence(init, p);
      if !p(s[|s| - 1]) {
        assert Keep(s, p) == Keep(init, p);
        SubsequenceOfPrefix(Keep(init, p), init, s[|s| - 1]);
      } else {
        assert Keep(s, p)[..|Keep(s, p)| - 1] == Keep(init, p);
      }
    }
  }

  /** Appending an element to the larger sequence keeps a subsequence one. */
  lemma {:induction false} SubsequenceOfPrefix<T>(sub: seq<T>, s: seq<T>, x: T)
    requires IsSubsequence(sub, s)
    ensures IsSubsequence(sub, s + [x])
    decreases |s|, 1
  {
    assert (s + [x])[..|s|] == s;
    if sub != [] && sub[|sub| - 1] == x {
      SubsequencePrefix(sub, s);
    }
  }

  /** Dropping the last element of a subsequence keeps it a subsequence. */
  lemma {:induction false} SubsequencePrefix<T>(sub: seq<T>, s: seq<T>)
    requires sub != [] && IsSubsequence(sub, s)
    ensures IsSubsequence(sub[..|sub| - 1], s)
    decreases |s|, 0
  {
    var init := sub[..|sub| - 1];
    if s != [] {
      if sub[|sub| - 1] == s[|s| - 1] {
        if init != [] {
          SubsequencePrefix(init, s[..|s| - 1]);
        }
        SubsequenceOfPrefix(init, s[..|s| - 1], s[|s| - 1]);
        assert s[..|s| - 1] + [s[|s| - 1]] == s;
      } else {
        SubsequencePrefix(sub, s[..|s| - 1]);
        SubsequenceOfPrefix(init, s[..|s| - 1], s[|s| - 1]);
        assert s[..|s| - 1] + [s[|s| - 1]] == s;
      }
    }
  }

  /** Filtering twice by the same test is filtering once. */
  lemma {:induction false} KeepIdempotent<T>(s: seq<T>, p: T -> bool)
    ensures Keep(Keep(s, p), p) == Keep(s, p)
  {
    if s != [] {
      var init := s[..|s| - 1];
      KeepIdempotent(init, p);
      if p(s[|s| - 1]) {
        var k := Keep(s, p);
        assert k == Keep(init, p) + [s[|s| - 1]];
        assert k[..|k| - 1] == Keep(init, p) && k[|k| - 1] == s[|s| - 1];
        assert Keep(k, p) == Keep(k[..|k| - 1], p) + [k[|k| - 1]];
      } else {
        assert Keep(s, p) == Keep(init, p);
      }
    }
  }

  /** The present values of a sequence of optional ones, in order. */
  function Present<T>(s: seq<Option<T>>): (r: seq<T>)
    ensures |r| <= |s|
  {
    if s == [] then []
    else Present(s[..|s| - 1]) + (if s[|s| - 1].Some? then [s[|s| - 1].value] else [])
  }

  lemma {:induction false} PresentMembers<T>(s: seq<Option<T>>, x: T)
    ensures x in Present(s) <==> Some(x) in s
  {
    if s != [] {
      PresentMembers(s[..|s| - 1], x);
      assert s == s[..|s| - 1] + [s[|s| - 1]];
    }
  }

  /** The index of the first occurrence of `x` in `s`, if any. */
  function FirstIndex<T(==)>(s: seq<T>, x: T): (r: Option<nat>)
    ensures r.None? <==> x !in s
    ensures r.Some? ==> r.value < |s| && s[r.value] == x && x !in s[..r.value]
  {
    if s == [] then None
    else if s[0] == x then Some(0)
    else
      var r := FirstIndex(s[1..], x);
      assert s == [s[0]] + s[1..];
      if r.None? then None else
        assert s[..r.value + 1] == [s[0]] + s[1..][..r.value];
        Some(r.value + 1)
  }

  /** How far a first-match scan gets: up to and excluding the match, or to the end. */
  function ScannedBefore<T(==)>(s: seq<T>, x: T): (n: nat)
    ensures n <= |s| && x !in s[..n]
    ensures n < |s| ==> s[n] == x
  {
    match FirstIndex(s, x)
    case None => |s|
    case Some(k) => k
  }

  /** No element occurs twice. */
  predicate NoDuplicates<T(==)>(s: seq<T>) {
    forall i, j :: 0 <= i < j < |s| ==> s[i] != s[j]
  }

  /** In a sequence without duplicates, an element of a prefix occurs in it exactly once. */
  lemma {:induction false} PrefixCountsOnce<T>(s: seq<T>, n: nat, j: nat)
    requires NoDuplicates(s) && j < n <= |s|
    ensures multiset(s[..n])[s[j]] == 1
  {
    assert s[..n] == s[..n - 1] + [s[n - 1]];
    if j < n - 1 {
      PrefixCountsOnce(s, n - 1, j);
      assert s[j] != s[n - 1];
    } else {
      PrefixLacksNext(s, n - 1);
    }
  }

  /** In a sequence without duplicates, the element after a prefix does not occur in it. */
  lemma PrefixLacksNext<T>(s: seq<T>, n: nat)
    requires NoDuplicates(s) && n < |s|
    ensures multiset(s[..n])[s[n]] == 0
  {
    assert s[n] !in s[..n];
  }
}
