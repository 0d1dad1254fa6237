/**
 * The array operations the app builds its collections with: `filter`,
 * `map` with a conditional replacement, and `find`, over Dafny sequences.
 */
module Seqs {
  import opened Wrappers

  /** `s.filter(keep)`: the elements of `s` that satisfy `keep`, in order. */
  function Filter<T>(s: seq<T>, keep: T -> bool): (r: seq<T>)
    ensures |r| <= |s|
    ensures forall i :: 0 <= i < |r| ==> keep(r[i])
    ensures forall i :: 0 <= i < |s| && keep(s[i]) ==> s[i] in r
    ensures forall x :: x in r ==> x in s
  {
    if s == [] then []
    else if keep(s[0]) then [s[0]] + Filter(s[1..], keep)
    else Filter(s[1..], keep)
  }

  /**
   * A filter keeps every copy of a kept element and no copy of a dropped
   * one: the multiplicities of `Array.filter`.
   */
  lemma {:induction false} FilterMultiplicity<T>(s: seq<T>, keep: T -> bool)
    ensures forall i :: 0 <= i < |s| ==>
              multiset(Filter(s, keep))[s[i]] == if keep(s[i]) then multiset(s)[s[i]] else 0
    decreases |s|
  {
    if s != [] {
      var rest := Filter(s[1..], keep);
      var r := Filter(s, keep);
      FilterMultiplicity(s[1..], keep);
      assert s == [s[0]] + s[1..];
      assert multiset(s) == multiset{s[0]} + multiset(s[1..]);
      assert multiset(r) == (if keep(s[0]) then multiset{s[0]} else multiset{}) + multiset(rest);
      assert s[0] !in s[1..] ==> multiset(rest)[s[0]] == 0;
      forall i | 0 <= i < |s|
        ensures multiset(r)[s[i]] == if keep(s[i]) then multiset(s)[s[i]] else 0
      {
        if i > 0 {
          assert s[i] == s[1..][i - 1];
        }
      }
    }
  }

  /** `r` is `s` with some elements dropped and the rest kept in their order. */
  predicate IsSubsequence<T(==)>(r: seq<T>, s: seq<T>)
    decreases |s|
  {
    if r == [] then true
    else if s == [] then false
    else (r[0] == s[0] && IsSubsequence(r[1..], s[1..])) || IsSubsequence(r, s[1..])
  }

  lemma {:induction false} FilterIsSubsequence<T>(s: seq<T>, keep: T -> bool)
    ensures IsSubsequence(Filter(s, keep), s)
    decreases |s|
  {
    if s != [] {
      FilterIsSubsequence(s[1..], keep);
      var r := Filter(s, keep);
      if keep(s[0]) {
        assert r[0] == s[0] && r[1..] == Filter(s[1..], keep);
      } else if r != [] {
        assert r == Filter(s[1..], keep);
      }
    }
  }

  /** A filter that every element passes changes nothing. */
  lemma {:induction false} FilterKeepsAll<T>(s: seq<T>, keep: T -> bool)
    requires forall i :: 0 <= i < |s| ==> keep(s[i])
    ensures Filter(s, keep) == s
    decreases |s|
  {
    if s != [] {
      assert keep(s[0]);
      assert forall i :: 0 <= i < |s[1..]| ==> keep(s[1..][i]) by {
        forall i | 0 <= i < |s[1..]| ensures keep(s[1..][i]) {
          assert s[1..][i] == s[i + 1];
        }
      }
      FilterKeepsAll(s[1..], keep);
      assert s == [s[0]] + s[1..];
    }
  }

  /** Filtering twice by the same predicate is filtering once. */
  lemma {:induction false} FilterIdempotent<T>(s: seq<T>, keep: T -> bool)
    ensures Filter(Filter(s, keep), keep) == Filter(s, keep)
  {
    FilterKeepsAll(Filter(s, keep), keep);
  }

  /** Filtering distributes over appending one element. */
  lemma {:induction false} FilterAppend<T>(s: seq<T>, x: T, keep: T -> bool)
    ensures Filter(s + [x], keep) == Filter(s, keep) + (if keep(x) then [x] else [])
    decreases |s|
  {
    if s == [] {
      assert s + [x] == [x];
    } else {
      assert (s + [x])[1..] == s[1..] + [x];
      FilterAppend(s[1..], x, keep);
    }
  }

  /**
   * Counting by two predicates that never hold together is counting by
   * their disjunction `both`.
   */
  lemma {:induction false} FilterCountsAdd<T>(s: seq<T>, p: T -> bool, q: T -> bool, both: T -> bool)
    requires forall x :: !(p(x) && q(x))
    requires forall x :: both(x) == (p(x) || q(x))
    ensures |Filter(s, p)| + |Filter(s, q)| == |Filter(s, both)|
    decreases |s|
  {
    if s != [] {
      FilterCountsAdd(s[1..], p, q, both);
    }
  }

  /** Counting by a predicate and by its negation partitions the sequence. */
  lemma {:induction false} FilterCountsComplement<T>(s: seq<T>, p: T -> bool, notP: T -> bool)
    requires forall x :: notP(x) == !p(x)
    ensures |Filter(s, p)| + |Filter(s, notP)| == |s|
    decreases |s|
  {
    if s != [] {
      FilterCountsComplement(s[1..], p, notP);
    }
  }

  /** `s.map(x => hit(x) ? f(x) : x)`: replace every element that `hit` selects. */
  function Replace<T>(s: seq<T>, hit: T -> bool, f: T -> T): (r: seq<T>)
    ensures |r| == |s|
    ensures forall i :: 0 <= i < |s| && hit(s[i]) ==> r[i] == f(s[i])
    ensures forall i :: 0 <= i < |s| && !hit(s[i]) ==> r[i] == s[i]
  {
    if s == [] then [] else [if hit(s[0]) then f(s[0]) else s[0]] + Replace(s[1..], hit, f)
  }

  /** The position `s.find(hit)` stops at: the first element that `hit` selects, if any. */
  function FindIndex<T>(s: seq<T>, hit: T -> bool): (r: Option<nat>)
    ensures r.None? <==> forall i :: 0 <= i < |s| ==> !hit(s[i])
    ensures r.Some? ==> r.value < |s| && hit(s[r.value])
    ensures r.Some? ==> forall j :: 0 <= j < r.value ==> !hit(s[j])
  {
    if s == [] then None
    else if hit(s[0]) then Some(0)
    else match FindIndex(s[1..], hit)
      case None => None
      case Some(k) => Some(k + 1)
  }

  /** `s.find(hit)`: the first element that `hit` selects, if any. */
  function Find<T>(s: seq<T>, hit: T -> bool): (r: Option<T>)
    ensures r.None? <==> forall i :: 0 <= i < |s| ==> !hit(s[i])
    ensures r.Some? ==> exists k :: 0 <= k < |s| && s[k] == r.value && hit(s[k]) &&
                                    forall j :: 0 <= j < k ==> !hit(s[j])
  {
    match FindIndex(s, hit)
    case None => None
    case Some(k) => Some(s[k])
  }
}
