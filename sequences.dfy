/**
  `Array.prototype.filter` and `Array.prototype.find`, as used on the entry lists
  of every page, with the facts the pages rely on: a filter keeps exactly the
  entries its predicate accepts, in their original order.
 */
module Sequences {
  import opened Wrappers

  /** `xs.filter(keep)`. */
  function Filter<E>(xs: seq<E>, keep: E -> bool): (r: seq<E>)
    ensures |r| <= |xs|
    ensures forall i :: 0 <= i < |r| ==> r[i] in xs && keep(r[i])
    ensures forall i :: 0 <= i < |xs| && keep(xs[i]) ==> xs[i] in r
    // nothing is added, and every kept entry appears as often as in `xs`, duplicates included
    ensures multiset(r) <= multiset(xs)
    ensures forall i :: 0 <= i < |xs| && keep(xs[i]) ==> multiset(r)[xs[i]] == multiset(xs)[xs[i]]
  {
    if xs == [] then []
    else
      assert xs == [xs[0]] + xs[1..];
      assert multiset(xs) == multiset{xs[0]} + multiset(xs[1..]);
      if keep(xs[0]) then [xs[0]] + Filter(xs[1..], keep) else Filter(xs[1..], keep)
  }

  /** `sub` can be obtained from `s` by deleting elements, without reordering the rest. */
  ghost predicate Subsequence<E>(sub: seq<E>, s: seq<E>)
    decreases |s|
  {
    sub == [] || (s != [] && ((sub[0] == s[0] && Subsequence(sub[1..], s[1..])) || Subsequence(sub, s[1..])))
  }

  /** A filter result keeps the relative order of the entries it keeps. */
  lemma {:induction false} FilterIsSubsequence<E>(xs: seq<E>, keep: E -> bool)
    ensures Subsequence(Filter(xs, keep), xs)
    decreases |xs|
  {
    if xs != [] {
      FilterIsSubsequence(xs[1..], keep);
      if keep(xs[0]) {
        assert ([xs[0]] + Filter(xs[1..], keep))[1..] == Filter(xs[1..], keep);
      }
    }
  }

  /** A predicate that accepts every entry leaves the list as it was. */
  lemma {:induction false} FilterKeepsAll<E>(xs: seq<E>, keep: E -> bool)
    requires forall i :: 0 <= i < |xs| ==> keep(xs[i])
    ensures Filter(xs, keep) == xs
    decreases |xs|
  {
    if xs != [] {
      FilterKeepsAll(xs[1..], keep);
      assert xs == [xs[0]] + xs[1..];
    }
  }

  /** The index `xs.find(p)` stops at: the first entry satisfying `p`, if any. */
  function FindFirst<E>(xs: seq<E>, p: E -> bool): (r: Option<nat>)
    ensures r.Some? ==> r.value < |xs| && p(xs[r.value])
    ensures r.Some? ==> forall j :: 0 <= j < r.value ==> !p(xs[j])
    ensures r.None? <==> forall j :: 0 <= j < |xs| ==> !p(xs[j])
    decreases |xs|
  {
    if xs == [] then None
    else if p(xs[0]) then Some(0)
    else
      match FindFirst(xs[1..], p)
      case None => None
      case Some(i) => Some(i + 1)
  }
}
