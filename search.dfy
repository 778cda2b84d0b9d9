/**
  The search-box handlers: lower-case the typed term; an empty term lists every
  entry, any other term lists the entries one of whose searchable fields,
  lower-cased, contains it, in index order.
 */
module Search {
  import opened Text
  import opened Sequences

  /** Some field, lower-cased, contains `term` (the `a.toLowerCase().includes(term) || ...` chain). */
  predicate AnyFieldContains(fields: seq<string>, term: string): (b: bool)
    // an entry with no searchable field never matches; the empty term matches any other entry
    ensures b ==> fields != []
    ensures term == "" ==> (b <==> fields != [])
  {
    if fields == [] then false
    else
      ContainsEmpty(Lower(fields[0]));
      exists i :: 0 <= i < |fields| && Contains(Lower(fields[i]), term)
  }

  /** `all.filter(e => <some searchable field of e contains term>)`. */
  function Matching<E>(all: seq<E>, searchable: E -> seq<string>, term: string): (found: seq<E>)
    ensures forall i :: 0 <= i < |found| ==> found[i] in all && AnyFieldContains(searchable(found[i]), term)
    ensures forall i :: 0 <= i < |all| && AnyFieldContains(searchable(all[i]), term) ==> all[i] in found
    ensures multiset(found) <= multiset(all)
    ensures forall i :: 0 <= i < |all| && AnyFieldContains(searchable(all[i]), term) ==>
      multiset(found)[all[i]] == multiset(all)[all[i]]
  {
    Filter(all, e => AnyFieldContains(searchable(e), term))
  }

  /** The list a search handler renders for the raw input `raw`: with the `if (!term)` shortcut. */
  function Listed<E>(all: seq<E>, searchable: E -> seq<string>, raw: string): (listed: seq<E>)
    ensures |listed| <= |all|
    ensures multiset(listed) <= multiset(all)
    // an entry the term selects is listed as many times as the index holds it
    ensures forall i :: 0 <= i < |all| && (Lower(raw) == "" || AnyFieldContains(searchable(all[i]), Lower(raw))) ==>
      multiset(listed)[all[i]] == multiset(all)[all[i]]
  {
    var term := Lower(raw);
    if term == "" then all else Matching(all, searchable, term)
  }

  /** An empty input lists every entry, in index order. */
  lemma ListedEmptyInput<E>(all: seq<E>, searchable: E -> seq<string>)
    ensures Listed(all, searchable, "") == all
  {
  }

  /** A non-empty input lists exactly the entries with a matching field, as a subsequence of the index. */
  lemma ListedExactly<E>(all: seq<E>, searchable: E -> seq<string>, raw: string)
    requires raw != ""
    ensures forall i :: 0 <= i < |Listed(all, searchable, raw)| ==>
      Listed(all, searchable, raw)[i] in all && AnyFieldContains(searchable(Listed(all, searchable, raw)[i]), Lower(raw))
    ensures forall i :: 0 <= i < |all| && AnyFieldContains(searchable(all[i]), Lower(raw)) ==> all[i] in Listed(all, searchable, raw)
    ensures Subsequence(Listed(all, searchable, raw), all)
    ensures multiset(Listed(all, searchable, raw)) <= multiset(all)
    ensures forall i :: 0 <= i < |all| && AnyFieldContains(searchable(all[i]), Lower(raw)) ==>
      multiset(Listed(all, searchable, raw))[all[i]] == multiset(all)[all[i]]
  {
    FilterIsSubsequence(all, e => AnyFieldContains(searchable(e), Lower(raw)));
  }

  /** Membership form of `ListedExactly`: a non-empty input lists an entry exactly when the entry
      is in the index and one of its searchable fields matches. */
  lemma ListedMember<E>(all: seq<E>, searchable: E -> seq<string>, raw: string, x: E)
    requires raw != ""
    ensures x in Listed(all, searchable, raw) <==> x in all && AnyFieldContains(searchable(x), Lower(raw))
  {
    ListedExactly(all, searchable, raw);
    var r := Listed(all, searchable, raw);
    if x in r {
      var i :| 0 <= i < |r| && r[i] == x;
    }
    if x in all && AnyFieldContains(searchable(x), Lower(raw)) {
      var i :| 0 <= i < |all| && all[i] == x;
    }
  }

  /** The search ignores the case of the typed input. */
  lemma ListedIgnoresInputCase<E>(all: seq<E>, searchable: E -> seq<string>, raw: string)
    ensures Listed(all, searchable, raw) == Listed(all, searchable, Lower(raw))
  {
    LowerIdempotent(raw);
  }

  /** Filtering with the empty term keeps every entry that has at least one searchable field:
      the `if (!term)` shortcut agrees with the filter it skips. */
  lemma {:induction false} EmptyTermMatchesAll<E>(all: seq<E>, searchable: E -> seq<string>)
    requires forall i :: 0 <= i < |all| ==> |searchable(all[i])| > 0
    ensures Matching(all, searchable, "") == all
  {
    forall i | 0 <= i < |all|
      ensures AnyFieldContains(searchable(all[i]), "")
    {
      ContainsEmpty(Lower(searchable(all[i])[0]));
    }
    FilterKeepsAll(all, e => AnyFieldContains(searchable(e), ""));
  }

  /** A search whose result is empty is one where no entry has a matching field. */
  lemma {:induction false} NothingListedMeansNoMatch<E>(all: seq<E>, searchable: E -> seq<string>, raw: string)
    requires Listed(all, searchable, raw) == []
    ensures forall i :: 0 <= i < |all| ==> !AnyFieldContains(searchable(all[i]), Lower(raw))
  {
    if Lower(raw) == "" {
      assert all == [];
    }
  }
}
