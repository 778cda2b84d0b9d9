/**
  The string operations the coordinators rely on: `toLowerCase`, `includes`
  and the `a || b` fallback of JavaScript strings.
  Lower-casing is modelled on ASCII letters only.
 */
module Text {

  /** Lower-case one character: 'A'..'Z' map to 'a'..'z', every other character is kept. */
  function LowerChar(c: char): char
  {
    if 'A' <= c <= 'Z' then (c as int + 32) as char else c
  }

  /** `s.toLowerCase()`, restricted to ASCII letters. */
  function Lower(s: string): (r: string)
    ensures |r| == |s|
    ensures forall i :: 0 <= i < |s| ==> r[i] == LowerChar(s[i])
  {
    if s == [] then [] else [LowerChar(s[0])] + Lower(s[1..])
  }

  /** Lower-casing twice is lower-casing once. */
  lemma LowerIdempotent(s: string)
    ensures Lower(Lower(s)) == Lower(s)
  {
  }

  /** Lower-casing distributes over concatenation, so a joined string is the join of the lower-cased parts. */
  lemma {:induction false} LowerAppend(a: string, b: string)
    ensures Lower(a + b) == Lower(a) + Lower(b)
  {
    if a == [] {
      assert a + b == b;
    } else {
      assert (a + b)[1..] == a[1..] + b;
      LowerAppend(a[1..], b);
    }
  }

  /** `t` occurs in `s` starting at position `i`. */
  predicate OccursAt(s: string, t: string, i: nat)
  {
    i + |t| <= |s| && s[i..i + |t|] == t
  }

  /** An occurrence one past the start of `s` is an occurrence in `s[1..]`. */
  lemma OccursAtShift(s: string, t: string, i: nat)
    requires s != []
    ensures OccursAt(s, t, i + 1) <==> OccursAt(s[1..], t, i)
  {
    if i + 1 + |t| <= |s| {
      var here, there := s[i + 1..i + 1 + |t|], s[1..][i..i + |t|];
      forall k | 0 <= k < |t|
        ensures here[k] == there[k]
      {
        assert here[k] == s[i + 1 + k];
        assert there[k] == s[1..][i + k] == s[i + 1 + k];
      }
      assert here == there;
    }
  }

  /** `s.includes(t)`: `t` is a prefix of `s` or of one of its suffixes, which is the same as
      occurring at some position of `s`. */
  predicate Contains(s: string, t: string): (b: bool)
    ensures b <==> exists i: nat :: OccursAt(s, t, i)
    decreases |s|
  {
    if t <= s then
      assert OccursAt(s, t, 0);
      true
    else if s == [] then
      assert forall i: nat :: !OccursAt(s, t, i);
      false
    else
      var b := Contains(s[1..], t);
      forall i: nat
        ensures OccursAt(s, t, i + 1) <==> OccursAt(s[1..], t, i)
      {
        OccursAtShift(s, t, i);
      }
      assert !OccursAt(s, t, 0);
      assert forall i: nat :: OccursAt(s, t, i) ==> i > 0 && OccursAt(s[1..], t, i - 1);
      b
  }

  /** Every string contains the empty string, so an empty search term matches everything. */
  lemma ContainsEmpty(s: string)
    ensures Contains(s, "")
  {
  }

  /** An occurrence in the left part is an occurrence in the concatenation. */
  lemma {:induction false} ContainsInLeft(a: string, b: string, t: string)
    requires Contains(a, t)
    ensures Contains(a + b, t)
    decreases |a|
  {
    if t <= a {
      assert (a + b)[..|t|] == a[..|t|];
    } else {
      assert (a + b)[1..] == a[1..] + b;
      ContainsInLeft(a[1..], b, t);
    }
  }

  /** An occurrence in the right part is an occurrence in the concatenation. */
  lemma {:induction false} ContainsInRight(a: string, b: string, t: string)
    requires Contains(b, t)
    ensures Contains(a + b, t)
    decreases |a|
  {
    if a == [] {
      assert a + b == b;
    } else {
      assert (a + b)[1..] == a[1..] + b;
      ContainsInRight(a[1..], b, t);
    }
  }

  /** An occurrence may straddle the boundary of a concatenation without lying in either part. */
  lemma MatchMaySpanBoundary()
    ensures Contains("ab" + "cd", "bc")
    ensures !Contains("ab", "bc") && !Contains("cd", "bc")
  {
    assert "ab" + "cd" == "abcd";
    assert "abcd"[1..] == "bcd";
    assert "bc" <= "bcd";
    assert "ab"[1..] == "b" && "b"[1..] == "";
    assert "ab"[0] != "bc"[0] && !Contains("", "bc") && !Contains("b", "bc");
    assert "cd"[1..] == "d" && "d"[1..] == "";
    assert "cd"[0] != "bc"[0] && !Contains("d", "bc");
  }

  /** `s || fallback`: the empty string is falsy, so it gives way to the fallback. */
  function OrElse(s: string, fallback: string): (r: string)
    ensures r == s || r == fallback
    ensures r == "" ==> s == "" && fallback == ""
    ensures s != "" ==> r == s
  {
    if s != "" then s else fallback
  }
}
