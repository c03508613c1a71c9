/**
 * Substring search as `strings.Contains` does it, with the declarative
 * meaning it is proved against.
 */
module Strings {

  /** `t` occurs in `s` at some offset. */
  ghost predicate IsInfix(t: string, s: string)
  {
    exists k :: 0 <= k <= |s| && StartsWith(s[k..], t)
  }

  /** `t` is a prefix of `s`. */
  predicate StartsWith(s: string, t: string)
  {
    |t| <= |s| && s[..|t|] == t
  }

  /** `strings.Contains(s, t)`: scan `s` left to right for an occurrence of `t`. */
  function Contains(s: string, t: string): (r: bool)
    decreases |s|
  {
    if StartsWith(s, t) then true
    else if |s| <= |t| then false
    else Contains(s[1..], t)
  }

  /** `Contains` finds exactly the occurrences `IsInfix` speaks of, both ways. */
  lemma {:induction false} ContainsIsInfix(s: string, t: string)
    ensures Contains(s, t) <==> IsInfix(t, s)
    decreases |s|
  {
    assert s[0..] == s;
    if StartsWith(s, t) {
    } else if |s| <= |t| {
      forall k | 0 <= k <= |s|
        ensures !StartsWith(s[k..], t)
      {
      }
    } else {
      ContainsIsInfix(s[1..], t);
      if IsInfix(t, s[1..]) {
        var k :| 0 <= k <= |s[1..]| && StartsWith(s[1..][k..], t);
        assert s[1..][k..] == s[k + 1..];
      }
      if IsInfix(t, s) {
        var k :| 0 <= k <= |s| && StartsWith(s[k..], t);
        assert k != 0;
        assert s[1..][k - 1..] == s[k..];
      }
    }
  }

  /** Whatever is put between a prefix and a suffix occurs in the result. */
  lemma InfixOfConcat(a: string, t: string, b: string)
    ensures IsInfix(t, a + t + b)
  {
    assert (a + t + b)[|a|..] == t + b;
  }

  /** A string built as `a + t + b` contains `t`, as `strings.Contains` sees it. */
  lemma ContainsConcat(a: string, t: string, b: string)
    ensures Contains(a + t + b, t)
  {
    InfixOfConcat(a, t, b);
    ContainsIsInfix(a + t + b, t);
  }

  /** An occurrence stays an occurrence when text is appended after it. */
  lemma ContainsAppendRight(s: string, t: string, u: string)
    requires Contains(s, t)
    ensures Contains(s + u, t)
  {
    ContainsIsInfix(s, t);
    var k :| 0 <= k <= |s| && StartsWith(s[k..], t);
    assert (s + u)[k..][..|t|] == s[k..][..|t|];
    ContainsIsInfix(s + u, t);
  }

  /** An occurrence stays an occurrence when text is put before it. */
  lemma ContainsAppendLeft(s: string, t: string, u: string)
    requires Contains(s, t)
    ensures Contains(u + s, t)
  {
    ContainsIsInfix(s, t);
    var k :| 0 <= k <= |s| && StartsWith(s[k..], t);
    assert (u + s)[|u| + k..] == s[k..];
    ContainsIsInfix(u + s, t);
  }
}
