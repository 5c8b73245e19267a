/**
 Shell-style patterns of literals, `*` and `?`, as Python's `fnmatch` reads them; patterns with
 bracket classes are not part of this model.
 */
module Glob {
  import opened AuthorizationEngine

  predicate Matches(name: string, pattern: string)
    decreases |pattern|, |name|
  {
    if pattern == "" then name == ""
    else if pattern[0] == '*' then Matches(name, pattern[1..]) || (name != "" && Matches(name[1..], pattern))
    else name != "" && (pattern[0] == '?' || pattern[0] == name[0]) && Matches(name[1..], pattern[1..])
  }

  predicate IsLiteral(pattern: string) {
    '*' !in pattern && '?' !in pattern
  }

  /** The matcher reads patterns without brackets like `fnmatch`. */
  ghost predicate ReadsGlobs(matches: Matcher) {
    forall name, pattern :: '[' !in pattern ==> matches(name, pattern) == Matches(name, pattern)
  }

  lemma {:induction false} MatchesItself(p: string)
    ensures Matches(p, p)
  {
    if p != "" {
      MatchesItself(p[1..]);
    }
  }

  lemma {:induction false} LiteralMatchesOnlyItself(name: string, p: string)
    requires IsLiteral(p) && Matches(name, p)
    ensures name == p
  {
    if p != "" {
      assert p[0] in p && forall c :: c in p[1..] ==> c in p;
      LiteralMatchesOnlyItself(name[1..], p[1..]);
      assert name == [name[0]] + name[1..] && p == [p[0]] + p[1..];
    }
  }

  lemma {:induction false} MatchesConcat(n: string, m: string, p: string, q: string)
    requires Matches(n, p) && Matches(m, q)
    ensures Matches(n + m, p + q)
    decreases |p|, |n|
  {
    if p == "" {
      assert n + m == m && p + q == q;
    } else {
      assert (p + q)[1..] == p[1..] + q && (p + q)[0] == p[0];
      if p[0] == '*' && Matches(n, p[1..]) {
        MatchesConcat(n, m, p[1..], q);
      } else {
        assert (n + m)[1..] == n[1..] + m && (n + m)[0] == n[0];
        MatchesConcat(n[1..], m, if p[0] == '*' then p else p[1..], q);
      }
    }
  }

  /** A pattern with a wildcard matches some other name too. */
  lemma {:induction false} WildcardMatchesAnother(p: string) returns (name: string)
    requires !IsLiteral(p)
    ensures Matches(name, p) && name != p
  {
    var i :| 0 <= i < |p| && (p[i] == '*' || p[i] == '?');
    var before, after := p[..i], p[i + 1..];
    assert p == before + ([p[i]] + after);
    MatchesItself(before);
    MatchesItself(after);
    var other := if p[i] == '*' then "" else "a";
    assert Matches(other, [p[i]]) by {
      assert [p[i]][1..] == "" && other != "" ==> other[1..] == "";
      assert Matches("", "");
    }
    MatchesConcat(other, after, [p[i]], after);
    MatchesConcat(before, other + after, before, [p[i]] + after);
    name := before + (other + after);
    assert p[i] == '?' ==> name[i] == 'a';
  }
}
