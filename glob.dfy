/** Shell-style name matching as `fnmatch.fnmatch` does it on POSIX for
    the two wildcards blogme's patterns use: `*` matches any run of
    characters (slashes included) and `?` any single character; every other
    character matches itself. */
module Glob {
  import opened Paths

  predicate IsWildcard(c: char) { c == '*' || c == '?' }

  /** A pattern without wildcards. */
  predicate Literal(p: string) {
    forall i | 0 <= i < |p| :: !IsWildcard(p[i])
  }

  predicate Matches(name: string, pattern: string)
    decreases |name| + |pattern|
  {
    if pattern == [] then name == []
    else if pattern[0] == '*' then
      Matches(name, pattern[1..]) || (name != [] && Matches(name[1..], pattern))
    else
      name != [] && (pattern[0] == '?' || pattern[0] == name[0]) && Matches(name[1..], pattern[1..])
  }

  /** A lone star matches every name, the empty one included. */
  lemma {:induction false} StarMatchesAll(name: string)
    ensures Matches(name, "*")
    decreases |name|
  {
    if name != [] {
      StarMatchesAll(name[1..]);
    }
  }

  /** A pattern without wildcards matches exactly itself. */
  lemma {:induction false} LiteralMatchesItselfOnly(name: string, p: string)
    requires Literal(p)
    ensures Matches(name, p) <==> name == p
    decreases |p|
  {
    if p != [] && name != [] {
      assert Literal(p[1..]);
      LiteralMatchesItselfOnly(name[1..], p[1..]);
      if name[1..] == p[1..] && name[0] == p[0] {
        assert name == [name[0]] + name[1..] && p == [p[0]] + p[1..];
      }
    }
  }

  /** `*<suffix>` (such as `*.md`) matches exactly the names ending in the suffix. */
  lemma {:induction false} StarSuffix(name: string, suffix: string)
    requires Literal(suffix)
    ensures Matches(name, "*" + suffix) <==> EndsWith(name, suffix)
    decreases |name|
  {
    var p := "*" + suffix;
    assert p[1..] == suffix;
    LiteralMatchesItselfOnly(name, suffix);
    if name != [] {
      StarSuffix(name[1..], suffix);
      assert EndsWith(name, suffix) <==> name == suffix || EndsWith(name[1..], suffix) by {
        if |suffix| < |name| {
          assert name[|name| - |suffix|..] == name[1..][|name| - 1 - |suffix|..];
        }
      }
    }
  }

  /** `<prefix>*` (such as `_*` or `README.*`) matches exactly the names starting with the prefix. */
  lemma {:induction false} PrefixStar(name: string, prefix: string)
    requires Literal(prefix)
    ensures Matches(name, prefix + "*") <==> StartsWith(name, prefix)
    decreases |prefix|
  {
    var p := prefix + "*";
    if prefix == [] {
      assert p == "*";
      StarMatchesAll(name);
    } else {
      assert p[1..] == prefix[1..] + "*";
      assert Literal(prefix[1..]);
      if name != [] {
        PrefixStar(name[1..], prefix[1..]);
        assert StartsWith(name, prefix) <==> name[0] == prefix[0] && StartsWith(name[1..], prefix[1..]) by {
          if |prefix| <= |name| {
            assert name[..|prefix|] == [name[0]] + name[1..][..|prefix| - 1];
            assert prefix == [prefix[0]] + prefix[1..];
          }
        }
      }
    }
  }
  /** A pattern that opens with a literal part only matches names opening
      with that part, whatever the rest of the pattern is. */
  lemma {:induction false} LiteralPrefix(name: string, prefix: string, rest: string)
    requires Literal(prefix)
    requires Matches(name, prefix + rest)
    ensures StartsWith(name, prefix)
    decreases |prefix|
  {
    if prefix != [] {
      var p := prefix + rest;
      assert p[0] == prefix[0] && p[1..] == prefix[1..] + rest;
      assert Literal(prefix[1..]);
      LiteralPrefix(name[1..], prefix[1..], rest);
      assert name[..|prefix|] == [name[0]] + name[1..][..|prefix| - 1];
      assert prefix == [prefix[0]] + prefix[1..];
    }
  }
}
