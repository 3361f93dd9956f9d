/** The POSIX `os.path` and `str` operations the core relies on, written out
    so that the paths the model builds can be reasoned about. */
module Paths {

  /** Python's `s[n:]` for a non-negative `n`: empty once `n` passes the end. */
  function Drop(s: string, n: nat): (r: string)
    ensures n <= |s| ==> r == s[n..]
    ensures |s| <= n ==> r == ""
  {
    if |s| <= n then "" else s[n..]
  }

  predicate StartsWith(s: string, prefix: string) {
    |prefix| <= |s| && s[..|prefix|] == prefix
  }

  predicate EndsWith(s: string, suffix: string) {
    |suffix| <= |s| && s[|s| - |suffix|..] == suffix
  }

  /** `s.rfind(c)`: the last index of `c`, or -1. */
  function RFind(s: string, c: char): (r: int)
    ensures -1 <= r < |s|
    ensures r >= 0 ==> s[r] == c
    ensures forall i | r < i < |s| :: s[i] != c
  {
    if s == [] then -1
    else if s[|s| - 1] == c then |s| - 1
    else RFind(s[..|s| - 1], c)
  }

  /** Appending text without `c` does not move the last `c`. */
  lemma RFindAppend(a: string, b: string, c: char)
    requires c !in b
    ensures RFind(a + b, c) == RFind(a, c)
  {
    assert forall i | |a| <= i < |a + b| :: (a + b)[i] == b[i - |a|];
    assert forall i | 0 <= i < |a| :: (a + b)[i] == a[i];
  }

  /** `s.find(c)`: the first index of `c`, or -1. */
  function Find(s: string, c: char): (r: int)
    ensures -1 <= r < |s|
    ensures r >= 0 ==> s[r] == c
    ensures forall i | 0 <= i < |s| && (r < 0 || i < r) :: s[i] != c
  {
    if s == [] then -1
    else if s[0] == c then 0
    else var r := Find(s[1..], c); if r < 0 then -1 else r + 1
  }

  /** `posixpath.join(a, b)`: an absolute `b` replaces `a`; otherwise one
      slash goes between them unless `a` is empty or already ends in one. */
  function Join(a: string, b: string): (r: string)
    ensures StartsWith(b, "/") ==> r == b
    ensures !StartsWith(b, "/") ==> EndsWith(r, b)
    ensures !StartsWith(b, "/") && a != "" ==> StartsWith(r, a)
  {
    if StartsWith(b, "/") then b
    else if a == "" || EndsWith(a, "/") then a + b
    else a + "/" + b
  }

  /** `posixpath.splitext(p)`: the extension is the part from the last dot
      of the last path component, provided that component has a character
      other than a dot before it (so `.bashrc` has no extension). */
  function SplitExt(p: string): (r: (string, string))
    ensures r.0 + r.1 == p
    ensures r.1 == "" || (r.1[0] == '.' && forall i | 1 <= i < |r.1| :: r.1[i] != '.' && r.1[i] != '/')
  {
    var sep, dot := RFind(p, '/'), RFind(p, '.');
    if sep < dot && exists i | sep + 1 <= i < dot :: p[i] != '.' then
      assert p == p[..dot] + p[dot..];
      (p[..dot], p[dot..])
    else
      assert p + "" == p;
      (p, "")
  }

  /** `s.replace(old, new)` for single characters. */
  function ReplaceChar(s: string, from: char, to: char): (r: string)
    ensures |r| == |s|
    ensures forall i | 0 <= i < |s| :: r[i] == if s[i] == from then to else s[i]
  {
    if s == [] then [] else [if s[0] == from then to else s[0]] + ReplaceChar(s[1..], from, to)
  }

  /** `s.split(c)`: the pieces between occurrences of `c` (never empty: `""` gives `[""]`). */
  function Split(s: string, c: char): (r: seq<string>)
    ensures |r| >= 1
    ensures forall i | 0 <= i < |r| :: c !in r[i]
    decreases |s|
  {
    var i := Find(s, c);
    if i < 0 then
      assert c !in s by { assert forall k | 0 <= k < |s| :: s[k] != c; }
      [s]
    else
      var head, rest := s[..i], Split(s[i + 1..], c);
      assert c !in head by { assert forall k | 0 <= k < |head| :: head[k] == s[k]; }
      assert forall k | 1 <= k < |rest| + 1 :: ([head] + rest)[k] == rest[k - 1];
      [head] + rest
  }

  /** `s.split(c, 1)[0]`: everything before the first `c`. */
  function Before(s: string, c: char): (r: string)
    ensures c !in r
    ensures StartsWith(s, r)
    ensures |r| < |s| ==> s[|r|] == c
  {
    var i := Find(s, c);
    if i < 0 then s else s[..i]
  }

  /** Nothing is cut from a string without the character. */
  lemma BeforeAbsent(s: string, c: char)
    requires c !in s
    ensures Before(s, c) == s
  {
  }

  /** `'/'.join(parts)`. */
  function JoinWith(parts: seq<string>, c: char): string {
    if parts == [] then "" else if |parts| == 1 then parts[0] else parts[0] + [c] + JoinWith(parts[1..], c)
  }

  /** Splitting what was joined on a separator the parts do not contain gives the parts back. */
  lemma {:induction false} SplitJoinWith(parts: seq<string>, c: char)
    requires parts != []
    requires forall i | 0 <= i < |parts| :: c !in parts[i]
    ensures Split(JoinWith(parts, c), c) == parts
  {
    if |parts| == 1 {
      assert Find(parts[0], c) < 0;
    } else {
      var rest := JoinWith(parts[1..], c);
      var s := parts[0] + [c] + rest;
      assert Find(s, c) == |parts[0]| by {
        assert s == parts[0] + ([c] + rest);
        FindAfterFree(parts[0], [c] + rest, c);
      }
      assert s[..|parts[0]|] == parts[0];
      assert s[|parts[0]| + 1..] == rest;
      SplitJoinWith(parts[1..], c);
    }
  }

  lemma {:induction false} FindAfterFree(a: string, b: string, c: char)
    requires c !in a && b != [] && b[0] == c
    ensures Find(a + b, c) == |a|
    decreases |a|
  {
    if a != [] {
      assert (a + b)[1..] == a[1..] + b;
      FindAfterFree(a[1..], b, c);
    } else {
      assert a + b == b;
    }
  }

  /** Python's `str.isspace()` on one character: the ASCII blanks, the
      information separators U+001C to U+001F, NEL, the no-break space and
      the Unicode space and line/paragraph separators. */
  predicate IsWhitespace(c: char) {
    || c == ' ' || ('\t' <= c <= '\r') || ('\U{001C}' <= c <= '\U{001F}')
    || c == '\U{0085}' || c == '\U{00A0}' || c == '\U{1680}'
    || ('\U{2000}' <= c <= '\U{200A}') || c == '\U{2028}' || c == '\U{2029}'
    || c == '\U{202F}' || c == '\U{205F}' || c == '\U{3000}'
  }

  /** `s.rstrip()`: drops trailing whitespace as `str.isspace()` defines it. */
  function RStrip(s: string): (r: string)
    ensures StartsWith(s, r)
    ensures r == "" || !IsWhitespace(r[|r| - 1])
    ensures forall i | |r| <= i < |s| :: IsWhitespace(s[i])
  {
    if s == [] || !IsWhitespace(s[|s| - 1]) then s else RStrip(s[..|s| - 1])
  }

  /** `n` slashes. */
  function Slashes(n: nat): (r: string)
    ensures |r| == n && forall i | 0 <= i < n :: r[i] == '/'
  {
    if n == 0 then "" else "/" + Slashes(n - 1)
  }

  /** One turn of `posixpath.normpath`'s loop: empty and `.` components
      go; `..` removes the component before it unless there is none to
      remove in a relative path or that one is a `..` itself, in which
      case it stays; a `..` at the root goes. */
  function NormStep(acc: seq<string>, comp: string, rooted: bool): seq<string> {
    if comp == "" || comp == "." then acc
    else if comp != ".." || (!rooted && acc == []) || (acc != [] && acc[|acc| - 1] == "..") then acc + [comp]
    else if acc != [] then acc[..|acc| - 1]
    else acc
  }

  /** The components `normpath` keeps, in order. */
  function NormComps(comps: seq<string>, rooted: bool): seq<string>
    decreases |comps|
  {
    if comps == [] then []
    else NormStep(NormComps(comps[..|comps| - 1], rooted), comps[|comps| - 1], rooted)
  }

  /** What a normalised path is made of: components that are neither
      empty nor `.` nor hold a slash; `..` only at the start, and not at
      all under the root. */
  predicate Normal(cs: seq<string>, rooted: bool) {
    && (forall i | 0 <= i < |cs| :: cs[i] != "" && cs[i] != "." && '/' !in cs[i])
    && (rooted ==> forall i | 0 <= i < |cs| :: cs[i] != "..")
    && (forall i, j | 0 <= j < i < |cs| && cs[i] == ".." :: cs[j] == "..")
  }

  /** `posixpath.normpath(p)`: `.` for an empty path; otherwise the kept
      components joined by slashes behind the leading slashes (two are
      kept when there are exactly two, one when there are three or more),
      and `.` when that leaves nothing. */
  function NormPath(p: string): string {
    if p == "" then "."
    else
      var lead := if !StartsWith(p, "/") then 0 else if StartsWith(p, "//") && !StartsWith(p, "///") then 2 else 1;
      var s := Slashes(lead) + JoinWith(NormComps(Split(p, '/'), lead > 0), '/');
      if s == "" then "." else s
  }

  /** Every step of `normpath`'s loop keeps the kept components normal. */
  lemma {:induction false} NormCompsNormal(comps: seq<string>, rooted: bool)
    requires forall i | 0 <= i < |comps| :: '/' !in comps[i]
    ensures Normal(NormComps(comps, rooted), rooted)
    decreases |comps|
  {
    if comps != [] {
      var init := comps[..|comps| - 1];
      NormCompsNormal(init, rooted);
      var acc, c := NormComps(init, rooted), comps[|comps| - 1];
      if c == "" || c == "." {
      } else if c != ".." || (!rooted && acc == []) || (acc != [] && acc[|acc| - 1] == "..") {
        var r := acc + [c];
        assert r[|acc|] == c;
        assert forall i, j | 0 <= j < i < |r| && r[i] == ".." :: r[j] == ".." by {
          forall i, j | 0 <= j < i < |r| && r[i] == ".."
            ensures r[j] == ".."
          {
            if i == |acc| {
              assert acc[|acc| - 1] == "..";
            }
          }
        }
      } else if acc != [] {
        assert forall i | 0 <= i < |acc| - 1 :: acc[..|acc| - 1][i] == acc[i];
      }
    }
  }

  /** Concatenation regrouped. */
  lemma Regroup(a: string, b: string, c: string, d: string)
    ensures a + (b + c + d) == a + b + c + d
  {
  }

  /** `posixpath.abspath(p)`: joined onto the working directory, then normalised. */
  function AbsPath(p: string, cwd: string): (r: string)
    ensures StartsWith(cwd, "/") ==> StartsWith(r, "/")
  {
    NormPath(Join(cwd, p))
  }
}
