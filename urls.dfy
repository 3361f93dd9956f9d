/** Percent-encoding of URL paths (section 2.1 of RFC 3986), as
    `urllib.parse.unquote` and werkzeug's `url_unquote` undo it and
    werkzeug's URL building applies it to a path argument; and the path
    part of a URL as `urllib.parse.urlparse` finds it. */
module Urls {
  import opened Paths

  /** The value of a hexadecimal digit, or -1. */
  function HexDigit(c: char): (r: int)
    ensures -1 <= r < 16
  {
    if '0' <= c <= '9' then c as int - '0' as int
    else if 'a' <= c <= 'f' then c as int - 'a' as int + 10
    else if 'A' <= c <= 'F' then c as int - 'A' as int + 10
    else -1
  }

  /** The upper-case digit of a value below 16. */
  function HexChar(n: nat): (c: char)
    requires n < 16
    ensures HexDigit(c) == n
  {
    if n < 10 then ('0' as int + n) as char else ('A' as int + n - 10) as char
  }

  /** Percent-decoding: `%XY` with two hexadecimal digits becomes the
      character with that code; every other character, a lone `%`
      included, stays. */
  function Unquote(s: string): (r: string)
    ensures |r| <= |s|
    ensures '%' !in s ==> r == s
    decreases |s|
  {
    if |s| >= 3 && s[0] == '%' && HexDigit(s[1]) >= 0 && HexDigit(s[2]) >= 0 then
      [(16 * HexDigit(s[1]) + HexDigit(s[2])) as char] + Unquote(s[3..])
    else if s == [] then []
    else [s[0]] + Unquote(s[1..])
  }

  /** The characters a path keeps unencoded: unreserved characters and `/`. */
  predicate Safe(c: char) {
    ('a' <= c <= 'z') || ('A' <= c <= 'Z') || ('0' <= c <= '9') || c == '-' || c == '.' || c == '_' || c == '~' || c == '/'
  }

  predicate Ascii(s: string) {
    forall i | 0 <= i < |s| :: s[i] < 128 as char
  }

  /** Percent-encoding of an ASCII path. */
  function Quote(s: string): (r: string)
    requires Ascii(s)
    ensures |s| <= |r|
  {
    if s == [] then []
    else
      var c := s[0];
      (if Safe(c) then [c] else ['%', HexChar(c as int / 16), HexChar(c as int % 16)]) + Quote(s[1..])
  }

  /** Decoding undoes encoding. */
  lemma {:induction false} UnquoteQuote(s: string)
    requires Ascii(s)
    ensures Unquote(Quote(s)) == s
  {
    if s != [] {
      assert Ascii(s[1..]);
      UnquoteQuote(s[1..]);
      UnquoteQuoteHead(s[0], Quote(s[1..]));
      assert s == [s[0]] + s[1..];
    }
  }

  /** One encoded character decodes back to itself, ahead of anything. */
  lemma UnquoteQuoteHead(c: char, rest: string)
    requires c < 128 as char
    ensures Unquote((if Safe(c) then [c] else ['%', HexChar(c as int / 16), HexChar(c as int % 16)]) + rest)
      == [c] + Unquote(rest)
  {
    if Safe(c) {
      assert ([c] + rest)[1..] == rest;
    } else {
      var e := ['%', HexChar(c as int / 16), HexChar(c as int % 16)];
      assert (e + rest)[3..] == rest;
      assert (16 * (c as int / 16) + c as int % 16) as char == c;
    }
  }

  // ---------------------------------------------------------------------------
  // `urllib.parse.urlparse(url).path`

  predicate AsciiLetter(c: char) {
    ('a' <= c <= 'z') || ('A' <= c <= 'Z')
  }

  /** The characters `urllib.parse` allows in a scheme. */
  predicate SchemeChar(c: char) {
    AsciiLetter(c) || ('0' <= c <= '9') || c == '+' || c == '-' || c == '.'
  }

  /** ASCII lower-casing. */
  function Lower(s: string): (r: string)
    ensures |r| == |s|
    ensures forall i | 0 <= i < |s| :: r[i] == if 'A' <= s[i] <= 'Z' then (s[i] as int + 32) as char else s[i]
  {
    if s == [] then [] else [if 'A' <= s[0] <= 'Z' then (s[0] as int + 32) as char else s[0]] + Lower(s[1..])
  }

  /** The schemes whose last path segment may carry `;` parameters. */
  const UsesParams: set<string> := {"", "ftp", "hdl", "prospero", "http", "imap", "https", "shttp",
                                    "rtsp", "rtsps", "rtspu", "sip", "sips", "mms", "sftp", "tel"}

  /** The index of the first character of `s` in `cs`, or `|s|`. */
  function FirstOf(s: string, cs: set<char>): (r: nat)
    ensures r <= |s|
    ensures r < |s| ==> s[r] in cs
    ensures forall i | 0 <= i < r :: s[i] !in cs
  {
    if s == [] then 0 else if s[0] in cs then 0 else FirstOf(s[1..], cs) + 1
  }

  /** The scheme, lower-cased, and the rest: a scheme is what comes before
      the first `:` when it starts with a letter and has only scheme
      characters; otherwise there is none. */
  function SplitScheme(url: string): (r: (string, string))
    ensures r.0 == "" ==> r.1 == url
    ensures r.0 != "" ==> exists i | 0 < i < |url| :: url[i] == ':' && r.1 == url[i + 1..]
  {
    var i := Find(url, ':');
    if i > 0 && AsciiLetter(url[0]) && forall k | 0 <= k < i :: SchemeChar(url[k]) then
      (Lower(url[..i]), url[i + 1..])
    else ("", url)
  }

  /** `_splitparams(path)[0]`: the path without the parameters that follow
      the first `;` of its last segment (of the whole path, when it has no
      slash). */
  function CutParams(path: string): (r: string)
    ensures StartsWith(path, r)
  {
    var j := RFind(path, '/');
    if j >= 0 then
      var k := Find(path[j..], ';');
      if k < 0 then path else path[..j + k]
    else
      var k := Find(path, ';');
      if k < 0 then path else path[..k]
  }

  /** What follows a `//` network location, which runs to the next `/`,
      `?` or `#`. */
  function PastNetloc(rest: string): (r: string)
    ensures !StartsWith(rest, "//") ==> r == rest
    ensures StartsWith(rest, "//") ==> |r| <= |rest| - 2 && (r == "" || r[0] in {'/', '?', '#'})
  {
    if StartsWith(rest, "//") then rest[2..][FirstOf(rest[2..], {'/', '?', '#'})..] else rest
  }

  /** `urlparse(url).path`: past the scheme and a `//` network location
      (which runs to the next `/`, `?` or `#`), up to the fragment's `#`
      and then the query's `?`, and without the last segment's parameters
      for a scheme that has them. */
  function UrlPath(url: string): (r: string)
    ensures '?' !in r && '#' !in r
  {
    var (scheme, rest) := SplitScheme(url);
    var located := PastNetloc(rest);
    var path := Before(Before(located, '#'), '?');
    assert '#' !in path by {
      assert forall i | 0 <= i < |path| :: path[i] == Before(located, '#')[i];
    }
    if scheme in UsesParams && ';' in path then
      var r := CutParams(path);
      assert forall i | 0 <= i < |r| :: r[i] == path[i];
      r
    else path
  }

  /** The path of an absolute URL `scheme://host/path` with no query,
      fragment or parameters is that `/path`. */
  lemma UrlPathOfAbsolute(scheme: string, host: string, path: string)
    requires scheme != "" && forall i | 0 <= i < |scheme| :: 'a' <= scheme[i] <= 'z'
    requires forall i | 0 <= i < |host| :: host[i] !in {'/', '?', '#'}
    requires path == "" || path[0] == '/'
    requires '?' !in path && '#' !in path && ';' !in path
    ensures UrlPath(scheme + "://" + host + path) == path
  {
    var tail := "://" + host + path;
    SchemeOf(scheme, tail);
    Regroup(scheme, "://", host, path);
    assert tail[1..] == "//" + host + path;
    PastNetlocOf(host, path);
    BeforeAbsent(path, '#');
    BeforeAbsent(path, '?');
  }

  /** A network location runs to the path's leading slash. */
  lemma PastNetlocOf(host: string, path: string)
    requires forall i | 0 <= i < |host| :: host[i] !in {'/', '?', '#'}
    requires path == "" || path[0] == '/'
    ensures PastNetloc("//" + host + path) == path
  {
    var rest := "//" + host + path;
    assert rest[..2] == "//";
    assert rest[2..] == host + path;
    FirstOfAfter(host, path, {'/', '?', '#'});
    assert (host + path)[|host|..] == path;
  }

  /** A lower-case scheme ahead of its colon is split off. */
  lemma SchemeOf(scheme: string, tail: string)
    requires scheme != "" && forall i | 0 <= i < |scheme| :: 'a' <= scheme[i] <= 'z'
    requires tail != [] && tail[0] == ':'
    ensures SplitScheme(scheme + tail) == (scheme, tail[1..])
  {
    var url := scheme + tail;
    assert ':' !in scheme by {
      forall i | 0 <= i < |scheme| ensures scheme[i] != ':' { }
    }
    FindAfterFree(scheme, tail, ':');
    assert url[..|scheme|] == scheme;
    assert url[|scheme| + 1..] == tail[1..];
    assert Lower(scheme) == scheme;
  }

  /** The first character of a set after a prefix free of it. */
  lemma {:induction false} FirstOfAfter(a: string, b: string, cs: set<char>)
    requires forall i | 0 <= i < |a| :: a[i] !in cs
    requires b == [] || b[0] in cs
    ensures FirstOf(a + b, cs) == |a|
    decreases |a|
  {
    if a != [] {
      assert (a + b)[1..] == a[1..] + b;
      FirstOfAfter(a[1..], b, cs);
    } else {
      assert a + b == b;
    }
  }
}
