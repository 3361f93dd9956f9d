/** blogme/server.py: the development server's request handler. A GET
    first rebuilds the project when anything needs building; the
    requested path is then mapped onto a file under the output folder by
    `translate_path`, which is proved never to leave that folder. Paths
    are POSIX ones (`os.path` is `posixpath`, so `splitdrive` finds no
    drive). */
module Server {
  import opened Values
  import opened Paths
  import opened Urls
  import opened FileSystem
  import opened Walking
  import opened Building

  /** The request path without its query (from the first `?`) and its
      fragment (from the first `#`), past the URL prefix when it starts
      with it. */
  function RequestPath(path: string, prefix: string): (r: string)
    ensures '?' !in r && '#' !in r
    ensures '?' !in path && '#' !in path ==>
      if StartsWith(path, prefix) then prefix + r == path else r == path
  {
    var p := Before(Before(path, '?'), '#');
    assert '?' !in p by {
      assert forall i | 0 <= i < |p| :: p[i] == Before(path, '?')[i];
    }
    assert '?' !in path && '#' !in path ==> p == path;
    if StartsWith(p, prefix) then
      assert p == prefix + p[|prefix|..];
      p[|prefix|..]
    else p
  }

  /** `filter(None, parts)`: the non-empty ones, in order. */
  function NonEmpty(parts: seq<string>): (r: seq<string>)
    ensures forall w :: w in r <==> w in parts && w != ""
  {
    if parts == [] then []
    else
      assert parts == [parts[0]] + parts[1..];
      (if parts[0] == "" then [] else [parts[0]]) + NonEmpty(parts[1..])
  }

  /** The words of a path: its non-empty slash-separated parts. */
  function Words(p: string): (r: seq<string>)
    ensures forall i | 0 <= i < |r| :: r[i] != "" && '/' !in r[i]
  {
    var r := NonEmpty(Split(p, '/'));
    assert forall i | 0 <= i < |r| :: r[i] in Split(p, '/');
    r
  }

  /** `os.path.split(word)[1]`: what follows the last slash. */
  function Component(word: string): (r: string)
    ensures '/' !in r
    ensures '/' !in word ==> r == word
  {
    Drop(word, RFind(word, '/') + 1)
  }

  /** The path `translate_path` builds from the output folder and the
      first words of the request: each word's last component is joined
      on, `.` and `..` skipped. */
  function TranslateOf(dest: string, words: seq<string>): string
    decreases |words|
  {
    if words == [] then dest
    else
      var p := TranslateOf(dest, words[..|words| - 1]);
      var w := Component(words[|words| - 1]);
      if w == "." || w == ".." then p else Join(p, w)
  }

  /** The file served for an already decoded request path. */
  function Translate(dest: string, decoded: string): string {
    TranslateOf(dest, Words(NormPath(decoded)))
  }

  /** The components of the words that survive, in order. */
  function Kept(words: seq<string>): (r: seq<string>)
    ensures forall i | 0 <= i < |r| :: r[i] != "." && r[i] != ".." && '/' !in r[i]
    decreases |words|
  {
    if words == [] then []
    else
      var w := Component(words[|words| - 1]);
      Kept(words[..|words| - 1]) + (if w == "." || w == ".." then [] else [w])
  }

  /** The `TypeError` of `str.startswith` given a bytes prefix. */
  function StartsWithBytes(): Error {
    TypeError("startswith first arg must be str or a tuple of str, not bytes")
  }

  /** `translate_path(path)`: query and fragment cut off, the URL prefix
      dropped, percent-decoded and normalised; then each word's last
      component other than `.` and `..` is joined onto the output folder.
      The output folder's exception is the method's. A prefix that is the
      empty bytes (no canonical URL) makes the `startswith` test raise a
      `TypeError` on every request, before the output folder is asked for. */
  method TranslatePath(b: Builder, path: string) returns (r: Result<string>)
    ensures b.prefixPath.EmptyBytes? ==> r == Err(StartsWithBytes())
    ensures b.prefixPath.Text? && b.DestFolder().Err? ==> r == Err(b.DestFolder().error)
    ensures b.prefixPath.Text? && b.DestFolder().Ok? ==>
      r == Ok(Translate(b.DestFolder().value, Unquote(RequestPath(path, b.prefixPath.text))))
  {
    var p := Before(Before(path, '?'), '#');
    if b.prefixPath.EmptyBytes? {
      return Err(StartsWithBytes());
    }
    if StartsWith(p, b.prefixPath.text) {
      p := p[|b.prefixPath.text|..];
    }
    p := NormPath(Unquote(p));
    var words := Words(p);
    var dest := b.DestFolder();
    if dest.Err? {
      return Err(dest.error);
    }
    var served := JoinWords(dest.value, words);
    return Ok(served);
  }

  /** `translate_path`'s loop over the words. */
  method JoinWords(dest: string, words: seq<string>) returns (r: string)
    ensures r == TranslateOf(dest, words)
  {
    r := dest;
    for i := 0 to |words|
      invariant r == TranslateOf(dest, words[..i])
    {
      assert words[..i + 1][..i] == words[..i];
      var word := Component(words[i]);
      if word == "." || word == ".." {
        continue;
      }
      r := Join(r, word);
    }
    assert words[..|words|] == words;
  }

  /** `'/'.join` of one more part. */
  lemma {:induction false} JoinWithSnoc(parts: seq<string>, x: string, c: char)
    requires parts != []
    ensures JoinWith(parts + [x], c) == JoinWith(parts, c) + [c] + x
    decreases |parts|
  {
    if |parts| == 1 {
      assert (parts + [x])[1..] == [x];
    } else {
      assert (parts + [x])[1..] == parts[1..] + [x];
      JoinWithSnoc(parts[1..], x, c);
    }
  }

  /** Each component behind a slash of its own. */
  function Slashed(ks: seq<string>): string
    decreases |ks|
  {
    if ks == [] then "" else Slashed(ks[..|ks| - 1]) + "/" + ks[|ks| - 1]
  }

  /** The translated path is the output folder followed by `/` and each
      kept component. */
  lemma {:induction false} TranslateJoined(dest: string, words: seq<string>)
    requires dest != "" && !EndsWith(dest, "/")
    requires forall i | 0 <= i < |words| :: words[i] != "" && '/' !in words[i]
    ensures TranslateOf(dest, words) == dest + Slashed(Kept(words))
    decreases |words|
  {
    if words == [] {
      assert dest + "" == dest;
    } else {
      var init, w := words[..|words| - 1], words[|words| - 1];
      TranslateJoined(dest, init);
      KeptNonEmpty(init);
      LastWord(dest, words);
      if w != "." && w != ".." {
        JoinedStep(dest, Kept(init), w);
      }
    }
  }

  /** One step of the fold: the last word is its own last component. */
  lemma LastWord(dest: string, words: seq<string>)
    requires words != [] && '/' !in words[|words| - 1]
    ensures var init, w := words[..|words| - 1], words[|words| - 1];
      w == "." || w == ".." ==> TranslateOf(dest, words) == TranslateOf(dest, init) && Kept(words) == Kept(init)
    ensures var init, w := words[..|words| - 1], words[|words| - 1];
      w != "." && w != ".." ==> TranslateOf(dest, words) == Join(TranslateOf(dest, init), w) && Kept(words) == Kept(init) + [w]
  {
    assert Component(words[|words| - 1]) == words[|words| - 1];
    assert Kept(words[..|words| - 1]) + [] == Kept(words[..|words| - 1]);
  }

  /** Joining one more component onto the output folder and the ones before. */
  lemma JoinedStep(dest: string, ks: seq<string>, w: string)
    requires dest != "" && !EndsWith(dest, "/")
    requires forall i | 0 <= i < |ks| :: ks[i] != "" && '/' !in ks[i]
    requires w != "" && '/' !in w
    ensures Join(dest + Slashed(ks), w) == dest + Slashed(ks + [w])
  {
    NoTrailingSlash(dest, ks);
    JoinPlain(dest + Slashed(ks), w);
    SlashedSnoc(ks, w);
    Regroup(dest, Slashed(ks), "/", w);
  }

  lemma SlashedSnoc(ks: seq<string>, w: string)
    ensures Slashed(ks + [w]) == Slashed(ks) + "/" + w
  {
    assert (ks + [w])[..|ks|] == ks;
  }

  /** Joining a relative component onto a path not ending in a slash puts one between. */
  lemma JoinPlain(p: string, w: string)
    requires p != "" && !EndsWith(p, "/") && w != "" && '/' !in w
    ensures Join(p, w) == p + "/" + w
  {
    assert !StartsWith(w, "/") by { assert w[0] in w; }
  }

  /** Words that are not empty keep components that are not. */
  lemma {:induction false} KeptNonEmpty(words: seq<string>)
    requires forall i | 0 <= i < |words| :: words[i] != "" && '/' !in words[i]
    ensures forall i | 0 <= i < |Kept(words)| :: Kept(words)[i] != ""
    decreases |words|
  {
    if words != [] {
      var init := words[..|words| - 1];
      KeptNonEmpty(init);
      assert Component(words[|words| - 1]) == words[|words| - 1];
    }
  }

  /** The output folder with components joined on ends in the last one. */
  lemma NoTrailingSlash(dest: string, ks: seq<string>)
    requires dest != "" && !EndsWith(dest, "/")
    requires forall i | 0 <= i < |ks| :: ks[i] != "" && '/' !in ks[i]
    ensures var s := dest + Slashed(ks); s != "" && !EndsWith(s, "/")
  {
    var s := dest + Slashed(ks);
    assert dest[|dest| - 1..] == [dest[|dest| - 1]];
    assert s[|s| - 1..] == [s[|s| - 1]];
    if ks != [] {
      var l := ks[|ks| - 1];
      assert s[|s| - 1] == l[|l| - 1];
      assert l[|l| - 1] in l;
    }
  }

  /** The components behind slashes are `'/'.join` of an empty part and them. */
  lemma {:induction false} SlashedJoin(ks: seq<string>)
    ensures Slashed(ks) == JoinWith([""] + ks, '/')
    decreases |ks|
  {
    if ks != [] {
      var init := ks[..|ks| - 1];
      SlashedJoin(init);
      assert [""] + ks == ([""] + init) + [ks[|ks| - 1]];
      JoinWithSnoc([""] + init, ks[|ks| - 1], '/');
    }
  }

  /** Under an output folder that ends in a slash, the first kept
      component is joined on without another slash and the rest follow
      it behind one each. */
  lemma {:induction false} TranslateJoinedSlash(dest: string, words: seq<string>)
    requires EndsWith(dest, "/")
    requires forall i | 0 <= i < |words| :: words[i] != "" && '/' !in words[i]
    ensures TranslateOf(dest, words) == dest + JoinWith(Kept(words), '/')
    decreases |words|
  {
    if words == [] {
      assert dest + "" == dest;
    } else {
      var init, w := words[..|words| - 1], words[|words| - 1];
      TranslateJoinedSlash(dest, init);
      KeptNonEmpty(init);
      LastWord(dest, words);
      if w != "." && w != ".." {
        JoinedSlashStep(dest, Kept(init), w);
      }
    }
  }

  /** Joining one more component under an output folder that ends in a slash. */
  lemma JoinedSlashStep(dest: string, ks: seq<string>, w: string)
    requires EndsWith(dest, "/")
    requires forall i | 0 <= i < |ks| :: ks[i] != "" && '/' !in ks[i]
    requires w != "" && '/' !in w
    ensures Join(dest + JoinWith(ks, '/'), w) == dest + JoinWith(ks + [w], '/')
  {
    NotRooted(w);
    if ks == [] {
      assert dest + JoinWith(ks, '/') == dest;
      assert JoinWith(ks + [w], '/') == w;
    } else {
      JoinedLater(dest + JoinWith(ks, '/'), ks, w);
      Regroup(dest, JoinWith(ks, '/'), "/", w);
    }
  }

  /** After a component, the next one is joined behind a slash. */
  lemma JoinedLater(p: string, ks: seq<string>, w: string)
    requires ks != [] && EndsWith(p, JoinWith(ks, '/'))
    requires forall i | 0 <= i < |ks| :: ks[i] != "" && '/' !in ks[i]
    requires w != "" && '/' !in w
    ensures Join(p, w) == p + "/" + w
    ensures JoinWith(ks + [w], '/') == JoinWith(ks, '/') + "/" + w
  {
    JoinWithEnds(ks);
    assert p[|p| - 1] == JoinWith(ks, '/')[|JoinWith(ks, '/')| - 1];
    assert p[|p| - 1..] == [p[|p| - 1]];
    JoinPlain(p, w);
    JoinWithSnoc(ks, w, '/');
  }

  lemma NotRooted(w: string)
    requires w != "" && '/' !in w
    ensures !StartsWith(w, "/")
  {
    assert w[0] in w;
  }

  /** Components joined on slashes do not end in a slash. */
  lemma {:induction false} JoinWithEnds(ks: seq<string>)
    requires ks != []
    requires forall i | 0 <= i < |ks| :: ks[i] != "" && '/' !in ks[i]
    ensures var s := JoinWith(ks, '/'); s != "" && s[|s| - 1] != '/'
    decreases |ks|
  {
    if |ks| > 1 {
      JoinWithEnds(ks[1..]);
      assert JoinWith(ks, '/') == ks[0] + ['/'] + JoinWith(ks[1..], '/');
    } else {
      assert ks[0][|ks[0]| - 1] in ks[0];
    }
  }

  /** No `.` and no `..` is ever joined on: the translated path starts
      with the output folder, and the part past it splits into exactly
      the kept components (behind an empty part unless the folder already
      ends in a slash and some component is kept), so it never climbs out
      of it. */
  lemma TranslateConfined(dest: string, words: seq<string>)
    requires dest != ""
    requires forall i | 0 <= i < |words| :: words[i] != "" && '/' !in words[i]
    ensures StartsWith(TranslateOf(dest, words), dest)
    ensures Split(TranslateOf(dest, words)[|dest|..], '/') ==
      if EndsWith(dest, "/") && Kept(words) != [] then Kept(words) else [""] + Kept(words)
  {
    var r, ks := TranslateOf(dest, words), Kept(words);
    KeptNonEmpty(words);
    if EndsWith(dest, "/") {
      TranslateJoinedSlash(dest, words);
      assert r[|dest|..] == JoinWith(ks, '/');
      if ks != [] {
        SplitJoinWith(ks, '/');
      } else {
        assert Split("", '/') == [""];
      }
    } else {
      TranslateJoined(dest, words);
      SlashedJoin(ks);
      assert r[|dest|..] == JoinWith([""] + ks, '/');
      assert forall i | 0 <= i < |[""] + ks| :: '/' !in ([""] + ks)[i];
      SplitJoinWith([""] + ks, '/');
    }
  }

  /** Normalising a path and taking its words gives the components
      `normpath` kept, or the `.` of a relative path that kept none. */
  lemma NormWords(p: string)
    ensures var cs := NormComps(Split(p, '/'), StartsWith(p, "/"));
      Words(NormPath(p)) == if cs == [] && !StartsWith(p, "/") then ["."] else cs
  {
    var rooted := StartsWith(p, "/");
    var cs := NormComps(Split(p, '/'), rooted);
    if p == "" {
      assert Split(p, '/') == [""];
      assert NormComps([""][..0], false) == [];
      assert Split(".", '/') == ["."] by { assert Find(".", '/') < 0; }
      assert NonEmpty(["."]) == ["."] by { assert ["."][1..] == []; }
    } else {
      var lead := if !rooted then 0 else if StartsWith(p, "//") && !StartsWith(p, "///") then 2 else 1;
      NormCompsNormal(Split(p, '/'), rooted);
      var joined := Slashes(lead) + JoinWith(cs, '/');
      if cs == [] {
        assert joined == Slashes(lead);
        if lead == 0 {
          assert Split(".", '/') == ["."] by { assert Find(".", '/') < 0; }
          assert NonEmpty(["."]) == ["."] by { assert ["."][1..] == []; }
        } else {
          SlashesWords(lead);
        }
      } else {
        var parts := Empties(lead) + cs;
        JoinEmpties(lead, cs);
        assert forall i | 0 <= i < |parts| :: '/' !in parts[i];
        SplitJoinWith(parts, '/');
        NonEmptyAfterEmpties(lead, cs);
      }
    }
  }

  /** `n` empty strings. */
  function Empties(n: nat): (r: seq<string>)
    ensures |r| == n && forall i | 0 <= i < n :: r[i] == ""
  {
    if n == 0 then [] else [""] + Empties(n - 1)
  }

  /** Leading slashes are empty parts ahead of a join. */
  lemma {:induction false} JoinEmpties(n: nat, cs: seq<string>)
    requires cs != []
    ensures Slashes(n) + JoinWith(cs, '/') == JoinWith(Empties(n) + cs, '/')
  {
    if n > 0 {
      JoinEmpties(n - 1, cs);
      var parts := Empties(n) + cs;
      assert parts[0] == "" && |parts| > 1 && parts[1..] == Empties(n - 1) + cs;
      assert JoinWith(parts, '/') == "/" + JoinWith(parts[1..], '/');
    } else {
      assert Empties(0) + cs == cs;
    }
  }

  /** Dropping the empty parts ahead of non-empty ones. */
  lemma {:induction false} NonEmptyAfterEmpties(n: nat, cs: seq<string>)
    requires forall i | 0 <= i < |cs| :: cs[i] != ""
    ensures NonEmpty(Empties(n) + cs) == cs
  {
    if n > 0 {
      assert (Empties(n) + cs)[1..] == Empties(n - 1) + cs;
      NonEmptyAfterEmpties(n - 1, cs);
    } else {
      assert Empties(0) + cs == cs;
      NonEmptyAll(cs);
    }
  }

  lemma {:induction false} NonEmptyAll(cs: seq<string>)
    requires forall i | 0 <= i < |cs| :: cs[i] != ""
    ensures NonEmpty(cs) == cs
  {
    if cs != [] {
      NonEmptyAll(cs[1..]);
    }
  }

  /** A path of only slashes has no words. */
  lemma SlashesWords(n: nat)
    requires 1 <= n <= 2
    ensures Words(Slashes(n)) == []
  {
    assert Split("", '/') == [""];
    if n == 1 {
      assert Slashes(1) == "/";
      assert Split("/", '/') == [""] + Split("", '/') by { assert Find("/", '/') == 0; }
      assert NonEmpty(["", ""]) == [] by { assert ["", ""][1..] == [""]; assert [""][1..] == []; }
    } else {
      assert Slashes(2) == "//";
      assert Split("/", '/') == [""] + Split("", '/') by { assert Find("/", '/') == 0; }
      assert Split("//", '/') == [""] + Split("/", '/') by { assert Find("//", '/') == 0; assert "//"[1..] == "/"; }
      assert NonEmpty(["", "", ""]) == [] by {
        assert ["", "", ""][1..] == ["", ""]; assert ["", ""][1..] == [""]; assert [""][1..] == [];
      }
    }
  }

  /** Keeping the components of normal words drops exactly the `..`
      ones, which lead; under the root there are none to drop. */
  lemma {:induction false} KeptNormal(cs: seq<string>, rooted: bool)
    requires Normal(cs, rooted)
    ensures forall i | 0 <= i < |Kept(cs)| :: Kept(cs)[i] in cs
    ensures rooted ==> Kept(cs) == cs
    decreases |cs|
  {
    if cs != [] {
      var init := cs[..|cs| - 1];
      assert Normal(init, rooted) by {
        assert forall i | 0 <= i < |init| :: init[i] == cs[i];
      }
      KeptNormal(init, rooted);
      assert Component(cs[|cs| - 1]) == cs[|cs| - 1];
      assert cs == init + [cs[|cs| - 1]];
    }
  }

  /** The file a request is served from: it is under the output folder,
      and past it there is no empty part but a leading one and no `..`,
      only components the normalised request path kept; for a request
      path from the root, exactly the components `normpath` kept. */
  lemma ServedUnderOutput(dest: string, decoded: string)
    requires dest != ""
    ensures var r := Translate(dest, decoded); var cs := NormComps(Split(decoded, '/'), StartsWith(decoded, "/"));
      && StartsWith(r, dest)
      && var tail := Split(r[|dest|..], '/');
      && (forall i | 0 <= i < |tail| :: tail[i] == "" || (tail[i] in cs && tail[i] != ".."))
      && (forall i | 1 <= i < |tail| :: tail[i] != "")
      && (StartsWith(decoded, "/") ==> tail == if EndsWith(dest, "/") && cs != [] then cs else [""] + cs)
  {
    var words := Words(NormPath(decoded));
    var rooted := StartsWith(decoded, "/");
    var cs := NormComps(Split(decoded, '/'), rooted);
    var ks := Kept(words);
    NormWords(decoded);
    TranslateConfined(dest, words);
    KeptNonEmpty(words);
    NormCompsNormal(Split(decoded, '/'), rooted);
    if cs == [] && !rooted {
      assert ks == [] by {
        assert ["."][..0] == [];
      }
    } else {
      KeptNormal(cs, rooted);
    }
    var r := Translate(dest, decoded);
    TailConfined(Split(r[|dest|..], '/'), ks, cs);
  }

  /** The parts past the output folder: the kept components, maybe behind
      an empty part. */
  lemma TailConfined(tail: seq<string>, ks: seq<string>, cs: seq<string>)
    requires tail == ks || tail == [""] + ks
    requires forall i | 0 <= i < |ks| :: ks[i] != "" && ks[i] != ".." && ks[i] in cs
    ensures forall i | 0 <= i < |tail| :: tail[i] == "" || (tail[i] in cs && tail[i] != "..")
    ensures forall i | 1 <= i < |tail| :: tail[i] != ""
  {
  }

  /** `do_GET` before serving: when `anything_needs_build` says so, the
      change is reported and `run()` rebuilds; either call's exception is
      the request's. `r` is the file system the request is then served
      from. */
  method HandleGet(b: Builder, tree: Listing, fs: Fs, now: int, lib: Library)
    returns (r: Result<Fs>, lines: seq<string>, sent: seq<Event>)
    requires b.Valid()
    modifies b`storage, b.config.stack
    ensures b.Valid()
    ensures var env := Env(b.projectFolder, fs, lib);
      var probe := ProbeOf(old(b.config.Layers()), tree, env);
      match probe.0
      case Err(e) =>
        r == Err(e) && lines == [] && sent == [] && b.config.Layers() == probe.1 && b.storage == old(b.storage)
      case Ok(false) =>
        r == Ok(fs) && lines == [] && sent == [] && b.config.Layers() == probe.1 && b.storage == old(b.storage)
      case Ok(true) =>
        var run := BuildOf(probe.1, [], tree, false, env, now);
        && r == run.0 && lines == ["Detected change, building"] + run.1 && sent == run.2 && b.config.Layers() == run.3
        && b.storage == map[]
  {
    var needed := b.AnythingNeedsBuild(tree, fs, lib);
    if needed.Err? {
      return Err(needed.error), [], [];
    }
    if !needed.value {
      return Ok(fs), [], [];
    }
    var built;
    r, built, sent := b.Run(false, tree, fs, now, lib);
    lines := ["Detected change, building"] + built;
  }
}
