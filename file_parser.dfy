/** blogme/file_parser.py: turning one source file into its page.

    Three parsers exist. `Copy` copies the file unchanged. `Markdown` and
    `ReStructuredText` are template parsers: the file starts with a header
    block of YAML front matter ended by a blank line, the header adds a
    configuration layer and sets the file's metadata, and the body is
    rendered into a Jinja2 template.

    A parser does not hold its file context here: the context's pieces it
    reads (source text, header level, destination, metadata) are
    arguments, and what `prepare` would write back into the context is
    returned as a `Header` for the context to apply. */
module FileParser {
  import opened Values
  import opened Paths
  import opened FileSystem
  import Configuration

  datatype Kind = Markdown | ReStructuredText | Copy

  /** A source file's metadata (`FileMeta` in blogme/builder.py). */
  datatype FileMeta = FileMeta(title: Value, pubDate: Value, summary: Value, postType: Value)

  const DefaultMeta := FileMeta(Str("UNKNOWN"), Null, Null, Str("post"))

  /** The template a page is rendered with when its configuration names none. */
  const DefaultTemplate := "blog/post.html"

  // ---------------------------------------------------------------------------
  // Destination names

  /** `get_desired_filename()`: a copied file keeps its name, a template
      parser's page is the source name with its extension replaced by `.html`. */
  function DesiredFilename(kind: Kind, source: string): (r: string)
    ensures kind == Copy ==> r == source
    ensures kind != Copy ==> EndsWith(r, ".html") && r[..|r| - 5] + SplitExt(source).1 == source
  {
    if kind == Copy then source else SplitExt(source).0 + ".html"
  }

  /** The page of a file whose name has a character other than a dot has
      extension `.html` and the source's base name. */
  lemma {:induction false} DesiredFilenameSplits(kind: Kind, source: string)
    requires kind != Copy
    requires exists i | RFind(source, '/') < i < |source| :: source[i] != '.'
    ensures SplitExt(DesiredFilename(kind, source)) == (SplitExt(source).0, ".html")
  {
    var base, ext := SplitExt(source).0, SplitExt(source).1;
    var out := base + ".html";
    var sep := RFind(source, '/');
    var i := NameCharacter(source);
    assert '/' !in ext;
    RFindAppend(base, ext, '/');
    RFindAppend(base, ".html", '/');
    assert RFind(out, '.') == |base| by {
      assert out[|base|] == '.';
    }
    assert out[i] == source[i];
    SplitExtAt(out, i);
    assert out[..|base|] == base && out[|base|..] == ".html";
  }

  /** A non-dot character of the source's last component that stays in its base name. */
  lemma NameCharacter(source: string) returns (i: int)
    requires exists i | RFind(source, '/') < i < |source| :: source[i] != '.'
    ensures RFind(source, '/') < i < |SplitExt(source).0| && source[i] != '.'
  {
    var sep, dot := RFind(source, '/'), RFind(source, '.');
    if sep < dot && exists i | sep + 1 <= i < dot :: source[i] != '.' {
      i :| sep + 1 <= i < dot && source[i] != '.';
    } else {
      i :| sep < i < |source| && source[i] != '.';
    }
  }

  lemma SplitExtAt(p: string, i: int)
    requires RFind(p, '/') < i < RFind(p, '.') && p[i] != '.'
    ensures SplitExt(p) == (p[..RFind(p, '.')], p[RFind(p, '.')..])
  {
  }

  // ---------------------------------------------------------------------------
  // The header block

  /** The index of the first blank line (where a `for line in f` loop that
      stops at an empty right-stripped line breaks), or the number of lines. */
  function HeaderEnd(lines: seq<string>): (n: nat)
    ensures n <= |lines|
    ensures forall i | 0 <= i < n :: !Blank(lines[i])
    ensures n < |lines| ==> Blank(lines[n])
    decreases |lines|
  {
    if lines == [] || Blank(lines[0]) then 0 else 1 + HeaderEnd(lines[1..])
  }

  function RStripAll(lines: seq<string>): (r: seq<string>)
    ensures |r| == |lines|
    ensures forall i | 0 <= i < |lines| :: r[i] == RStrip(lines[i])
  {
    seq(|lines|, i requires 0 <= i < |lines| => RStrip(lines[i]))
  }

  /** The right-stripped lines before the first blank line. */
  function Block(lines: seq<string>): (r: seq<string>)
    ensures |r| == HeaderEnd(lines)
    ensures forall i | 0 <= i < |r| :: r[i] != "" && r[i] == RStrip(lines[i])
  {
    RStripAll(lines[..HeaderEnd(lines)])
  }

  /** The header loop of `prepare` (and the title loop of the
      reStructuredText parser): collect right-stripped lines up to the first
      empty one, which is consumed. */
  method ReadBlock(lines: seq<string>) returns (block: seq<string>, next: nat)
    ensures next == HeaderEnd(lines)
    ensures block == Block(lines)
  {
    block, next := [], 0;
    while next < |lines|
      invariant next <= HeaderEnd(lines)
      invariant block == RStripAll(lines[..next])
    {
      var line := RStrip(lines[next]);
      if line == "" {
        break;
      }
      assert lines[..next + 1] == lines[..next] + [lines[next]];
      block := block + [line];
      next := next + 1;
    }
  }

  /** The lines after the header block and its blank line. */
  function AfterBlock(lines: seq<string>): seq<string> {
    var n := HeaderEnd(lines);
    if n < |lines| then lines[n + 1..] else []
  }

  /** The YAML document made of the header: `---` goes first unless the
      header starts with it, and one trailing `---` is dropped. An empty
      header is the `IndexError` that `prepare` reports as a meta error. */
  function Normalise(headers: seq<string>): (r: Result<seq<string>>)
    ensures r.Err? <==> headers == []
    ensures r.Err? ==> r.error == FileMetaError([])
    ensures headers == ["---"] ==> r == Ok([])
    ensures r.Ok? && headers[0] != "---" && headers[|headers| - 1] != "---" ==> r.value == ["---"] + headers
    ensures r.Ok? && headers[0] != "---" && headers[|headers| - 1] == "---" ==>
      r.value == ["---"] + headers[..|headers| - 1]
    ensures r.Ok? && headers[0] == "---" && headers[|headers| - 1] != "---" ==> r.value == headers
    ensures r.Ok? && |headers| >= 2 && headers[0] == "---" && headers[|headers| - 1] == "---" ==>
      r.value == headers[..|headers| - 1]
  {
    if headers == [] then Err(FileMetaError([]))
    else
      var framed := if headers[0] != "---" then ["---"] + headers else headers;
      if framed[|framed| - 1] == "---" then Ok(framed[..|framed| - 1]) else Ok(framed)
  }

  // ---------------------------------------------------------------------------
  // Applying the header

  /** A header's `pub_date` as stored: a date or datetime becomes a datetime
      at midnight of that day; anything else is not a publication date. */
  function PubDate(v: Value): (r: Option<Value>)
    ensures r.Some? <==> v.Date? || v.DateTime?
    ensures r.Some? ==> r.value == DateTime(v.year, v.month, v.day, 0, 0, 0)
  {
    match v
    case Date(y, m, d) => Some(DateTime(y, m, d, 0, 0, 0))
    case DateTime(y, m, d, _, _, _) => Some(DateTime(y, m, d, 0, 0, 0))
    case _ => None
  }

  /** The metadata after a header dict `cfg`: the header's title (if truthy)
      or else the title read from the body; a publication date normalised to
      midnight; type and summary when present and not null. Each field
      without a value keeps the old one. */
  function MetaFrom(cfg: Mapping, meta: FileMeta, bodyTitle: Value): (r: FileMeta)
    ensures Truthy(GetOr(cfg, "title", Null)) ==> r.title == GetOr(cfg, "title", Null)
    ensures !Truthy(GetOr(cfg, "title", Null)) && bodyTitle != Null ==> r.title == bodyTitle
    ensures !Truthy(GetOr(cfg, "title", Null)) && bodyTitle == Null ==> r.title == meta.title
    ensures r.pubDate == meta.pubDate || (r.pubDate.DateTime? && r.pubDate.hour == 0 && r.pubDate.minute == 0 && r.pubDate.second == 0)
    ensures "pub_date" !in Keys(cfg) ==> r.pubDate == meta.pubDate
    ensures "type" !in Keys(cfg) ==> r.postType == meta.postType
    ensures "summary" !in Keys(cfg) ==> r.summary == meta.summary
    ensures GetOr(cfg, "type", Null) != Null ==> r.postType == GetOr(cfg, "type", Null)
    ensures GetOr(cfg, "summary", Null) != Null ==> r.summary == GetOr(cfg, "summary", Null)
  {
    var title := Or(GetOr(cfg, "title", Null), bodyTitle);
    var postType := GetOr(cfg, "type", Null);
    var summary := GetOr(cfg, "summary", Null);
    FileMeta(
      if title != Null then title else meta.title,
      match PubDate(GetOr(cfg, "pub_date", Null)) { case Some(d) => d case None => meta.pubDate },
      if summary != Null then summary else meta.summary,
      if postType != Null then postType else meta.postType)
  }

  /** What `prepare` does to its context: nothing, or a layer made of the
      header dict, the destination and the metadata. */
  datatype Header = Unchanged | Update(cfg: Mapping, destination: Value, meta: FileMeta)

  /** The title `_parse_title_from_content` reads: none for Markdown; for
      reStructuredText the title docutils finds in the block that follows
      the header (an empty document when the file ends first). */
  function BodyTitle(kind: Kind, lines: seq<string>, headerLevel: Value, lib: Library): Value {
    if kind == ReStructuredText then
      Str(lib.renderRst(JoinWith(Block(AfterBlock(lines)), '\n'), headerLevel).title)
    else Null
  }

  /** What `prepare` makes of the loaded header document `doc`. */
  function ApplyLoaded(loaded: Result<Value>, doc: seq<string>, source: string, destination: Value,
                       meta: FileMeta, title: Value): (r: Result<Header>)
    ensures r.Ok? && r.value.Update? ==> r.value.cfg != []
    ensures r.Ok? && r.value.Update? && "destination_filename" !in Keys(r.value.cfg) ==>
      r.value.destination == destination
  {
    match loaded
    case Err(_) => Err(FileMetaError(doc))
    case Ok(cfg) =>
      if !Truthy(cfg) then Ok(Unchanged)
      else if !cfg.Dict? then Err(ValueError("expected dict config in file \"" + source + "\""))
      else Ok(Update(cfg.entries, GetOr(cfg.entries, "destination_filename", destination),
                     MetaFrom(cfg.entries, meta, title)))
  }

  /** `prepare()` of a parser on the source text. */
  function PrepareOf(kind: Kind, text: string, source: string, headerLevel: Value, destination: Value,
                     meta: FileMeta, lib: Library): (r: Result<Header>)
    ensures kind == Copy ==> r == Ok(Unchanged)
    ensures r.Ok? && r.value.Update? ==> r.value.cfg != []
    ensures r.Ok? && r.value.Update? && "destination_filename" !in Keys(r.value.cfg) ==>
      r.value.destination == destination
    ensures kind != Copy && (Lines(text) == [] || Blank(Lines(text)[0])) ==> r == Err(FileMetaError([]))
    ensures kind != Copy && HeaderEnd(Lines(text)) > 0 ==>
      var doc := Normalise(Block(Lines(text))).value;
      var loaded := lib.loadYaml(JoinWith(doc, '\n'));
      && (loaded.Err? ==> r == Err(FileMetaError(doc)))
      && (loaded.Ok? && !Truthy(loaded.value) ==> r == Ok(Unchanged))
      && (loaded.Ok? && Truthy(loaded.value) && !loaded.value.Dict? ==> r.Err? && r.error.ValueError?)
      && (loaded.Ok? && Truthy(loaded.value) && loaded.value.Dict? ==>
            r == Ok(Update(loaded.value.entries,
                           GetOr(loaded.value.entries, "destination_filename", destination),
                           MetaFrom(loaded.value.entries, meta, BodyTitle(kind, Lines(text), headerLevel, lib)))))
  {
    if kind == Copy then Ok(Unchanged)
    else
      var lines := Lines(text);
      match Normalise(Block(lines))
      case Err(e) => Err(e)
      case Ok(doc) =>
        ApplyLoaded(lib.loadYaml(JoinWith(doc, '\n')), doc, source, destination, meta,
                    BodyTitle(kind, lines, headerLevel, lib))
  }

  // ---------------------------------------------------------------------------
  // The body

  /** What is left to `f.read()` after `while f.readline().strip(): pass`:
      the text after the first blank line, or nothing. */
  function AfterHeader(text: string): string
    decreases |text|
  {
    var i := Find(text, '\n');
    if i < 0 then ""
    else if Blank(text[..i]) then text[i + 1..]
    else AfterHeader(text[i + 1..])
  }

  /** The skipping loop of `RSTParser.parse`, reading line by line. */
  method SkipHeader(text: string) returns (rest: string)
    ensures rest == AfterHeader(text)
  {
    var pos := 0;
    while pos < |text|
      invariant pos <= |text|
      invariant AfterHeader(text[pos..]) == AfterHeader(text)
      decreases |text| - pos
    {
      var i := Find(text[pos..], '\n');
      if i < 0 {
        return "";
      }
      assert text[pos..][i + 1..] == text[pos + i + 1..];
      if Blank(text[pos..][..i]) {
        return text[pos + i + 1..];
      }
      pos := pos + i + 1;
    }
    assert Find(text[pos..], '\n') < 0;
    return "";
  }

  lemma LinesOneLine(text: string)
    requires Find(text, '\n') < 0
    ensures Lines(text) == if text == "" then [] else [text]
  {
    assert Split(text, '\n') == [text];
  }

  lemma LinesNewline(text: string, i: nat)
    requires i < |text| && Find(text, '\n') == i
    ensures Lines(text) == [text[..i]] + Lines(text[i + 1..])
  {
    var ps := Split(text[i + 1..], '\n');
    assert Split(text, '\n') == [text[..i]] + ps;
    if ps[|ps| - 1] == "" {
      assert ([text[..i]] + ps)[..|ps|] == [text[..i]] + ps[..|ps| - 1];
    }
  }

  /** The body `RSTParser.parse` renders is exactly the lines that follow
      the header block and its blank line, the same split `prepare` makes. */
  lemma {:induction false} AfterHeaderLines(text: string)
    ensures Lines(AfterHeader(text)) == AfterBlock(Lines(text))
    decreases |text|
  {
    var i := Find(text, '\n');
    LinesOneLine("");
    if i < 0 {
      LinesOneLine(text);
    } else {
      AfterHeaderLines(text[i + 1..]);
      AfterHeaderLine(text, i);
    }
  }

  /** One line of the header: a blank first line ends it, and any other
      is skipped together with its newline. */
  lemma AfterHeaderLine(text: string, i: nat)
    requires i < |text| && Find(text, '\n') == i
    requires Lines(AfterHeader(text[i + 1..])) == AfterBlock(Lines(text[i + 1..]))
    ensures Lines(AfterHeader(text)) == AfterBlock(Lines(text))
  {
    var rest := text[i + 1..];
    LinesNewline(text, i);
    var lines := Lines(text);
    assert lines[1..] == Lines(rest);
    if Blank(text[..i]) {
      assert AfterHeader(text) == rest;
      assert AfterBlock(lines) == lines[1..];
    } else {
      assert AfterHeader(text) == AfterHeader(rest);
      assert HeaderEnd(lines) == 1 + HeaderEnd(Lines(rest));
      assert AfterBlock(lines) == AfterBlock(Lines(rest));
    }
  }

  /** `_render_rst`'s dict of a docutils result. */
  function RstPost(parts: RstParts): Mapping {
    [Entry("title", Str(parts.title)), Entry("html_title", Str(parts.htmlTitle)), Entry("content", Str(parts.fragment))]
  }

  /** The dict a template parser's `parse()` returns. */
  function ParseOf(kind: Kind, text: string, headerLevel: Value, style: Value, lib: Library): (r: Mapping)
    requires kind != Copy
    ensures Get(r, "content").Some?
    ensures UniqueKeys(r)
  {
    if kind == ReStructuredText then RstPost(lib.renderRst(AfterHeader(text), headerLevel))
    else
      [Entry("content", Str(lib.renderMarkdown(text, style)))]
  }

  /** What a page template sees of the objects around the page, as
      snapshots of their state: the file context's metadata and
      destination, its configuration layers, and the builder's project
      folder. */
  datatype PageScope = PageScope(meta: FileMeta, destination: Value, layers: seq<Mapping>, project: string)

  /** A `FileMeta` as the template reads its attributes. */
  function MetaValue(meta: FileMeta): Value {
    Dict([Entry("title", meta.title), Entry("pub_date", meta.pubDate),
          Entry("summary", meta.summary), Entry("type", meta.postType)])
  }

  /** A configuration stack as its layers, outermost first. */
  function LayersValue(layers: seq<Mapping>): (r: Value)
    ensures r.List? && |r.items| == |layers|
    ensures forall i | 0 <= i < |layers| :: r.items[i] == Dict(layers[i])
    decreases |layers|
  {
    if layers == [] then List([])
    else List([Dict(layers[0])] + LayersValue(layers[1..]).items)
  }

  /** The dict a page template receives: the file context's default
      context (`source_filename`, `links`, `ctx`, `config`), updated with
      the parsed file as `post`, then given `builder` by the builder's
      `render_template`, in that insertion order. */
  function TemplateContext(source: string, links: seq<Value>, parsed: Mapping, scope: PageScope): (r: Mapping)
    ensures Keys(r) == ["source_filename", "links", "ctx", "config", "post", "builder"]
  {
    [Entry("source_filename", Str(source)),
     Entry("links", List(links)),
     Entry("ctx", Dict([Entry("source_filename", Str(source)), Entry("destination_filename", scope.destination),
                        Entry("meta", MetaValue(scope.meta))])),
     Entry("config", LayersValue(scope.layers)),
     Entry("post", Dict(parsed)),
     Entry("builder", Dict([Entry("project_folder", Str(scope.project))]))]
  }

  /** Two pages get the same template context only when they agree on
      everything it is made from: the source, the links, the parsed file,
      the metadata, the destination, the layers and the project. */
  lemma TemplateContextInjective(source: string, links: seq<Value>, parsed: Mapping, scope: PageScope,
                                 source': string, links': seq<Value>, parsed': Mapping, scope': PageScope)
    requires TemplateContext(source, links, parsed, scope) == TemplateContext(source', links', parsed', scope')
    ensures source == source' && links == links' && parsed == parsed' && scope == scope'
  {
    var r, r' := TemplateContext(source, links, parsed, scope), TemplateContext(source', links', parsed', scope');
    assert r[2].value.entries[2].value == r'[2].value.entries[2].value;
    assert scope.meta == scope'.meta;
    var ls, ls' := LayersValue(scope.layers), LayersValue(scope'.layers);
    assert ls == r[3].value && ls' == r'[3].value;
    assert |scope.layers| == |scope'.layers|;
    assert forall i | 0 <= i < |scope.layers| :: Dict(scope.layers[i]) == ls.items[i] == ls'.items[i] == Dict(scope'.layers[i]);
    assert scope.layers == scope'.layers;
  }

  /** What `run()` leaves on disk when the parser has parsed nothing yet:
      a copy of the source, or the page rendered from the template the
      configuration names (or the default) with a final newline. The
      destination path is computed where the source computes it (before
      the copy, after the rendering), so a destination that cannot be
      computed fails at that point. Only the destination changes, and it is
      stamped `now`. */
  function Output(kind: Kind, style: Value, source: string, fullSource: string, fullDestination: Result<string>,
                  template: Value, links: seq<Value>, scope: PageScope, headerLevel: Value, fs: Fs, now: int, lib: Library): (r: Result<Fs>)
    ensures kind == Copy && fullDestination.Err? ==> r == Err(fullDestination.error)
    ensures (kind != Copy || fullDestination.Ok?) && fullSource !in fs ==> r == Err(OSError(fullSource))
    ensures kind == Copy && fullDestination.Ok? && fullSource in fs ==>
      r == Ok(fs[fullDestination.value := FileData(now, fs[fullSource].text)])
    ensures r.Ok? ==> fullDestination.Ok?
    ensures r.Ok? ==> fullDestination.value in r.value && r.value[fullDestination.value].mtime == now
    ensures r.Ok? ==> forall f | f != fullDestination.value :: (f in r.value <==> f in fs) && (f in fs ==> r.value[f] == fs[f])
  {
    if kind == Copy then
      match fullDestination
      case Err(e) => Err(e)
      case Ok(dst) =>
        if fullSource !in fs then Err(OSError(fullSource))
        else Ok(fs[dst := FileData(now, fs[fullSource].text)])
    else if fullSource !in fs then Err(OSError(fullSource))
    else RenderPage(ParseOf(kind, fs[fullSource].text, headerLevel, style, lib), source, fullDestination, template, links, scope, fs, now, lib)
  }

  /** A template parser's `run()` once the file is parsed into `post`: the
      page rendered from `post` is written, with a final newline, under the
      destination, stamped `now`; nothing else changes. */
  function RenderPage(post: Mapping, source: string, fullDestination: Result<string>, template: Value, links: seq<Value>,
                      scope: PageScope, fs: Fs, now: int, lib: Library): (r: Result<Fs>)
    ensures r.Ok? <==> lib.renderTemplate(Or(template, Str(DefaultTemplate)), TemplateContext(source, links, post, scope)).Ok? && fullDestination.Ok?
    ensures r.Ok? ==> r.value == fs[fullDestination.value :=
      FileData(now, lib.renderTemplate(Or(template, Str(DefaultTemplate)), TemplateContext(source, links, post, scope)).value + "\n")]
  {
    match lib.renderTemplate(Or(template, Str(DefaultTemplate)), TemplateContext(source, links, post, scope))
    case Err(e) => Err(e)
    case Ok(page) =>
      match fullDestination
      case Err(e) => Err(e)
      case Ok(dst) => Ok(fs[dst := FileData(now, page + "\n")])
  }

  /** `parsed['content']`: the `KeyError` when the parse has no content. */
  function ContentOf(post: Mapping): (r: Result<Value>)
    ensures r.Ok? <==> "content" in Keys(post)
    ensures r.Ok? ==> r == Ok(GetOr(post, "content", Null))
    ensures r.Err? ==> r.error == KeyError(Str("content"))
  {
    match Get(post, "content")
    case Some(v) => Ok(v)
    case None => Err(KeyError(Str("content")))
  }

  // ---------------------------------------------------------------------------
  // The parser object

  class Parser {
    const kind: Kind
    /** The Pygments style of a Markdown parser: the root configuration's
        `modules.pygments.style`, or `tango`. */
    const style: Value
    /** `_parsed`: empty until the first successful `parsed`. */
    var parsed: Mapping
    /** The reStructuredText parser's `_fragment_cache`. */
    var fragments: Option<Mapping>

    constructor (kind: Kind, config: Configuration.Config)
      ensures this.kind == kind
      ensures style == Or(config.RootGet("modules.pygments.style", Null), Str("tango"))
      ensures parsed == [] && fragments == None
    {
      this.kind := kind;
      style := Or(config.RootGet("modules.pygments.style", Null), Str("tango"));
      parsed := [];
      fragments := None;
    }

    /** `prepare()`: a copied file is left alone; a template file's header
        is read, normalised, loaded and checked. The context is not touched
        here: the `Header` says what to write into it. */
    method Prepare(source: string, fullSource: string, fs: Fs, headerLevel: Value, destination: Value,
                   meta: FileMeta, lib: Library) returns (r: Result<Header>)
      ensures kind == Copy ==> r == Ok(Unchanged)
      ensures kind != Copy && fullSource !in fs ==> r == Err(OSError(fullSource))
      ensures kind != Copy && fullSource in fs ==>
        r == PrepareOf(kind, fs[fullSource].text, source, headerLevel, destination, meta, lib)
    {
      if kind == Copy {
        return Ok(Unchanged);
      }
      if fullSource !in fs {
        return Err(OSError(fullSource));
      }
      var headers, title := ReadHeader(Lines(fs[fullSource].text), headerLevel, lib);
      var doc :- Normalise(headers);
      r := ApplyLoaded(lib.loadYaml(JoinWith(doc, '\n')), doc, source, destination, meta, title);
    }

    /** The reading part of `prepare`: the header block, then the title in
        the block after it. */
    method ReadHeader(lines: seq<string>, headerLevel: Value, lib: Library) returns (headers: seq<string>, title: Value)
      ensures headers == Block(lines)
      ensures title == BodyTitle(kind, lines, headerLevel, lib)
    {
      var next;
      headers, next := ReadBlock(lines);
      title := Null;
      if kind == ReStructuredText {
        var rest := if next < |lines| then lines[next + 1..] else [];
        assert rest == AfterBlock(lines);
        var buffer, _ := ReadBlock(rest);
        title := Str(lib.renderRst(JoinWith(buffer, '\n'), headerLevel).title);
        assert title == BodyTitle(kind, lines, headerLevel, lib);
      }
    }

    /** `parse()`: the reStructuredText parser answers from its fragment
        cache once filled; otherwise the file is read and rendered. */
    method Parse(fullSource: string, fs: Fs, headerLevel: Value, lib: Library) returns (r: Result<Mapping>)
      requires kind != Copy
      modifies this
      ensures kind == ReStructuredText && old(fragments).Some? ==> r == Ok(old(fragments).value) && unchanged(this)
      ensures !(kind == ReStructuredText && old(fragments).Some?) && fullSource !in fs ==>
        r == Err(OSError(fullSource)) && unchanged(this)
      ensures !(kind == ReStructuredText && old(fragments).Some?) && fullSource in fs ==>
        && r == Ok(ParseOf(kind, fs[fullSource].text, headerLevel, style, lib))
        && parsed == old(parsed)
        && fragments == if kind == ReStructuredText then Some(r.value) else old(fragments)
    {
      if kind == ReStructuredText && fragments.Some? {
        return Ok(fragments.value);
      }
      if fullSource !in fs {
        return Err(OSError(fullSource));
      }
      var text := fs[fullSource].text;
      if kind == ReStructuredText {
        var body := SkipHeader(text);
        var p := RstPost(lib.renderRst(body, headerLevel));
        fragments := Some(p);
        return Ok(p);
      }
      return Ok(ParseOf(kind, text, headerLevel, style, lib));
    }

    /** The `parsed` property: parses while the memo is empty, then keeps the result. */
    method Parsed(fullSource: string, fs: Fs, headerLevel: Value, lib: Library) returns (r: Result<Mapping>)
      requires kind != Copy
      modifies this
      ensures old(parsed) != [] ==> r == Ok(old(parsed)) && unchanged(this)
      ensures old(parsed) == [] && fullSource in fs && !(kind == ReStructuredText && old(fragments).Some?) ==>
        r == Ok(ParseOf(kind, fs[fullSource].text, headerLevel, style, lib)) && parsed == r.value
      ensures old(parsed) == [] && fullSource !in fs && !(kind == ReStructuredText && old(fragments).Some?) ==>
        r == Err(OSError(fullSource))
      ensures old(parsed) == [] && kind == ReStructuredText && old(fragments).Some? ==>
        r == Ok(old(fragments).value) && parsed == r.value
      ensures r.Ok? ==> parsed == r.value
    {
      if parsed != [] {
        return Ok(parsed);
      }
      r := Parse(fullSource, fs, headerLevel, lib);
      if r.Ok? {
        parsed := r.value;
      }
    }

    /** `render_contents()`: nothing for a copied file, the parsed `content` otherwise. */
    method RenderContents(fullSource: string, fs: Fs, headerLevel: Value, lib: Library) returns (r: Result<Value>)
      modifies this
      ensures kind == Copy ==> r == Ok(Str("")) && unchanged(this)
      ensures kind != Copy && old(parsed) != [] ==> r == ContentOf(old(parsed)) && unchanged(this)
      ensures kind == ReStructuredText && old(parsed) == [] && old(fragments).Some? ==>
        r == ContentOf(old(fragments).value) && parsed == old(fragments).value
      ensures kind != Copy && old(parsed) == [] && fullSource in fs && !(kind == ReStructuredText && old(fragments).Some?) ==>
        && r == Ok(GetOr(ParseOf(kind, fs[fullSource].text, headerLevel, style, lib), "content", Null))
        && parsed == ParseOf(kind, fs[fullSource].text, headerLevel, style, lib)
      ensures kind != Copy && old(parsed) == [] && fullSource !in fs && !(kind == ReStructuredText && old(fragments).Some?) ==>
        r == Err(OSError(fullSource))
    {
      if kind == Copy {
        return Ok(Str(""));
      }
      var p :- Parsed(fullSource, fs, headerLevel, lib);
      r := ContentOf(p);
    }

    /** `run()`: a copy writes the source's text under the destination; a
        template parser renders the template named by the configuration
        (or the default) with the parsed file and writes the page with a
        final newline. Either way the destination is written at `now`. */
    method Run(source: string, fullSource: string, fullDestination: Result<string>, template: Value, links: seq<Value>,
               scope: PageScope, headerLevel: Value, fs: Fs, now: int, lib: Library) returns (r: Result<Fs>)
      modifies this
      ensures kind == Copy || (old(parsed) == [] && !(kind == ReStructuredText && old(fragments).Some?)) ==>
        r == Output(kind, style, source, fullSource, fullDestination, template, links, scope, headerLevel, fs, now, lib)
      ensures kind == Copy ==> unchanged(this)
      ensures kind != Copy && old(parsed) != [] ==>
        r == RenderPage(old(parsed), source, fullDestination, template, links, scope, fs, now, lib) && unchanged(this)
      ensures kind == ReStructuredText && old(parsed) == [] && old(fragments).Some? ==>
        && r == RenderPage(old(fragments).value, source, fullDestination, template, links, scope, fs, now, lib)
        && parsed == old(fragments).value
      ensures kind != Copy && old(parsed) == [] && fullSource in fs && !(kind == ReStructuredText && old(fragments).Some?) ==>
        parsed == ParseOf(kind, fs[fullSource].text, headerLevel, style, lib)
      ensures r.Ok? ==> fullDestination.Ok? && fullDestination.value in r.value && r.value[fullDestination.value].mtime == now
      ensures r.Ok? ==> forall f | f != fullDestination.value :: (f in r.value <==> f in fs) && (f in fs ==> r.value[f] == fs[f])
    {
      if kind == Copy {
        var dst :- fullDestination;
        if fullSource !in fs {
          return Err(OSError(fullSource));
        }
        return Ok(fs[dst := FileData(now, fs[fullSource].text)]);
      }
      var post :- Parsed(fullSource, fs, headerLevel, lib);
      r := RenderPage(post, source, fullDestination, template, links, scope, fs, now, lib);
    }
  }
}
