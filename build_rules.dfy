/** blogme/builder.py, the rules one file's build follows: which parser a
    source file gets, where its output goes, whether it is stale, which
    names the walk ignores, and where a link's page is written. Everything
    here is a function of the configuration layers, the file system and the
    file's names; the objects that use them are in module Building. */
module BuildRules {
  import opened Values
  import opened Paths
  import opened Glob
  import opened Urls
  import opened FileSystem
  import opened FileParser
  import opened Configuration

  /** `default_output_folder`. */
  const DefaultOutputFolder := "_build"

  /** The locale of a project that sets none. */
  const DefaultLocale := "zh"

  /** `RouteAndTemplateMixin.default_template_path`. */
  const DefaultTemplatePath := "_templates"

  /** `Builder.default_ignores`, in order. */
  const DefaultIgnores: seq<Value> :=
    [Str(".*"), Str("_*"), Str("config.yml"), Str("Makefile"), Str("README.*"), Str("*.conf")]

  /** `FileContext.default_file_parsers`, in insertion order. */
  const DefaultParsers: Mapping := [Entry("*.rst", Str("rst")), Entry("*.md", Str("md"))]

  // ---------------------------------------------------------------------------
  // Parser selection (`_guess_file_parser`)

  /** `builtin_file_parsers[name]`: the three registered names; a list or a
      dict cannot be hashed, anything else is a missing key. */
  function KindNamed(name: Value): (r: Result<Kind>)
    ensures r == Ok(Markdown) <==> name == Str("md")
    ensures r == Ok(ReStructuredText) <==> name == Str("rst")
    ensures r == Ok(Copy) <==> name == Str("copy")
    ensures r.Err? && (name.List? || name.Dict?) ==> r.error.TypeError?
    ensures r.Err? && !name.List? && !name.Dict? ==> r.error == KeyError(name)
  {
    match name
    case Str("md") => Ok(Markdown)
    case Str("rst") => Ok(ReStructuredText)
    case Str("copy") => Ok(Copy)
    case List(_) => Err(TypeError("unhashable type: 'list'"))
    case Dict(_) => Err(TypeError("unhashable type: 'dict'"))
    case _ => Err(KeyError(name))
  }

  /** The index of the first entry, in table order, whose key (a pattern)
      matches the name; the table's length if none does. */
  function FirstMatching(table: Mapping, name: string): (i: nat)
    ensures i <= |table|
    ensures i < |table| ==> Matches(name, table[i].key)
    ensures forall j | 0 <= j < i :: !Matches(name, table[j].key)
  {
    if table == [] then 0
    else if Matches(name, table[0].key) then 0
    else 1 + FirstMatching(table[1..], name)
  }

  /** The pattern table `_guess_file_parser` consults: the
      `file_parsers.*` entries of all layers, or the default table when
      there are none. */
  function ParserTable(layers: seq<Mapping>): (table: Mapping)
    ensures table != []
  {
    var listed := ListEntriesOf(layers, "file_parsers");
    if listed != [] then listed else DefaultParsers
  }

  /** The value of the first entry whose pattern matches the source, or `copy`. */
  function TableChoice(table: Mapping, source: string): (r: Value)
    ensures (forall j | 0 <= j < |table| :: !Matches(source, table[j].key)) ==> r == Str("copy")
  {
    var i := FirstMatching(table, source);
    if i < |table| then table[i].value else Str("copy")
  }

  /** The parser name `_guess_file_parser` settles on: a truthy
      `file_parser` setting, else the table's choice. */
  function ParserName(layers: seq<Mapping>, source: string): (r: Value)
    ensures Truthy(GetOf(layers, "file_parser", Null)) ==> r == GetOf(layers, "file_parser", Null)
  {
    var forced := GetOf(layers, "file_parser", Null);
    if Truthy(forced) then forced else TableChoice(ParserTable(layers), source)
  }

  /** The default table sends `.rst` files to reStructuredText, `.md`
      files to Markdown and the rest to the copier. */
  lemma DefaultTableChoice(source: string)
    ensures TableChoice(DefaultParsers, source) ==
      if EndsWith(source, ".rst") then Str("rst")
      else if EndsWith(source, ".md") then Str("md")
      else Str("copy")
  {
    var t := DefaultParsers;
    assert t[0].key == "*" + ".rst" && t[1].key == "*" + ".md";
    StarSuffix(source, ".rst");
    StarSuffix(source, ".md");
    assert FirstMatching(t, source) == if Matches(source, t[0].key) then 0 else 1 + FirstMatching(t[1..], source);
    assert FirstMatching(t[1..], source) == if Matches(source, t[1].key) then 0 else 1 + FirstMatching(t[2..], source);
    assert t[2..] == [];
  }

  /** Without a `file_parser` setting or `file_parsers` entries the
      default table decides. */
  lemma DefaultParserTable(layers: seq<Mapping>, source: string)
    requires !Truthy(GetOf(layers, "file_parser", Null))
    requires ListEntriesOf(layers, "file_parsers") == []
    ensures ParserName(layers, source) ==
      if EndsWith(source, ".rst") then Str("rst")
      else if EndsWith(source, ".md") then Str("md")
      else Str("copy")
  {
    assert ParserTable(layers) == DefaultParsers;
    DefaultTableChoice(source);
  }

  /** Configured `file_parsers` entries are matched with their whole key,
      `file_parsers.` included, as the pattern: a source whose path does
      not start with `file_parsers.` matches none of them and is copied. */
  lemma ConfiguredPatternsKeepPrefix(layers: seq<Mapping>, source: string)
    requires !Truthy(GetOf(layers, "file_parser", Null))
    requires ListEntriesOf(layers, "file_parsers") != []
    requires !StartsWith(source, "file_parsers.")
    ensures ParserName(layers, source) == Str("copy")
  {
    var table := ListEntriesOf(layers, "file_parsers");
    assert ParserTable(layers) == table;
    ListEntriesPrefixed(layers, "file_parsers");
    NoConfiguredMatch(table, source);
  }

  lemma NoConfiguredMatch(table: Mapping, source: string)
    requires AllPrefixed(table, "file_parsers.")
    requires !StartsWith(source, "file_parsers.")
    ensures forall j | 0 <= j < |table| :: !Matches(source, table[j].key)
  {
    var prefix := "file_parsers.";
    assert Literal(prefix);
    forall j | 0 <= j < |table| ensures !Matches(source, table[j].key) {
      var key := table[j].key;
      assert key == prefix + key[|prefix|..];
      if Matches(source, prefix + key[|prefix|..]) {
        LiteralPrefix(source, prefix, key[|prefix|..]);
      }
    }
  }

  // ---------------------------------------------------------------------------
  // Output paths and staleness

  /** `full_destination_filename`: the project folder, the `output_folder`
      setting (or `_build`) and the destination joined; `os.path.join`
      refuses a non-string part. */
  function FullDestinationOf(project: string, outputFolder: Value, destination: Value): (r: Result<string>)
    ensures r.Ok? <==> Or(outputFolder, Str(DefaultOutputFolder)).Str? && destination.Str?
    ensures r.Err? ==> r.error.TypeError?
    ensures r.Ok? && !StartsWith(destination.s, "/") ==>
      var folder := Join(project, Or(outputFolder, Str(DefaultOutputFolder)).s);
      StartsWith(r.value, folder) && EndsWith(r.value, destination.s)
    ensures r.Ok? && StartsWith(destination.s, "/") ==> r.value == destination.s
  {
    var folder := Or(outputFolder, Str(DefaultOutputFolder));
    if !folder.Str? || !destination.Str? then Err(TypeError("join() argument must be str"))
    else Ok(Join(Join(project, folder.s), destination.s))
  }

  /** `needs_build`: a missing destination needs building; otherwise the
      destination is stale exactly when it is strictly older than the
      source, whose modification time must then exist. */
  function NeedsBuildOf(fs: Fs, source: string, destination: string): (r: Result<bool>)
    ensures r == Ok(true) <==> destination !in fs || (source in fs && fs[destination].mtime < fs[source].mtime)
    ensures r.Err? <==> destination in fs && source !in fs
    ensures r.Err? ==> r.error == OSError(source)
  {
    if destination !in fs then Ok(true)
    else if source !in fs then Err(OSError(source))
    else Ok(fs[destination].mtime < fs[source].mtime)
  }

  /** Writing the destination no earlier than the source's time makes it
      current; in particular equal times mean no build. */
  lemma WrittenIsCurrent(fs: Fs, source: string, destination: string, data: FileData)
    requires source in fs && source != destination
    requires fs[source].mtime <= data.mtime
    ensures NeedsBuildOf(fs[destination := data], source, destination) == Ok(false)
  {
  }

  /** What a parser's `run` writes is current afterwards. */
  lemma OutputIsCurrent(kind: Kind, style: Value, source: string, fullSource: string, fullDestination: string,
                        template: Value, links: seq<Value>, scope: PageScope, headerLevel: Value, fs: Fs, now: int, lib: Library)
    requires fullSource in fs && fs[fullSource].mtime <= now
    requires Output(kind, style, source, fullSource, Ok(fullDestination), template, links, scope, headerLevel, fs, now, lib).Ok?
    ensures var fs' := Output(kind, style, source, fullSource, Ok(fullDestination), template, links, scope, headerLevel, fs, now, lib).value;
      NeedsBuildOf(fs', fullSource, fullDestination) == Ok(false)
  {
    var fs' := Output(kind, style, source, fullSource, Ok(fullDestination), template, links, scope, headerLevel, fs, now, lib).value;
    if fullSource != fullDestination {
      assert fs'[fullSource] == fs[fullSource];
    }
  }

  /** `slug`: the parser's desired file name with backslashes made slashes. */
  function Slug(kind: Kind, source: string): (r: string)
    ensures |r| == |DesiredFilename(kind, source)|
    ensures '\\' !in r
    ensures kind == Copy && '\\' !in source ==> r == source
  {
    var d := DesiredFilename(kind, source);
    assert forall i | 0 <= i < |d| && '\\' !in d :: d[i] != '\\';
    ReplaceChar(d, '\\', '/')
  }

  /** `dest_folder`: the project folder joined with the root layer's
      `output_folder` (or `_build`). */
  function DestFolderOf(project: string, rootOutput: Value): (r: Result<string>)
    ensures r.Ok? <==> Or(rootOutput, Str(DefaultOutputFolder)).Str?
    ensures r.Ok? && project != "" && !StartsWith(Or(rootOutput, Str(DefaultOutputFolder)).s, "/") ==>
      StartsWith(r.value, project)
  {
    var folder := Or(rootOutput, Str(DefaultOutputFolder));
    if folder.Str? then Ok(Join(project, folder.s)) else Err(TypeError("join() argument must be str"))
  }

  // ---------------------------------------------------------------------------
  // Ignore patterns (`_filter_files`)

  /** The inner loop of `_filter_files` from pattern `j` on: the first
      matching pattern ignores the name; a pattern that is not a string
      makes `fnmatch` raise `TypeError` when it is reached. */
  function IgnoredFrom(name: string, patterns: seq<Value>, j: nat): Result<bool>
    requires j <= |patterns|
    decreases |patterns| - j
  {
    if j == |patterns| then Ok(false)
    else if !patterns[j].Str? then Err(TypeError("expected str, bytes or os.PathLike object"))
    else if Matches(name, patterns[j].s) then Ok(true)
    else IgnoredFrom(name, patterns, j + 1)
  }

  function Ignored(name: string, patterns: seq<Value>): Result<bool> {
    IgnoredFrom(name, patterns, 0)
  }

  /** With string patterns only, a name is ignored exactly when one of
      them matches it. */
  lemma {:induction false} IgnoredByMatch(name: string, patterns: seq<Value>, j: nat)
    requires j <= |patterns|
    requires forall i | 0 <= i < |patterns| :: patterns[i].Str?
    ensures IgnoredFrom(name, patterns, j) == Ok(exists i | j <= i < |patterns| :: Matches(name, patterns[i].s))
    decreases |patterns| - j
  {
    if j < |patterns| && !Matches(name, patterns[j].s) {
      IgnoredByMatch(name, patterns, j + 1);
    }
  }

  /** The outer loop of `_filter_files`: the names no pattern ignores, in
      their order; the first error stops it. */
  function KeepAll(names: seq<string>, patterns: seq<Value>): (r: Result<seq<string>>)
    ensures r.Ok? <==> forall i | 0 <= i < |names| :: Ignored(names[i], patterns).Ok?
    ensures r.Ok? ==> forall x :: x in r.value <==> x in names && Ignored(x, patterns) == Ok(false)
    ensures r.Ok? ==> |r.value| <= |names|
  {
    if names == [] then Ok([])
    else
      var init, last := names[..|names| - 1], names[|names| - 1];
      assert forall i | 0 <= i < |init| :: init[i] == names[i];
      assert forall x | x in names :: x in init || x == last;
      match KeepAll(init, patterns)
      case Err(e) => Err(e)
      case Ok(kept) =>
        match Ignored(last, patterns)
        case Err(e) => Err(e)
        case Ok(true) => Ok(kept)
        case Ok(false) => Ok(kept + [last])
  }

  /** A single name is kept exactly when no pattern ignores it. */
  lemma KeepAllOne(name: string, patterns: seq<Value>)
    ensures KeepAll([name], patterns) == match Ignored(name, patterns)
      case Err(e) => Err(e)
      case Ok(true) => Ok([])
      case Ok(false) => Ok([name])
  {
    assert [name][..0] == [];
    assert KeepAll([], patterns) == Ok([]);
    assert [] + [name] == [name];
  }

  /** Filtering a list in two parts: the kept names of the first part
      followed by those of the second, in their original order; an error in
      the first part wins over one in the second. */
  lemma {:induction false} KeepAllAppend(a: seq<string>, b: seq<string>, patterns: seq<Value>)
    ensures KeepAll(a + b, patterns) == match KeepAll(a, patterns)
      case Err(e) => Err(e)
      case Ok(ka) => (match KeepAll(b, patterns)
        case Err(e) => Err(e)
        case Ok(kb) => Ok(ka + kb))
    decreases |b|
  {
    if b == [] {
      assert a + b == a;
      assert forall ka: seq<string> :: ka + [] == ka;
    } else {
      var init, last := b[..|b| - 1], b[|b| - 1];
      assert (a + b)[..|a + b| - 1] == a + init;
      assert (a + b)[|a + b| - 1] == last;
      KeepAllAppend(a, init, patterns);
      match KeepAll(a, patterns)
      case Err(e) =>
      case Ok(ka) =>
        match KeepAll(init, patterns)
        case Err(e) =>
        case Ok(ki) =>
          match Ignored(last, patterns)
          case Err(e) =>
          case Ok(ignored) =>
            assert ka + ki + [last] == ka + (ki + [last]);
    }
  }

  /** Once a prefix of the names fails, the whole scan fails the same way. */
  lemma {:induction false} KeepAllPrefixErr(names: seq<string>, patterns: seq<Value>, i: nat)
    requires i <= |names|
    requires KeepAll(names[..i], patterns).Err?
    ensures KeepAll(names, patterns) == KeepAll(names[..i], patterns)
    decreases |names|
  {
    if i < |names| {
      var init := names[..|names| - 1];
      assert init[..i] == names[..i];
      KeepAllPrefixErr(init, patterns, i);
    } else {
      assert names[..i] == names;
    }
  }

  /** `_filter_files` once the patterns are known: no names means no pass
      over the patterns, so even a non-iterable value raises nothing. */
  function Keep(names: seq<string>, patterns: Value): Result<seq<string>> {
    if names == [] then Ok([])
    else match Iterate(patterns)
      case Err(e) => Err(e)
      case Ok(items) => KeepAll(names, items)
  }

  /** `_filter_files(names, config)`: the kept names and the layers after
      `merged_get('ignore_files')` (which may have extended a layer's list). */
  function FilterOf(names: seq<string>, layers: seq<Mapping>): (r: (Result<seq<string>>, seq<Mapping>))
    ensures |r.1| == |layers|
  {
    var (patterns, layers') := MergedGetOf(layers, "ignore_files");
    match patterns
    case Err(e) => (Err(e), layers')
    case Ok(p) => (Keep(names, if p == Null then List(DefaultIgnores) else p), layers')
  }

  /** Without an `ignore_files` setting, the default patterns hide dot
      files, names starting with `_`, `config.yml`, `Makefile`, `README.*`
      and `*.conf`, and nothing else. */
  lemma DefaultIgnoresHide(name: string)
    ensures Ignored(name, DefaultIgnores) == Ok(
      || StartsWith(name, ".") || StartsWith(name, "_")
      || name == "config.yml" || name == "Makefile"
      || StartsWith(name, "README.") || EndsWith(name, ".conf"))
  {
    var ps := DefaultIgnores;
    assert ps[0].s == "." + "*" && ps[1].s == "_" + "*" && ps[4].s == "README." + "*" && ps[5].s == "*" + ".conf";
    PrefixStar(name, ".");
    PrefixStar(name, "_");
    LiteralMatchesItselfOnly(name, "config.yml");
    LiteralMatchesItselfOnly(name, "Makefile");
    PrefixStar(name, "README.");
    StarSuffix(name, ".conf");
    IgnoredByMatch(name, ps, 0);
    var hit := exists i | 0 <= i < |ps| :: Matches(name, ps[i].s);
    assert hit <==> (Matches(name, ps[0].s) || Matches(name, ps[1].s) || Matches(name, ps[2].s)
                 || Matches(name, ps[3].s) || Matches(name, ps[4].s) || Matches(name, ps[5].s));
  }

  /** Without any `ignore_files` setting the walk filters with the defaults
      and the layers stay as they were. */
  lemma FilterDefaults(names: seq<string>, layers: seq<Mapping>)
    requires forall i | 0 <= i < |layers| :: "ignore_files" !in Keys(layers[i])
    ensures FilterOf(names, layers) == (Keep(names, List(DefaultIgnores)), layers)
  {
    MergedGetAbsent(layers, "ignore_files");
  }

  // ---------------------------------------------------------------------------
  // Link targets (`_get_link_filename`)

  /** `_get_link_filename`: the built link without the URL prefix and its
      slash, percent-decoded, with `index.html` for a directory link, joined
      onto the output folder. */
  function LinkFilename(link: string, prefixPath: string, destFolder: string): (r: string)
    ensures var rel := Unquote(Drop(link, |prefixPath| + 1));
      var name := if rel == "" || EndsWith(rel, "/") then rel + "index.html" else rel;
      && EndsWith(r, name)
      && (!StartsWith(name, "/") && destFolder != "" ==> StartsWith(r, destFolder))
      && (StartsWith(name, "/") ==> r == name)
  {
    var rel := Unquote(Drop(link, |prefixPath| + 1));
    var name := if rel == "" || EndsWith(rel, "/") then rel + "index.html" else rel;
    Join(destFolder, name)
  }

  /** A link made of the prefix, a slash and the percent-encoded relative
      path of a file maps back to that file under the output folder. */
  lemma LinkFilenameRoundTrip(prefixPath: string, path: string, destFolder: string)
    requires Ascii(path) && path != [] && path[0] != '/' && path[|path| - 1] != '/'
    ensures LinkFilename(prefixPath + "/" + Quote(path), prefixPath, destFolder) == Join(destFolder, path)
  {
    var link := prefixPath + "/" + Quote(path);
    assert Drop(link, |prefixPath| + 1) == Quote(path);
    UnquoteQuote(path);
    assert !EndsWith(path, "/");
  }
}
