/** blogme/builder.py, the objects: a `FileContext` per source file, and
    the `Builder` that walks the project, keeps the modules' storage and
    runs the contexts. Each method is proved to do what module Walking
    says a build does. The signals a method sends are returned, in order, as its `sent` trace. */
module Building {
  import opened Values
  import opened Paths
  import opened Glob
  import opened FileSystem
  import opened FileParser
  import opened Configuration
  import opened BuildRules
  import opened Walking

  /** `after` is the stack `before` with at most one layer pushed on top. */
  predicate Pushed(before: seq<Layer>, after: seq<Layer>) {
    |before| <= |after| <= |before| + 1 && after[..|before|] == before
  }

  /** The dict a module gets from `get_storage`. */
  class Storage {
    var entries: Mapping

    constructor ()
      ensures entries == []
    {
      entries := [];
    }
  }

  /** One source file on its way to the output folder. */
  class FileContext {
    const builder: Builder
    var config: Config
    var meta: FileMeta
    /** The path relative to the project folder. */
    const source: string
    /** The path relative to the output folder (a string unless front
        matter set something else). */
    var destination: Value
    /** `_link_tags`, the stylesheets added for the template. */
    var links: seq<Value>
    const parser: Parser

    /** The fields `__init__` sets once the parser is chosen. */
    constructor (builder: Builder, config: Config, source: string, kind: Kind)
      ensures this.builder == builder && this.config == config && this.source == source
      ensures meta == DefaultMeta && links == []
      ensures fresh(parser) && parser.kind == kind && parser.parsed == [] && parser.fragments == None
      ensures parser.style == Or(config.RootGet("modules.pygments.style", Null), Str("tango"))
      ensures destination == Str(DesiredFilename(kind, source))
    {
      this.builder := builder;
      this.config := config;
      this.source := source;
      meta := DefaultMeta;
      links := [];
      parser := new Parser(kind, config);
      destination := Str(DesiredFilename(kind, source));
    }

    /** `_guess_file_parser`: a truthy `file_parser` setting names the
        parser; otherwise the first pattern of the configured table (the
        default table when none is configured) that matches the source;
        otherwise `copy`. An unknown name is a `KeyError`. */
    static method GuessFileParser(config: Config, source: string) returns (r: Result<Kind>)
      ensures r == KindNamed(ParserName(config.Layers(), source))
    {
      var name := config.Get("file_parser", Null);
      if !Truthy(name) {
        var mapping := config.ListEntries("file_parsers");
        if mapping == [] {
          mapping := DefaultParsers;
        }
        name := ChooseFromTable(mapping, source);
      }
      r := KindNamed(name);
    }

    /** The loop of `_guess_file_parser` over the pattern table: the value
        of the first matching pattern, `copy` when none matches. */
    static method ChooseFromTable(mapping: Mapping, source: string) returns (name: Value)
      ensures name == TableChoice(mapping, source)
    {
      name := Str("copy");
      var i := 0;
      while i < |mapping|
        invariant i <= |mapping|
        invariant forall j | 0 <= j < i :: !Matches(source, mapping[j].key)
      {
        if Matches(source, mapping[i].key) {
          name := mapping[i].value;
          break;
        }
        i := i + 1;
      }
      assert FirstMatching(mapping, source) == i;
    }

    /** `__init__(builder, config, source_filename, prepare)` where the
        first `n` layers of `config` are the root's: the parser is guessed
        and the destination is the parser's desired name; when preparing,
        the front matter may add a configuration layer, redirect the
        destination and fill the metadata, and then the prepared signal is
        sent, followed by the published signal for a public file. The
        context is new, with its own parser, and its configuration is
        `config` with at most one new layer on top. */
    static method Make(builder: Builder, config: Config, source: string, mode: Mode, fs: Fs, lib: Library, ghost n: nat)
      returns (r: Result<FileContext>, sent: seq<Event>)
      requires n <= |config.stack|
      ensures r.Ok? ==>
        && fresh(r.value) && fresh(r.value.parser) && r.value.builder == builder
        && r.value.links == [] && r.value.Unparsed()
        && Pushed(old(config.stack), r.value.config.stack)
        && (|r.value.config.stack| > |old(config.stack)| ==> fresh(r.value.config.stack[|old(config.stack)|]))
      ensures var spec := ContextOf(old(config.Layers())[..n], old(config.Layers())[n..], source, mode, Env(builder.projectFolder, fs, lib));
        && (r.Err? <==> spec.Err?)
        && (r.Err? ==> r.error == spec.error && sent == [])
        && (r.Ok? ==> r.value.Summary(n) == spec.value.0 && sent == spec.value.1)
    {
      ghost var layers, env := config.Layers(), Env(builder.projectFolder, fs, lib);
      assert layers[..n] + layers[n..] == layers;
      sent := [];
      var made := Construct(builder, config, source, n);
      if made.Err? {
        return Err(made.error), [];
      }
      var c := made.value;
      ghost var m := c.Summary(n);
      assert ContextOf(layers[..n], layers[n..], source, mode, env)
        == if mode == Probe then Ok((m, [])) else Prepared(layers[..n], m, env);
      if mode == Build {
        var prepared;
        prepared, sent := c.PrepareFile(n, fs, lib);
        if prepared.Err? {
          return Err(prepared.error), [];
        }
      }
      return Ok(c), sent;
    }

    /** The part of `__init__` before `prepare`: the guessed parser, a
        context over `config` with the parser's desired destination. */
    static method Construct(builder: Builder, config: Config, source: string, ghost n: nat) returns (r: Result<FileContext>)
      requires n <= |config.stack|
      ensures var kind := KindNamed(ParserName(config.Layers(), source));
        && (r.Err? <==> kind.Err?)
        && (r.Err? ==> r.error == kind.error)
        && (r.Ok? ==>
              && fresh(r.value) && fresh(r.value.parser) && r.value.builder == builder
              && r.value.config == config && r.value.links == [] && r.value.Unparsed()
              && r.value.Summary(n) == Initial(config.Layers(), config.Layers()[n..], source, kind.value))
    {
      var kind :- GuessFileParser(config, source);
      var c := new FileContext(builder, config, source, kind);
      SnapshotDrop(config.stack, n);
      return Ok(c);
    }

    /** The `prepare` part of `__init__` on a context just constructed,
        whose first `n` layers are the root's, and the signals after it. */
    method PrepareFile(ghost n: nat, fs: Fs, lib: Library) returns (r: Result<()>, sent: seq<Event>)
      requires n <= |config.stack| && Unparsed()
      modifies this`config, this`destination, this`meta
      ensures var spec := Prepared(old(config.Layers())[..n], old(Summary(n)), Env(builder.projectFolder, fs, lib));
        && (r.Err? <==> spec.Err?)
        && (r.Err? ==> r.error == spec.error && sent == [])
        && (r.Ok? ==> n <= |config.stack| && Summary(n) == spec.value.0 && sent == spec.value.1)
      ensures Pushed(old(config.stack), config.stack)
      ensures |config.stack| > |old(config.stack)| ==> fresh(config.stack[|old(config.stack)|])
      ensures links == old(links) && unchanged(parser)
    {
      ghost var m, env := Summary(n), Env(builder.projectFolder, fs, lib);
      ghost var root := config.Layers()[..n];
      SnapshotDrop(config.stack, n);
      assert root + m.extra == config.Layers();
      var read := parser.Prepare(source, FullSource(), fs, HeaderLevel(), destination, meta, lib);
      assert config == old(config) && config.stack == old(config.stack);
      assert destination == m.destination && meta == m.meta;
      assert Snapshot(config.stack[n..]) == m.extra;
      assert Summary(n) == m;
      assert read == PrepareHeader(root, m, env);
      if read.Err? {
        return Err(read.error), [];
      }
      assert config.Layers()[..n] == root;
      sent := Adopt(n, read.value);
      assert Prepared(root, m, env) == Ok((Summary(n), sent));
      return Ok(()), sent;
    }

    /** What the front matter read by `prepare` changes in a context whose
        first `n` layers are the root's. */
    method Apply(ghost n: nat, header: Header)
      requires n <= |config.stack|
      modifies this`config, this`destination, this`meta
      ensures Pushed(old(config.stack), config.stack)
      ensures |config.stack| > |old(config.stack)| ==> fresh(config.stack[|old(config.stack)|])
      ensures Summary(n) == Applied(old(Summary(n)), header)
      ensures config.Layers() == old(config.Layers())[..n] + Summary(n).extra
    {
      SnapshotDrop(config.stack, n);
      if header.Update? {
        ghost var before := config.stack;
        config := config.AddFromDict(header.cfg);
        destination := header.destination;
        meta := header.meta;
        assert config.stack[n..] == before[n..] + [config.stack[|before|]];
        SnapshotDrop(config.stack, n);
      }
    }

    /** `prepare`'s changes from the front matter read, then the
        signals: prepared, and published for a public file. */
    method Adopt(ghost n: nat, header: Header) returns (sent: seq<Event>)
      requires n <= |config.stack|
      modifies this`config, this`destination, this`meta
      ensures Pushed(old(config.stack), config.stack)
      ensures |config.stack| > |old(config.stack)| ==> fresh(config.stack[|old(config.stack)|])
      ensures Summary(n) == Applied(old(Summary(n)), header)
      ensures sent == Announce(old(config.Layers())[..n] + Summary(n).extra, source)
      ensures links == old(links)
    {
      Apply(n, header);
      var public := Public();
      sent := [FilePrepared(source)] + if public then [FilePublished(source)] else [];
    }

    /** What the walk knows of this context: the configuration layers
        above the first `n` of its stack. */
    function Summary(n: nat): Made
      requires n <= |config.stack|
      reads this, config, config.stack[n..]
    {
      Made(source, parser.kind, parser.style, destination, meta, Snapshot(config.stack[n..]))
    }

    /** What the page template sees of this context, its configuration
        and its builder. */
    function Scope(): PageScope
      reads this, config, config.stack, builder
    {
      PageScope(meta, destination, config.Layers(), builder.projectFolder)
    }

    function FullSource(): string {
      Join(builder.projectFolder, source)
    }

    /** `full_destination_filename`: under the configured output folder
        (`_build` by default) of the project. */
    function FullDestination(): (r: Result<string>)
      reads this, config, config.stack
      ensures r == FullDestinationOf(builder.projectFolder, GetOf(config.Layers(), "output_folder", Null), destination)
    {
      FullDestinationOf(builder.projectFolder, config.Get("output_folder", Null), destination)
    }

    /** `is_new`: the destination does not exist yet. */
    function IsNew(fs: Fs): (r: Result<bool>)
      reads this, config, config.stack
      ensures r.Ok? <==> FullDestination().Ok?
      ensures r.Ok? ==> (r.value <==> FullDestination().value !in fs)
    {
      match FullDestination()
      case Err(e) => Err(e)
      case Ok(d) => Ok(d !in fs)
    }

    /** `needs_build`: new, or older than the source. */
    function NeedsBuild(fs: Fs): (r: Result<bool>)
      reads this, config, config.stack
      ensures IsNew(fs) == Ok(true) ==> r == Ok(true)
      ensures IsNew(fs) == Ok(false) ==> r == NeedsBuildOf(fs, FullSource(), FullDestination().value)
      ensures IsNew(fs).Err? ==> r == IsNew(fs)
    {
      match FullDestination()
      case Err(e) => Err(e)
      case Ok(d) => NeedsBuildOf(fs, FullSource(), d)
    }

    /** `public`: the `public` setting, true by default. */
    predicate Public()
      reads this, config, config.stack
    {
      Truthy(config.Get("public", Bool(true)))
    }

    /** `slug`: the desired filename with forward slashes. */
    function Slug(): (r: string)
      ensures '\\' !in r
      ensures |r| == |DesiredFilename(parser.kind, source)|
    {
      BuildRules.Slug(parser.kind, source)
    }

    /** `add_stylesheet(href, type, media)`: a link tag to the static file,
        `text/css` when no type is given. */
    method AddStylesheet(href: string, kind: Value, media: Value, lib: Library)
      modifies this`links
      ensures links == old(links) + [Dict([
        Entry("href", Str(lib.linkTo("static", href))),
        Entry("type", if kind == Null then Str("text/css") else kind),
        Entry("media", media),
        Entry("rel", Str("stylesheet"))])]
      ensures |links| == |old(links)| + 1 && links[..|old(links)|] == old(links)
    {
      var t := kind;
      if t == Null {
        t := Str("text/css");
      }
      links := links + [Dict([Entry("href", Str(lib.linkTo("static", href))), Entry("type", t),
                              Entry("media", media), Entry("rel", Str("stylesheet"))])];
    }

    /** The `template` setting, `None` when unset. */
    function Template(): (r: Value)
      reads this, config, config.stack
      ensures r == GetOf(config.Layers(), "template", Null)
    {
      config.Get("template", Null)
    }

    /** The `rst_header_level` setting, 2 when unset. */
    function HeaderLevel(): (r: Value)
      reads this, config, config.stack
      ensures r == GetOf(config.Layers(), "rst_header_level", Int(2))
    {
      config.Get("rst_header_level", Int(2))
    }

    /** The parser has not parsed anything yet. */
    predicate Unparsed()
      reads this, parser
    {
      parser.parsed == [] && parser.fragments == None
    }

    /** This context as the builder's walk left it: made by `b`, over the
        root's layers `root` with layers of its own on top, its parser
        untouched, and `m` is what the walk knows of it. */
    ghost predicate Holds(b: Builder, root: seq<Layer>, m: Made)
      reads this, config, parser, if |root| <= |config.stack| then config.stack[|root|..] else []
    {
      && builder == b
      && |root| <= |config.stack| && config.stack[..|root|] == root
      && (forall k | |root| <= k < |config.stack| :: config.stack[k] !in root)
      && Summary(|root|) == m
      && links == [] && Unparsed()
    }

    /** A context whose first `n` layers are `root` decides `needs_build`
        as the walk does for what it knows of it. */
    lemma NeedsBuildAsMade(n: nat, root: seq<Mapping>, env: Env)
      requires n <= |config.stack| && Snapshot(config.stack[..n]) == root
      requires env.project == builder.projectFolder
      ensures NeedsBuild(env.fs) == NeedsBuildMade(Summary(n), root, env)
    {
      SnapshotTake(config.stack, n);
      SnapshotDrop(config.stack, n);
      assert config.Layers() == root + Summary(n).extra;
    }

    /** Whether `run(force_build)` builds: forced, or `needs_build`. */
    predicate Builds(force: bool, fs: Fs)
      reads this, config, config.stack
    {
      force || NeedsBuild(fs) == Ok(true)
    }

    /** `run(force_build)`: the processed signal; then, when forced or
        stale, the built signal and the parser's run, which writes the
        destination. An error deciding staleness stops it. */
    method Run(force: bool, fs: Fs, now: int, lib: Library) returns (r: Result<Fs>, sent: seq<Event>)
      modifies parser
      ensures sent == [FileProcessed(source)] + if old(Builds(force, fs)) then [FileBuilt(source)] else []
      ensures !force && old(NeedsBuild(fs)).Err? ==> r == Err(old(NeedsBuild(fs)).error)
      ensures !force && old(NeedsBuild(fs)) == Ok(false) ==> r == Ok(fs)
      ensures old(Builds(force, fs)) && old(Unparsed()) ==>
        r == Output(parser.kind, parser.style, source, FullSource(), old(FullDestination()),
                    old(Template()), links, old(Scope()), old(HeaderLevel()), fs, now, lib)
    {
      var dst, template, level, scope := FullDestination(), Template(), HeaderLevel(), Scope();
      var needed := NeedsBuild(fs);
      sent := [FileProcessed(source)];
      if !force && needed.Err? {
        return Err(needed.error), sent;
      }
      if force || needed.value {
        sent := sent + [FileBuilt(source)];
        r := parser.Run(source, FullSource(), dst, template, links, scope, level, fs, now, lib);
      } else {
        r := Ok(fs);
      }
    }
  }


  /** `prefix_path`, what `urlparse(canonical_url).path` gives: text for a
      string URL, and the empty bytes `b''` for an unset URL (`urlparse`
      of `None`), which `str.startswith` refuses. */
  datatype PrefixPath = Text(text: string) | EmptyBytes {
    /** The prefix as characters; `b''` has none (`len(b'') == 0`). */
    function Chars(): string {
      if Text? then text else ""
    }
  }

  class Builder {
    const config: Config
    const projectFolder: string
    /** The path of the canonical URL (`urlparse(canonical_url).path`). */
    const prefixPath: PrefixPath
    /** `_storage`: each module's dict. */
    var storage: map<string, Storage>

    constructor (projectFolder: string, config: Config, prefixPath: PrefixPath)
      ensures this.projectFolder == projectFolder && this.config == config && this.prefixPath == prefixPath
      ensures storage == map[]
    {
      this.projectFolder := projectFolder;
      this.config := config;
      this.prefixPath := prefixPath;
      storage := map[];
    }

    ghost predicate Valid()
      reads config, config.stack
    {
      config.Valid()
    }

    /** `dest_folder`: the root configuration's output folder (`_build` by
        default) under the project. */
    function DestFolder(): (r: Result<string>)
      reads config, config.stack
      ensures r == DestFolderOf(projectFolder, RootGetOf(config.Layers(), "output_folder", Null))
    {
      DestFolderOf(projectFolder, config.RootGet("output_folder", Null))
    }

    /** `get_storage(module)`: the named module's dict, made empty on first use. */
    method GetStorage(name: string) returns (s: Storage)
      modifies this`storage
      ensures name in old(storage) ==> s == old(storage)[name] && storage == old(storage)
      ensures name !in old(storage) ==> fresh(s) && s.entries == [] && storage == old(storage)[name := s]
      ensures name in storage && storage[name] == s
    {
      if name in storage {
        return storage[name];
      }
      s := new Storage();
      storage := storage[name := s];
    }

    /** `_get_link_filename` for the link `link_to` built: the link past the
        URL prefix, decoded, with `index.html` for a folder, under the
        output folder. */
    function GetLinkFilename(link: string): (r: Result<string>)
      reads config, config.stack
      ensures r.Ok? <==> DestFolder().Ok?
      ensures r.Ok? ==> r.value == LinkFilename(link, prefixPath.Chars(), DestFolder().value)
    {
      match DestFolder()
      case Err(e) => Err(e)
      case Ok(folder) => Ok(LinkFilename(link, prefixPath.Chars(), folder))
    }

    /** A directory's configuration: the root's layers, then layers of
        its own. */
    ghost predicate Under(local: Config)
      reads config, local
    {
      && |config.stack| <= |local.stack| && local.stack[..|config.stack|] == config.stack
      && forall k | |config.stack| <= k < |local.stack| :: local.stack[k] !in config.stack
    }

    /** The objects of a context, leaving out the root's layers, which
        `merged_get` may rewrite. */
    ghost function Own(c: FileContext): set<object>
      reads config, c, c.config
    {
      {c, c.config, c.parser} + set k | |config.stack| <= k < |c.config.stack| :: c.config.stack[k] as object
    }

    /** The contexts made so far, in order, and what the walk knows of
        each: every one holds for this builder over the root's layers, no
        two share a parser, and `repr` holds their own objects and none of
        the root's layers. */
    ghost predicate Owns(cs: seq<FileContext>, made: seq<Made>, repr: set<object>)
      reads config, repr
    {
      && (forall c | c in cs :: c in repr && c.config in repr && c.parser in repr)
      && (forall c, k | c in cs && |config.stack| <= k < |c.config.stack| :: c.config.stack[k] in repr)
      && (forall j | 0 <= j < |config.stack| :: config.stack[j] !in repr)
      && |cs| == |made|
      && (forall i | 0 <= i < |cs| :: cs[i].Holds(this, config.stack, made[i]))
      && (forall i, j | 0 <= i < j < |cs| :: cs[i].parser != cs[j].parser)
    }

    /** A directory `os.walk` reaches in `_iter_contexts`
        (Walking.VisitSpec): its `config.yml`, when there is one, is added
        on the root's layers; then its names are filtered and its files
        and subdirectories visited. Nothing happens once the walk has
        stopped. */
    method Visit(dirpath: string, listing: Listing, mode: Mode, fs: Fs, lib: Library,
                 cs: seq<FileContext>, log: seq<Event>, stop: Stop, ghost made: seq<Made>, ghost repr: set<object>)
      returns (cs': seq<FileContext>, log': seq<Event>, stop': Stop, ghost made': seq<Made>, ghost repr': set<object>)
      requires Valid() && Owns(cs, made, repr)
      modifies config.stack
      ensures Valid() && Owns(cs', made', repr')
      ensures forall c | c in cs' :: c in cs || fresh(c.parser)
      ensures Walk(made', stop', config.Layers(), log')
        == VisitSpec(dirpath, listing, Walk(made, stop, old(config.Layers()), log), mode, Env(projectFolder, fs, lib))
      decreases listing, 5
    {
      if stop != Running {
        return cs, log, stop, made, repr;
      }
      cs', log', stop', made', repr' := Enter(dirpath, listing, mode, fs, lib, cs, log, made, repr);
    }

    /** A directory reached while the walk is running. */
    method Enter(dirpath: string, listing: Listing, mode: Mode, fs: Fs, lib: Library,
                 cs: seq<FileContext>, log: seq<Event>, ghost made: seq<Made>, ghost repr: set<object>)
      returns (cs': seq<FileContext>, log': seq<Event>, stop': Stop, ghost made': seq<Made>, ghost repr': set<object>)
      requires Valid() && Owns(cs, made, repr)
      modifies config.stack
      ensures Valid() && Owns(cs', made', repr')
      ensures forall c | c in cs' :: c in cs || fresh(c.parser)
      ensures Walk(made', stop', config.Layers(), log')
        == VisitSpec(dirpath, listing, Walk(made, Running, old(config.Layers()), log), mode, Env(projectFolder, fs, lib))
      decreases listing, 4
    {
      ghost var w, env := Walk(made, Running, config.Layers(), log), Env(projectFolder, fs, lib);
      var local := LocalConfig(dirpath, fs, lib, repr);
      if local.Err? {
        assert VisitSpec(dirpath, listing, w, mode, env) == w.(stop := Failed(local.error));
        return cs, log, Failed(local.error), made, repr;
      }
      ghost var own := local.value.Layers()[|config.stack|..];
      assert VisitSpec(dirpath, listing, w, mode, env) == DirectorySpec(dirpath, listing, w, own, mode, env);
      cs', log', stop', made', repr' := Directory(dirpath, listing, local.value, mode, fs, lib, cs, log, made, repr, w, own);
    }

    /** `local_config` of a directory (Walking.LocalLayer): the root's
        configuration, or a new one with the directory's `config.yml` as its
        top layer; a document that loads as nothing leaves `None`, on which
        the next `merged_get` raises `AttributeError`. */
    method LocalConfig(dirpath: string, fs: Fs, lib: Library, ghost repr: set<object>) returns (r: Result<Config>)
      requires Valid() && forall j | 0 <= j < |config.stack| :: config.stack[j] !in repr
      ensures r.Err? <==> LocalLayer(dirpath, Env(projectFolder, fs, lib)).Err?
      ensures r.Err? ==> r.error == LocalLayer(dirpath, Env(projectFolder, fs, lib)).error
      ensures r.Ok? ==> && Under(r.value) && r.value.Valid()
                        && r.value.Layers()[|config.stack|..] == LocalLayer(dirpath, Env(projectFolder, fs, lib)).value
                        && (forall j | 0 <= j < |r.value.stack| :: r.value.stack[j] !in repr)
                        && (|| r.value.stack == config.stack
                            || (&& |r.value.stack| == |config.stack| + 1 && fresh(r.value.stack[|config.stack|])
                                && r.value.stack == config.stack + [r.value.stack[|config.stack|]]))
    {
      var file := Join(dirpath, "config.yml");
      if file !in fs {
        return Ok(config);
      }
      var added := config.AddFromFile(lib.loadYaml(fs[file].text));
      if added.Err? {
        return Err(added.error);
      } else if added.value.None? {
        return Err(AttributeError("'NoneType' object has no attribute 'merged_get'"));
      }
      r := Ok(added.value.value);
      assert r.value.Layers()[|config.stack|..] == [r.value.stack[|config.stack|].entries];
      forall j | 0 <= j < |r.value.stack| ensures r.value.stack[j] !in repr {
        if j < |config.stack| {
          assert r.value.stack[j] == config.stack[j];
        }
      }
    }

    /** A directory's step once its configuration `local` is known
        (Walking.DirectorySpec): the subdirectory names are filtered under
        it, then the rest of the step follows. */
    method Directory(dirpath: string, listing: Listing, local: Config, mode: Mode, fs: Fs, lib: Library,
                     cs: seq<FileContext>, log: seq<Event>, ghost made: seq<Made>, ghost repr: set<object>,
                     ghost w: Walk, ghost own: seq<Mapping>)
      returns (cs': seq<FileContext>, log': seq<Event>, stop: Stop, ghost made': seq<Made>, ghost repr': set<object>)
      requires Under(local) && local.Valid() && Owns(cs, made, repr)
      requires forall j | 0 <= j < |local.stack| :: local.stack[j] !in repr
      requires w == Walk(made, Running, config.Layers(), log) && own == local.Layers()[|config.stack|..]
      modifies local.stack
      ensures Valid() && Owns(cs', made', repr')
      ensures forall c | c in cs' :: c in cs || fresh(c.parser)
      ensures Walk(made', stop, config.Layers(), log') == DirectorySpec(dirpath, listing, w, own, mode, Env(projectFolder, fs, lib))
      decreases listing, 3
    {
      ghost var n, env := |config.stack|, Env(projectFolder, fs, lib);
      var dirs := FilterUnder(Names(listing.dirs), local, cs, made, repr);
      ghost var s1 := local.Layers();
      if dirs.Err? {
        return cs, log, Failed(dirs.error), made, repr;
      }
      assert DirectorySpec(dirpath, listing, w, own, mode, env)
        == FilteredSpec(dirpath, listing, dirs.value, w.(root := s1[..n]), s1[n..], mode, env);
      cs', log', stop, made', repr' := Filtered(dirpath, listing, dirs.value, local, mode, fs, lib, cs, log, made, repr,
                                                w.(root := s1[..n]), s1[n..]);
    }

    /** The step once the subdirectories to visit are known
        (Walking.FilteredSpec): the file names are filtered under `local`,
        the files' contexts made, the kept subdirectories visited. */
    method Filtered(dirpath: string, listing: Listing, kept: seq<string>, local: Config, mode: Mode, fs: Fs, lib: Library,
                    cs: seq<FileContext>, log: seq<Event>, ghost made: seq<Made>, ghost repr: set<object>,
                    ghost w: Walk, ghost own: seq<Mapping>)
      returns (cs': seq<FileContext>, log': seq<Event>, stop: Stop, ghost made': seq<Made>, ghost repr': set<object>)
      requires Under(local) && local.Valid() && Owns(cs, made, repr)
      requires forall j | 0 <= j < |local.stack| :: local.stack[j] !in repr
      requires w == Walk(made, Running, config.Layers(), log) && own == local.Layers()[|config.stack|..]
      modifies local.stack
      ensures Valid() && Owns(cs', made', repr')
      ensures forall c | c in cs' :: c in cs || fresh(c.parser)
      ensures Walk(made', stop, config.Layers(), log') == FilteredSpec(dirpath, listing, kept, w, own, mode, Env(projectFolder, fs, lib))
      decreases listing, 2
    {
      ghost var n, env := |config.stack|, Env(projectFolder, fs, lib);
      var files := FilterUnder(listing.files, local, cs, made, repr);
      ghost var s2 := local.Layers();
      if files.Err? {
        return cs, log, Failed(files.error), made, repr;
      }
      var rel := Drop(dirpath, |projectFolder| + 1);
      assert FilteredSpec(dirpath, listing, kept, w, own, mode, env)
        == ChildrenSpec(dirpath, listing, kept, FilesSpec(rel, files.value, w.(root := s2[..n]), s2[n..], mode, env), mode, env);
      cs', log', stop, made', repr' := Descend(dirpath, listing, kept, rel, files.value, local, mode, fs, lib, cs, log, made, repr,
                                              w.(root := s2[..n]), s2[n..]);
    }

    /** The contexts of a directory's kept files, then its kept
        subdirectories. */
    method Descend(dirpath: string, listing: Listing, kept: seq<string>, rel: string, names: seq<string>, local: Config,
                   mode: Mode, fs: Fs, lib: Library,
                   cs: seq<FileContext>, log: seq<Event>, ghost made: seq<Made>, ghost repr: set<object>,
                   ghost w: Walk, ghost own: seq<Mapping>)
      returns (cs': seq<FileContext>, log': seq<Event>, stop: Stop, ghost made': seq<Made>, ghost repr': set<object>)
      requires Valid() && Under(local) && Owns(cs, made, repr)
      requires w == Walk(made, Running, config.Layers(), log) && own == local.Layers()[|config.stack|..]
      modifies config.stack
      ensures Valid() && Owns(cs', made', repr')
      ensures forall c | c in cs' :: c in cs || fresh(c.parser)
      ensures Walk(made', stop, config.Layers(), log')
        == ChildrenSpec(dirpath, listing, kept, FilesSpec(rel, names, w, own, mode, Env(projectFolder, fs, lib)), mode, Env(projectFolder, fs, lib))
      decreases listing, 1
    {
      cs', log', stop, made', repr' := MakeFiles(rel, names, local, mode, fs, lib, cs, log, made, repr);
      cs', log', stop, made', repr' := VisitChildren(dirpath, listing, kept, mode, fs, lib, cs', log', stop, made', repr');
    }

    /** `_filter_files` under a directory's configuration `local`, whose
        first layers are the root's: those are the layers its
        `merged_get` may rewrite, and no context's own objects change. */
    method FilterUnder(names: seq<string>, local: Config, ghost cs: seq<FileContext>, ghost made: seq<Made>, ghost repr: set<object>)
      returns (r: Result<seq<string>>)
      requires Under(local) && local.Valid() && Owns(cs, made, repr)
      requires forall j | 0 <= j < |local.stack| :: local.stack[j] !in repr
      modifies local.stack
      ensures local.stack == old(local.stack) && Under(local) && local.Valid() && Valid() && Owns(cs, made, repr)
      ensures (r, local.Layers()) == FilterOf(names, old(config.Layers()) + old(local.Layers())[|config.stack|..])
      ensures config.Layers() == local.Layers()[..|config.stack|]
    {
      ghost var n, layers := |config.stack|, local.Layers();
      SnapshotTake(local.stack, n);
      assert layers == config.Layers() + layers[n..];
      r := FilterFiles(names, local);
      SnapshotTake(local.stack, n);
      ValidPrefix(local);
    }

    /** The root's layers are the first of a valid directory configuration. */
    lemma ValidPrefix(local: Config)
      requires Under(local) && local.Valid()
      ensures Valid()
    {
      forall i | 0 <= i < |config.stack| ensures config.stack[i] == local.stack[i] {
        assert local.stack[..|config.stack|][i] == local.stack[i];
      }
    }

    /** The walk into a directory's kept subdirectories, in order
        (Walking.ChildrenSpec); a kept name that is no subdirectory is
        passed over. */
    method VisitChildren(dirpath: string, listing: Listing, names: seq<string>, mode: Mode, fs: Fs, lib: Library,
                         cs: seq<FileContext>, log: seq<Event>, stop: Stop, ghost made: seq<Made>, ghost repr: set<object>)
      returns (cs': seq<FileContext>, log': seq<Event>, stop': Stop, ghost made': seq<Made>, ghost repr': set<object>)
      requires Valid() && Owns(cs, made, repr)
      modifies config.stack
      ensures Valid() && Owns(cs', made', repr')
      ensures forall c | c in cs' :: c in cs || fresh(c.parser)
      ensures Walk(made', stop', config.Layers(), log')
        == ChildrenSpec(dirpath, listing, names, Walk(made, stop, old(config.Layers()), log), mode, Env(projectFolder, fs, lib))
      decreases listing, 0
    {
      ghost var env := Env(projectFolder, fs, lib);
      ghost var w0 := Walk(made, stop, config.Layers(), log);
      cs', log', stop', made', repr' := cs, log, stop, made, repr;
      for i := 0 to |names|
        invariant Valid() && Owns(cs', made', repr')
        invariant forall c | c in cs' :: c in cs || fresh(c.parser)
        invariant Walk(made', stop', config.Layers(), log') == ChildrenSpec(dirpath, listing, names[..i], w0, mode, env)
      {
        assert names[..i + 1][..i] == names[..i];
        var k := SubNamed(listing.dirs, names[i]);
        if k < |listing.dirs| {
          cs', log', stop', made', repr' := Visit(Join(dirpath, names[i]), listing.dirs[k].listing, mode, fs, lib, cs', log', stop', made', repr');
        }
      }
      assert names[..|names|] == names;
    }

    /** The loop of `_iter_contexts` over a directory's kept files
        (Walking.FilesSpec): a context per name, relative to the project,
        under the directory's configuration `local`, whose first layers
        are the root's. Nothing is made once the walk has stopped. */
    method MakeFiles(rel: string, names: seq<string>, local: Config, mode: Mode, fs: Fs, lib: Library,
                     cs: seq<FileContext>, log: seq<Event>, ghost made: seq<Made>, ghost repr: set<object>)
      returns (cs': seq<FileContext>, log': seq<Event>, stop: Stop, ghost made': seq<Made>, ghost repr': set<object>)
      requires Owns(cs, made, repr) && Under(local)
      ensures config.Layers() == old(config.Layers()) && local.Layers() == old(local.Layers())
      ensures Owns(cs', made', repr')
      ensures forall c | c in cs' :: c in cs || fresh(c.parser)
      ensures Walk(made', stop, config.Layers(), log')
        == FilesSpec(rel, names, Walk(made, Running, config.Layers(), log), local.Layers()[|config.stack|..], mode, Env(projectFolder, fs, lib))
    {
      ghost var n, root, env := |config.stack|, config.Layers(), Env(projectFolder, fs, lib);
      ghost var layers := local.Layers();
      SnapshotTake(local.stack, n);
      ghost var w0 := Walk(made, Running, root, log);
      cs', log', stop, made', repr' := cs, log, Running, made, repr;
      for i := 0 to |names|
        invariant |config.stack| == n && Under(local)
        invariant config.Layers() == root && local.Layers() == layers
        invariant Owns(cs', made', repr')
        invariant forall c | c in cs' :: c in cs || fresh(c.parser)
        invariant Walk(made', stop, root, log') == FilesSpec(rel, names[..i], w0, layers[n..], mode, env)
      {
        assert names[..i + 1][..i] == names[..i];
        cs', log', stop, made', repr' := AddFile(Join(rel, names[i]), local, mode, fs, lib, cs', log', stop, made', repr');
      }
      assert names[..|names|] == names;
    }

    /** One step of that loop: a context made unless the walk has stopped. */
    method AddFile(source: string, local: Config, mode: Mode, fs: Fs, lib: Library,
                   cs: seq<FileContext>, log: seq<Event>, stop: Stop, ghost made: seq<Made>, ghost repr: set<object>)
      returns (cs': seq<FileContext>, log': seq<Event>, stop': Stop, ghost made': seq<Made>, ghost repr': set<object>)
      requires Owns(cs, made, repr) && Under(local)
      ensures config.stack == old(config.stack) && local.stack == old(local.stack)
      ensures config.Layers() == old(config.Layers()) && local.Layers() == old(local.Layers())
      ensures Owns(cs', made', repr')
      ensures forall c | c in cs' :: c in cs || fresh(c.parser)
      ensures var w := Walk(made, stop, config.Layers(), log);
        Walk(made', stop', config.Layers(), log')
          == if stop != Running then w else FileStep(source, w, local.Layers()[|config.stack|..], mode, Env(projectFolder, fs, lib))
    {
      cs', log', stop', made', repr' := cs, log, stop, made, repr;
      if stop == Running {
        cs', log', stop', made', repr' := AddMade(source, local, mode, fs, lib, cs, log, made, repr);
      }
    }

    /** That step on a running walk. */
    method AddMade(source: string, local: Config, mode: Mode, fs: Fs, lib: Library,
                   cs: seq<FileContext>, log: seq<Event>, ghost made: seq<Made>, ghost repr: set<object>)
      returns (cs': seq<FileContext>, log': seq<Event>, stop': Stop, ghost made': seq<Made>, ghost repr': set<object>)
      requires Owns(cs, made, repr) && Under(local)
      ensures config.stack == old(config.stack) && local.stack == old(local.stack)
      ensures config.Layers() == old(config.Layers()) && local.Layers() == old(local.Layers())
      ensures Owns(cs', made', repr')
      ensures cs' == cs || (|cs'| == |cs| + 1 && cs' == cs + [cs'[|cs|]] && fresh(cs'[|cs|].parser))
      ensures Walk(made', stop', config.Layers(), log')
        == FileStep(source, Walk(made, Running, config.Layers(), log), local.Layers()[|config.stack|..], mode, Env(projectFolder, fs, lib))
    {
      cs', log', made', repr' := cs, log, made, repr;
      SnapshotTake(local.stack, |config.stack|);
      var c, sent;
      c, sent, stop' := MakeFile(source, local, mode, fs, lib, Walk(made, Running, config.Layers(), log));
      if c.Ok? {
        AddOwned(cs, made, repr, c.value, local);
        cs', log', made', repr' := cs + [c.value], log + sent, made + [c.value.Summary(|config.stack|)], repr + Own(c.value);
      }
    }

    /** One context `_iter_contexts` yields (Walking.FileStep on a running
        walk `w`), made under the directory's configuration `local`, whose
        first layers are the root's; probing checks it for staleness. */
    method MakeFile(source: string, local: Config, mode: Mode, fs: Fs, lib: Library, ghost w: Walk)
      returns (c: Result<FileContext>, sent: seq<Event>, stop: Stop)
      requires Under(local)
      requires w.stop == Running && w.root == local.Layers()[..|config.stack|]
      ensures config.Layers() == old(config.Layers()) && local.Layers() == old(local.Layers())
      ensures c.Ok? ==> && fresh(c.value) && fresh(c.value.parser) && c.value.builder == this
                        && c.value.links == [] && c.value.Unparsed() && Pushed(local.stack, c.value.config.stack)
                        && (|c.value.config.stack| > |local.stack| ==> fresh(c.value.config.stack[|local.stack|]))
      ensures FileStep(source, w, old(local.Layers())[|config.stack|..], mode, Env(projectFolder, fs, lib))
        == if c.Err? then w.(stop := stop)
           else w.(made := w.made + [c.value.Summary(|config.stack|)], events := w.events + sent, stop := stop)
    {
      ghost var n, layers, env := |config.stack|, local.Layers(), Env(projectFolder, fs, lib);
      SnapshotTake(local.stack, n);
      c, sent := FileContext.Make(this, local, source, mode, fs, lib, n);
      assert local.stack == old(local.stack) && config.stack == old(config.stack);
      assert local.Layers() == layers;
      SnapshotTake(local.stack, n);
      if c.Err? {
        stop := Failed(c.error);
        return;
      }
      stop := Running;
      if mode == Probe {
        c.value.NeedsBuildAsMade(n, layers[..n], env);
        var needed := c.value.NeedsBuild(fs);
        if needed.Err? {
          stop := Failed(needed.error);
        } else if needed.value {
          stop := Found;
        }
      }
    }

    /** A context just made over `local`, whose first layers are the
        root's, joins the contexts made so far. */
    lemma AddOwned(cs: seq<FileContext>, made: seq<Made>, repr: set<object>, c: FileContext, local: Config)
      requires Owns(cs, made, repr) && Under(local)
      requires c.builder == this && c.links == [] && c.Unparsed() && c.parser !in repr
      requires Pushed(local.stack, c.config.stack)
      requires |c.config.stack| > |local.stack| ==> c.config.stack[|local.stack|] !in config.stack
      ensures Owns(cs + [c], made + [c.Summary(|config.stack|)], repr + Own(c))
    {
      var n := |config.stack|;
      assert c.config.stack[..n] == c.config.stack[..|local.stack|][..n];
      forall k | n <= k < |c.config.stack| ensures c.config.stack[k] !in config.stack {
        if k < |local.stack| {
          assert c.config.stack[k] == local.stack[k];
        }
      }
      assert c.Holds(this, config.stack, c.Summary(n));
    }

    /** `anything_needs_build()` over the project's tree
        (Walking.ProbeOf): the contexts are made without preparing, and
        the walk stops at the first one that needs building. */
    method AnythingNeedsBuild(tree: Listing, fs: Fs, lib: Library) returns (r: Result<bool>)
      requires Valid()
      modifies config.stack
      ensures Valid()
      ensures (r, config.Layers()) == ProbeOf(old(config.Layers()), tree, Env(projectFolder, fs, lib))
    {
      var cs, log, stop, made, repr := Visit(projectFolder, tree, Probe, fs, lib, [], [], Running, [], {});
      match stop
      case Found => r := Ok(true);
      case Failed(e) => r := Err(e);
      case Running => r := Ok(false);
    }

    /** `run(force_build)` over the project's tree (Walking.BuildOf): the
        storage is cleared and `before_build` sent; every context is
        collected first, then each is run in order, printing `A` for a new
        destination or `U` before its source; `before_build_finished` ends a run
        that raised nothing. `lines` are the printed lines and `sent` the
        signals. */
    method Run(force: bool, tree: Listing, fs: Fs, now: int, lib: Library)
      returns (r: Result<Fs>, lines: seq<string>, sent: seq<Event>)
      requires Valid()
      modifies this`storage, config.stack
      ensures storage == map[] && Valid()
      ensures (r, lines, sent, config.Layers()) == BuildOf(old(config.Layers()), [], tree, force, Env(projectFolder, fs, lib), now)
    {
      storage := map[];
      ghost var env := Env(projectFolder, fs, lib);
      assert [] + [BeforeBuild] == [BeforeBuild];
      var cs, log, stop, made, repr := Visit(projectFolder, tree, Build, fs, lib, [], [BeforeBuild], Running, [], {});
      if stop.Failed? {
        return Err(stop.error), [], log;
      }
      var evs;
      r, lines, evs := RunContexts(cs, force, fs, now, lib, made, repr, env);
      sent := log + evs + if r.Ok? then [BuildFinished] else [];
    }

    /** The loop of `run` over the collected contexts (Walking.RunAll),
        stopping at the first exception. */
    method RunContexts(cs: seq<FileContext>, force: bool, fs: Fs, now: int, lib: Library,
                       ghost made: seq<Made>, ghost repr: set<object>, ghost env: Env)
      returns (r: Result<Fs>, lines: seq<string>, sent: seq<Event>)
      requires Owns(cs, made, repr) && env.project == projectFolder && env.lib == lib
      modifies set c | c in cs :: c.parser
      ensures config.Layers() == old(config.Layers())
      ensures (r, lines, sent) == RunAll(made, old(config.Layers()), env, force, fs, now)
    {
      ghost var root := config.Layers();
      ghost var rest := repr;
      r, lines, sent := Ok(fs), [], [];
      for i := 0 to |cs|
        invariant |cs| == |made| && config.Layers() == root
        invariant Owns(cs[i..], made[i..], rest)
        invariant RunAll(made[..i], root, env, force, fs, now) == (r, lines, sent) && r.Ok?
      {
        var res, line, evs;
        res, line, evs, rest := RunNext(cs[i..], made[i..], rest, root, force, r.value, now, lib, env);
        assert cs[i..][1..] == cs[i + 1..] && made[i..][1..] == made[i + 1..];
        assert made[..i + 1][..i] == made[..i];
        r, lines, sent := res, lines + line, sent + evs;
        if r.Err? {
          RunAllStuck(made, i + 1, root, env, force, fs, now);
          return;
        }
      }
      assert made[..|cs|] == made;
    }

    /** The first of the contexts left to run, which then no longer
        counts among them. */
    method RunNext(cs: seq<FileContext>, ghost made: seq<Made>, ghost repr: set<object>, ghost root: seq<Mapping>,
                   force: bool, fs: Fs, now: int, lib: Library, ghost env: Env)
      returns (r: Result<Fs>, line: seq<string>, sent: seq<Event>, ghost repr': set<object>)
      requires cs != [] && Owns(cs, made, repr) && root == config.Layers()
      requires env.project == projectFolder && env.lib == lib
      modifies cs[0].parser
      ensures config.Layers() == root && Owns(cs[1..], made[1..], repr')
      ensures (r, line, sent) == RunItem(made[0], root, env, force, fs, now)
    {
      OwnsTail(cs, made, repr);
      r, line, sent := RunOne(cs[0], made[0], root, force, fs, now, lib, env);
      repr' := repr - {cs[0].parser};
    }

    /** The first of the collected contexts holds as the walk made it, and
        the others do not share its parser. */
    lemma OwnsTail(cs: seq<FileContext>, made: seq<Made>, repr: set<object>)
      requires cs != [] && Owns(cs, made, repr)
      ensures cs[0].Holds(this, config.stack, made[0]) && cs[0].parser in repr
      ensures Owns(cs[1..], made[1..], repr - {cs[0].parser})
    {
      forall i, j | 0 <= i < j < |cs[1..]| ensures cs[1..][i].parser != cs[1..][j].parser {
        assert cs[1..][i] == cs[i + 1] && cs[1..][j] == cs[j + 1];
      }
      forall i | 0 <= i < |cs[1..]| ensures cs[1..][i].Holds(this, config.stack, made[1..][i]) {
        assert cs[1..][i] == cs[i + 1] && made[1..][i] == made[i + 1];
      }
      forall c | c in cs[1..] ensures c.parser != cs[0].parser {
        var i :| 0 <= i < |cs[1..]| && cs[1..][i] == c;
        assert cs[1..][i] == cs[i + 1];
      }
    }

    /** One context of that loop (Walking.RunItem): `is_new` picks the
        printed key, then the context runs; a context made by the walk as
        `m` over the root's layers `root` runs as the walk says. */
    method RunOne(c: FileContext, ghost m: Made, ghost root: seq<Mapping>, force: bool, fs: Fs, now: int, lib: Library, ghost env: Env)
      returns (r: Result<Fs>, line: seq<string>, sent: seq<Event>)
      requires c.Holds(this, config.stack, m) && root == config.Layers()
      requires env.project == projectFolder && env.lib == lib
      modifies c.parser
      ensures (r, line, sent) == RunItem(m, root, env, force, fs, now)
    {
      RunsAsMade(c, m, root, env, fs);
      var isNew := c.IsNew(fs);
      if isNew.Err? {
        return Err(isNew.error), [], [];
      }
      var key := if isNew.value then "A" else "U";
      r, sent := RunContext(c, m, root, force, fs, now, lib, env);
      line := if r.Ok? then [key + " " + c.source] else [];
    }

    /** `context.run(force_build)` for a context the walk made as `m`
        (Walking.ContextRun). */
    method RunContext(c: FileContext, ghost m: Made, ghost root: seq<Mapping>, force: bool, fs: Fs, now: int, lib: Library, ghost env: Env)
      returns (r: Result<Fs>, sent: seq<Event>)
      requires c.Holds(this, config.stack, m) && root == config.Layers()
      requires env.project == projectFolder && env.lib == lib
      modifies c.parser
      ensures (r, sent) == ContextRun(m, root, env, force, fs, now)
    {
      RunAsWalk(c, m, root, env, force, fs, now);
      r, sent := c.Run(force, fs, now, lib);
    }

    /** What a context the walk made as `m` over the root's layers `root`
        reads when it runs is what the walk knows of it. */
    lemma RunsAsMade(c: FileContext, m: Made, root: seq<Mapping>, env: Env, fs: Fs)
      requires c.Holds(this, config.stack, m) && root == config.Layers() && env.project == projectFolder
      ensures c.FullDestination() == FullDestinationOf(env.project, GetOf(root + m.extra, "output_folder", Null), m.destination)
      ensures c.Template() == GetOf(root + m.extra, "template", Null)
      ensures c.HeaderLevel() == GetOf(root + m.extra, "rst_header_level", Int(2))
      ensures c.Scope() == PageScope(m.meta, m.destination, root + m.extra, env.project)
      ensures c.NeedsBuild(fs) == NeedsBuildMade(m, root, env.(fs := fs))
      ensures c.parser.kind == m.kind && c.parser.style == m.style && c.source == m.source
      ensures c.links == [] && c.Unparsed() && c.FullSource() == Join(env.project, m.source)
    {
      var n := |config.stack|;
      SnapshotTake(c.config.stack, n);
      SnapshotDrop(c.config.stack, n);
      assert c.config.Layers() == root + m.extra;
      c.NeedsBuildAsMade(n, root, env.(fs := fs));
    }

    /** A context the walk made as `m` runs as Walking.ContextRun says
        of `m`. */
    lemma RunAsWalk(c: FileContext, m: Made, root: seq<Mapping>, env: Env, force: bool, fs: Fs, now: int)
      requires c.Holds(this, config.stack, m) && root == config.Layers() && env.project == projectFolder
      ensures ContextRun(m, root, env, force, fs, now).1
        == [FileProcessed(c.source)] + if c.Builds(force, fs) then [FileBuilt(c.source)] else []
      ensures !force && c.NeedsBuild(fs).Err? ==> ContextRun(m, root, env, force, fs, now).0 == Err(c.NeedsBuild(fs).error)
      ensures !force && c.NeedsBuild(fs) == Ok(false) ==> ContextRun(m, root, env, force, fs, now).0 == Ok(fs)
      ensures c.Builds(force, fs) ==>
        ContextRun(m, root, env, force, fs, now).0
          == Output(c.parser.kind, c.parser.style, c.source, c.FullSource(), c.FullDestination(),
                    c.Template(), c.links, c.Scope(), c.HeaderLevel(), fs, now, env.lib)
    {
      RunsAsMade(c, m, root, env, fs);
    }

    /** `_filter_files(files, config)`: the names no ignore pattern matches,
        in order, the patterns being `merged_get('ignore_files')` or the
        defaults; the `merged_get` may extend a layer's list in place. */
    method FilterFiles(names: seq<string>, local: Config) returns (r: Result<seq<string>>)
      requires local.Valid()
      modifies local.stack
      ensures local.Valid()
      ensures (r, local.Layers()) == FilterOf(names, old(local.Layers()))
    {
      var patterns := local.MergedGet("ignore_files");
      if patterns.Err? {
        return Err(patterns.error);
      }
      var p := if patterns.value == Null then List(DefaultIgnores) else patterns.value;
      if names == [] {
        return Ok([]);
      }
      var items :- Iterate(p);
      r := KeepNames(names, items);
    }

    /** The loop of `_filter_files`: each name in turn, kept unless a
        pattern matches it; a pattern that is not a string raises
        `TypeError` when it is reached. */
    static method KeepNames(names: seq<string>, items: seq<Value>) returns (r: Result<seq<string>>)
      ensures r == KeepAll(names, items)
    {
      var result := [];
      for i := 0 to |names|
        invariant KeepAll(names[..i], items) == Ok(result)
      {
        assert names[..i + 1][..i] == names[..i];
        var ignored := IsIgnored(names[i], items);
        if ignored.Err? {
          KeepAllPrefixErr(names, items, i + 1);
          return Err(ignored.error);
        }
        if !ignored.value {
          result := result + [names[i]];
        }
      }
      assert names[..|names|] == names;
      r := Ok(result);
    }

    /** `any(fnmatch(name, p) for p in patterns)`: the patterns in order
        until one matches. */
    static method IsIgnored(name: string, items: seq<Value>) returns (r: Result<bool>)
      ensures r == Ignored(name, items)
    {
      var j := 0;
      while j < |items|
        invariant j <= |items|
        invariant Ignored(name, items) == IgnoredFrom(name, items, j)
      {
        if !items[j].Str? {
          return Err(TypeError("expected str, bytes or os.PathLike object"));
        }
        if Matches(name, items[j].s) {
          return Ok(true);
        }
        j := j + 1;
      }
      return Ok(false);
    }
  }
}
