/** blogme/cli.py: the console script. `main` decodes its argument
    vector into an action and a project folder, makes the builder for the
    folder (`get_builder`, which insists on a root `config.yml`), and
    builds, rebuilds or serves. The working directory, the file system and
    the directory tree are parameters; what the script prints is returned
    as its lines. */
module Cli {
  import opened Values
  import opened Paths
  import opened Urls
  import opened FileSystem
  import opened Configuration
  import opened Walking
  import opened Building
  import opened BuildRules

  /** What `main` makes of `sys.argv`: whether it printed the usage line,
      the action and the project folder. */
  datatype Invocation = Invocation(usage: bool, action: string, folder: string)

  const UsageLine := "usage: blogme <action> <folder>"

  /** `main`'s decoding of `sys.argv` (the script's name first): the usage
      line is printed for anything but zero to two arguments, and decoding
      goes on regardless; the action is the first argument, `build` by
      default, and the folder the second, the working directory by
      default. */
  function Decode(argv: seq<string>, cwd: string): (r: Invocation)
    ensures r.usage <==> !(1 <= |argv| <= 3)
    ensures r.action == if |argv| >= 2 then argv[1] else "build"
    ensures r.folder == if |argv| >= 3 then argv[2] else cwd
  {
    Invocation(|argv| !in {1, 2, 3},
               if |argv| >= 2 then argv[1] else "build",
               if |argv| >= 3 then argv[2] else cwd)
  }

  /** The argument vector of `blogme <action> <folder>`. */
  function Command(action: string, folder: string): seq<string> {
    ["blogme", action, folder]
  }

  /** Decoding gives back the action and folder of a full command, with no
      usage line; a bare `blogme` builds the working directory. */
  lemma DecodeCommand(action: string, folder: string, cwd: string)
    ensures Decode(Command(action, folder), cwd) == Invocation(false, action, folder)
    ensures Decode(["blogme"], cwd) == Invocation(false, "build", cwd)
    ensures Decode(["blogme", action], cwd) == Invocation(false, action, cwd)
  {
  }

  predicate Known(action: string) {
    action in {"build", "serve", "rebuild"}
  }

  /** What `main` prints before making the builder. */
  function Notices(inv: Invocation): (lines: seq<string>)
    ensures UsageLine in lines <==> inv.usage
    ensures ("unknown action " + inv.action) in lines <==> !Known(inv.action)
    ensures |lines| <= 2
  {
    assert UsageLine != "unknown action " + inv.action by {
      assert UsageLine[1] != ("unknown action " + inv.action)[1];
    }
    (if inv.usage then [UsageLine] else []) + (if Known(inv.action) then [] else ["unknown action " + inv.action])
  }

  /** `os.path.join(project_folder, 'config.yml')`. */
  function ConfigFile(folder: string): string {
    Join(folder, "config.yml")
  }

  /** The `ValueError` for a project without a root configuration file. */
  function MissingConfig(file: string): Error {
    ValueError("root config file \"" + file + "\" is required")
  }

  /** `urlparse(canonical_url).path`, the builder's `prefix_path`: the path
      of a string URL; the empty bytes `b''` for a value that is false
      (`urlparse` turns it into `b''` and answers in bytes); any other
      value has no `decode`. */
  function PrefixPathOf(canonical: Value): (r: Result<PrefixPath>)
    ensures canonical.Str? ==> r == Ok(Text(UrlPath(canonical.s)))
    ensures !canonical.Str? && !Truthy(canonical) ==> r == Ok(EmptyBytes)
    ensures !canonical.Str? && Truthy(canonical) ==> r.Err? && r.error.AttributeError?
  {
    if canonical.Str? then Ok(Text(UrlPath(canonical.s)))
    else if !Truthy(canonical) then Ok(EmptyBytes)
    else Err(AttributeError("object has no attribute 'decode'"))
  }

  /** What `get_builder(folder)` makes: the builder's absolute project
      folder, the one layer of its configuration and its URL prefix, or
      the exception raised on the way. */
  datatype Project = Project(project: string, layer: Mapping, prefix: PrefixPath)

  function BuilderOf(folder: string, cwd: string, fs: Fs, lib: Library): (r: Result<Project>)
    ensures AbsPath(ConfigFile(folder), cwd) !in fs ==> r == Err(MissingConfig(ConfigFile(folder)))
    ensures r.Ok? ==> (&& AbsPath(ConfigFile(folder), cwd) in fs
                       && lib.loadYaml(fs[AbsPath(ConfigFile(folder), cwd)].text) == Ok(Dict(r.value.layer))
                       && r.value.project == AbsPath(folder, cwd))
  {
    var file := ConfigFile(folder);
    var path := AbsPath(file, cwd);
    if path !in fs then Err(MissingConfig(file))
    else FromLoaded(AbsPath(folder, cwd), lib.loadYaml(fs[path].text), lib)
  }

  /** `root_get('locale') or 'zh'`: the locale the builder asks babel for. */
  function LocaleOf(layer: Mapping): Value {
    Or(RootGetOf([Flatten(layer)], "locale", Null), Str(DefaultLocale))
  }

  /** `root_get('template_path') or default_template_path`: what is joined
      onto the project folder for the template loader. */
  function TemplatePathOf(layer: Mapping): Value {
    Or(RootGetOf([Flatten(layer)], "template_path", Null), Str(DefaultTemplatePath))
  }

  /** The rest of `get_builder` once the root configuration file is loaded:
      `add_from_file`'s errors, the `AttributeError` of a builder over the
      `None` an empty file gives, then `RouteAndTemplateMixin.__init__`'s,
      in its order: babel's `UnknownLocaleError`, the URL prefix's, and the
      `TypeError` of joining a template path that is not a string. */
  function FromLoaded(project: string, loaded: Result<Value>, lib: Library): (r: Result<Project>)
    ensures r.Ok? ==> loaded == Ok(Dict(r.value.layer)) && r.value.project == project
    ensures r.Ok? ==> lib.knownLocale(LocaleOf(r.value.layer)) && TemplatePathOf(r.value.layer).Str?
    ensures loaded.Ok? && loaded.value.Dict? && Truthy(loaded.value) ==>
      var e := loaded.value.entries;
      var prefix := PrefixPathOf(RootGetOf([Flatten(e)], "canonical_url", Null));
      && (!lib.knownLocale(LocaleOf(e)) ==> r == Err(UnknownLocaleError(LocaleOf(e))))
      && (lib.knownLocale(LocaleOf(e)) && prefix.Err? ==> r == Err(prefix.error))
      && (lib.knownLocale(LocaleOf(e)) && prefix.Ok? && !TemplatePathOf(e).Str? ==> r.Err? && r.error.TypeError?)
      && (lib.knownLocale(LocaleOf(e)) && prefix.Ok? && TemplatePathOf(e).Str? ==> r == Ok(Project(project, e, prefix.value)))
  {
    match loaded
    case Err(e) => Err(e)
    case Ok(d) =>
      if !Truthy(d) then Err(AttributeError("'NoneType' object has no attribute 'root_get'"))
      else if !d.Dict? then Err(ValueError("Configuration has to contain a dict"))
      else if !lib.knownLocale(LocaleOf(d.entries)) then Err(UnknownLocaleError(LocaleOf(d.entries)))
      else match PrefixPathOf(RootGetOf([Flatten(d.entries)], "canonical_url", Null))
        case Err(e) => Err(e)
        case Ok(prefix) =>
          if !TemplatePathOf(d.entries).Str? then Err(TypeError("join() argument must be str"))
          else Ok(Project(project, d.entries, prefix))
  }

  /** A project whose root configuration is a dict naming an absolute
      canonical URL gets a builder serving under that URL's path, over the
      absolute project folder. */
  lemma BuilderOfCanonical(folder: string, cwd: string, fs: Fs, lib: Library,
                           d: Mapping, scheme: string, host: string, path: string)
    requires AbsPath(ConfigFile(folder), cwd) in fs
    requires lib.loadYaml(fs[AbsPath(ConfigFile(folder), cwd)].text) == Ok(Dict(d)) && d != []
    requires lib.knownLocale(LocaleOf(d)) && TemplatePathOf(d).Str?
    requires RootGetOf([Flatten(d)], "canonical_url", Null) == Str(scheme + "://" + host + path)
    requires scheme != "" && forall i | 0 <= i < |scheme| :: 'a' <= scheme[i] <= 'z'
    requires forall i | 0 <= i < |host| :: host[i] !in {'/', '?', '#'}
    requires path == "" || path[0] == '/'
    requires '?' !in path && '#' !in path && ';' !in path
    requires StartsWith(cwd, "/")
    ensures BuilderOf(folder, cwd, fs, lib).Ok?
    ensures BuilderOf(folder, cwd, fs, lib).value.prefix == Text(path)
    ensures StartsWith(BuilderOf(folder, cwd, fs, lib).value.project, "/")
  {
    UrlPathOfAbsolute(scheme, host, path);
    assert PrefixPathOf(RootGetOf([Flatten(d)], "canonical_url", Null)) == Ok(Text(path));
    assert Truthy(Dict(d));
    assert BuilderOf(folder, cwd, fs, lib) == Ok(Project(AbsPath(folder, cwd), d, Text(path)));
  }

  /** A project whose root configuration is a dict without a canonical URL
      (or with one that is false and not a string) gets a builder whose URL
      prefix is the empty bytes, over the absolute project folder. */
  lemma BuilderOfNoCanonical(folder: string, cwd: string, fs: Fs, lib: Library, d: Mapping)
    requires AbsPath(ConfigFile(folder), cwd) in fs
    requires lib.loadYaml(fs[AbsPath(ConfigFile(folder), cwd)].text) == Ok(Dict(d)) && d != []
    requires lib.knownLocale(LocaleOf(d)) && TemplatePathOf(d).Str?
    requires !RootGetOf([Flatten(d)], "canonical_url", Null).Str?
    requires !Truthy(RootGetOf([Flatten(d)], "canonical_url", Null))
    ensures BuilderOf(folder, cwd, fs, lib) == Ok(Project(AbsPath(folder, cwd), d, EmptyBytes))
  {
    assert Truthy(Dict(d));
  }

  /** `get_builder(folder)`: a `ValueError` naming the file when the
      folder has no `config.yml`; otherwise a fresh configuration takes
      the file as its one layer (whose errors are the call's) and a new
      builder is made over it and the absolute folder. */
  method GetBuilder(folder: string, cwd: string, fs: Fs, lib: Library) returns (r: Result<Builder>)
    ensures BuilderOf(folder, cwd, fs, lib).Err? ==> r == Err(BuilderOf(folder, cwd, fs, lib).error)
    ensures BuilderOf(folder, cwd, fs, lib).Ok? ==>
      (&& r.Ok? && fresh(r.value) && fresh(r.value.config)
       && r.value.Valid() && r.value.storage == map[]
       && fresh(r.value.config.stack)
       && r.value.projectFolder == BuilderOf(folder, cwd, fs, lib).value.project
       && r.value.config.Layers() == [Flatten(BuilderOf(folder, cwd, fs, lib).value.layer)]
       && r.value.prefixPath == BuilderOf(folder, cwd, fs, lib).value.prefix)
  {
    var file := ConfigFile(folder);
    if AbsPath(file, cwd) !in fs {
      return Err(MissingConfig(file));
    }
    r := BuilderFrom(AbsPath(folder, cwd), lib.loadYaml(fs[AbsPath(file, cwd)].text), lib);
  }

  /** `get_builder` past the file check, as FromLoaded specifies it. */
  method BuilderFrom(project: string, loaded: Result<Value>, lib: Library) returns (r: Result<Builder>)
    ensures FromLoaded(project, loaded, lib).Err? ==> r == Err(FromLoaded(project, loaded, lib).error)
    ensures FromLoaded(project, loaded, lib).Ok? ==>
      (&& r.Ok? && fresh(r.value) && fresh(r.value.config)
       && r.value.Valid() && r.value.storage == map[]
       && fresh(r.value.config.stack)
       && r.value.projectFolder == project
       && r.value.config.Layers() == [Flatten(FromLoaded(project, loaded, lib).value.layer)]
       && r.value.prefixPath == FromLoaded(project, loaded, lib).value.prefix)
  {
    var config := new Config();
    var added := config.AddFromFile(loaded);
    if added.Err? {
      return Err(added.error);
    }
    if added.value.None? {
      return Err(AttributeError("'NoneType' object has no attribute 'root_get'"));
    }
    var root := added.value.value;
    var locale := Or(root.RootGet("locale", Null), Str(DefaultLocale));
    if !lib.knownLocale(locale) {
      return Err(UnknownLocaleError(locale));
    }
    var prefix := PrefixPathOf(root.RootGet("canonical_url", Null));
    if prefix.Err? {
      return Err(prefix.error);
    }
    var templatePath := Or(root.RootGet("template_path", Null), Str(DefaultTemplatePath));
    if !templatePath.Str? {
      return Err(TypeError("join() argument must be str"));
    }
    var b := new Builder(project, root, prefix.value);
    return Ok(b);
  }

  /** How `main` ends: a build or rebuild ran (with its outcome), or the
      development server was started. */
  datatype Outcome = Built(result: Result<Fs>) | Served

  /** `main()`: the notices, then the builder, then `run()` for `build`,
      `run(force_build=True)` for `rebuild`, and the development server
      for `serve` and every unknown action. An exception from
      `get_builder` or the run ends it. */
  function DispatchOf(argv: seq<string>, cwd: string, tree: Listing, fs: Fs, now: int, lib: Library)
    : (Result<Outcome>, seq<string>, seq<Event>)
  {
    var inv := Decode(argv, cwd);
    match BuilderOf(inv.folder, cwd, fs, lib)
    case Err(e) => (Err(e), Notices(inv), [])
    case Ok(p) =>
      if inv.action == "build" || inv.action == "rebuild" then
        var run := BuildOf([Flatten(p.layer)], [], tree, inv.action == "rebuild", Env(p.project, fs, lib), now);
        (Ok(Built(run.0)), Notices(inv) + run.1, run.2)
      else (Ok(Served), Notices(inv), [])
  }

  /** `main()` as Dispatch specifies it; `lines` are the printed lines and
      `sent` the signals. */
  method Dispatch(argv: seq<string>, cwd: string, tree: Listing, fs: Fs, now: int, lib: Library)
    returns (r: Result<Outcome>, lines: seq<string>, sent: seq<Event>)
    ensures (r, lines, sent) == DispatchOf(argv, cwd, tree, fs, now, lib)
  {
    var inv := Decode(argv, cwd);
    lines := Notices(inv);
    var b := GetBuilder(inv.folder, cwd, fs, lib);
    if b.Err? {
      return Err(b.error), lines, [];
    }
    if inv.action == "build" || inv.action == "rebuild" {
      var built, printed;
      built, printed, sent := b.value.Run(inv.action == "rebuild", tree, fs, now, lib);
      return Ok(Built(built)), lines + printed, sent;
    }
    return Ok(Served), lines, [];
  }

  /** Without a root `config.yml` nothing is built or served: `main` ends
      in the `ValueError` naming the file, after its notices. */
  lemma DispatchMissingConfig(argv: seq<string>, cwd: string, tree: Listing, fs: Fs, now: int, lib: Library)
    requires AbsPath(ConfigFile(Decode(argv, cwd).folder), cwd) !in fs
    ensures DispatchOf(argv, cwd, tree, fs, now, lib)
      == (Err(ValueError("root config file \"" + ConfigFile(Decode(argv, cwd).folder) + "\" is required")),
          Notices(Decode(argv, cwd)), [])
  {
  }

  /** A root configuration naming a locale babel has no data for ends
      `main` in `UnknownLocaleError` after its notices: nothing is built
      or served. */
  lemma DispatchUnknownLocale(argv: seq<string>, cwd: string, tree: Listing, fs: Fs, now: int, lib: Library, d: Mapping)
    requires AbsPath(ConfigFile(Decode(argv, cwd).folder), cwd) in fs
    requires lib.loadYaml(fs[AbsPath(ConfigFile(Decode(argv, cwd).folder), cwd)].text) == Ok(Dict(d)) && d != []
    requires !lib.knownLocale(LocaleOf(d))
    ensures DispatchOf(argv, cwd, tree, fs, now, lib) == (Err(UnknownLocaleError(LocaleOf(d))), Notices(Decode(argv, cwd)), [])
  {
    assert Truthy(Dict(d));
  }

  /** `serve` and every unknown action start the server once the builder
      is made; nothing is built first. */
  lemma DispatchServes(argv: seq<string>, cwd: string, tree: Listing, fs: Fs, now: int, lib: Library)
    requires |argv| >= 2 && argv[1] != "build" && argv[1] != "rebuild"
    requires BuilderOf(Decode(argv, cwd).folder, cwd, fs, lib).Ok?
    ensures DispatchOf(argv, cwd, tree, fs, now, lib).0 == Ok(Served)
    ensures DispatchOf(argv, cwd, tree, fs, now, lib).2 == []
  {
  }

  /** `blogme rebuild <folder>` that succeeds builds every file the walk
      collected, whether or not it was up to date. */
  lemma DispatchRebuild(folder: string, cwd: string, tree: Listing, fs: Fs, now: int, lib: Library)
    requires BuilderOf(folder, cwd, fs, lib).Ok?
    requires var d := DispatchOf(Command("rebuild", folder), cwd, tree, fs, now, lib).0;
      d.Ok? && d.value.Built? && d.value.result.Ok?
    ensures var p := BuilderOf(folder, cwd, fs, lib).value;
      var w := BuildWalk([Flatten(p.layer)], [], tree, Env(p.project, fs, lib));
      forall i | 0 <= i < |w.made| :: FileBuilt(w.made[i].source) in DispatchOf(Command("rebuild", folder), cwd, tree, fs, now, lib).2
  {
    var p := BuilderOf(folder, cwd, fs, lib).value;
    var env := Env(p.project, fs, lib);
    DecodeCommand("rebuild", folder, cwd);
    var run := BuildOf([Flatten(p.layer)], [], tree, true, env, now);
    assert DispatchOf(Command("rebuild", folder), cwd, tree, fs, now, lib) == (Ok(Built(run.0)), Notices(Decode(Command("rebuild", folder), cwd)) + run.1, run.2);
    BuildForced([Flatten(p.layer)], [], tree, env, now);
  }
}
