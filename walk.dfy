/** blogme/builder.py, what a build does, as functions of the root
    configuration's layers, the project's directory tree and the file
    system: `_iter_contexts` walking the tree top-down, `FileContext`
    preparing each file, and `Builder.run` / `anything_needs_build`
    consuming the contexts. The objects in module Building are proved to
    do exactly this. Signals are recorded as an append-only event log. */
module Walking {
  import opened Values
  import opened Paths
  import opened FileSystem
  import opened FileParser
  import opened Configuration
  import opened BuildRules

  /** The project folder, the files on disk and the rendering libraries. */
  datatype Env = Env(project: string, fs: Fs, lib: Library)

  /** `_iter_contexts(prepare=True)` for `run`, `prepare=False` for
      `anything_needs_build`, whose staleness check is applied to each
      context as the generator yields it. */
  datatype Mode = Build | Probe

  /** How far the walk got: still going, stopped at a context that needs
      building (probe only), or stopped by an exception. */
  datatype Stop = Running | Found | Failed(error: Error)

  /** The blinker signals blogme sends, with the file they are about. */
  datatype Event =
    | BeforeBuild
    | FilePrepared(source: string)
    | FilePublished(source: string)
    | FileProcessed(source: string)
    | FileBuilt(source: string)
    | BuildFinished

  /** What a made `FileContext` holds: its source, its parser's kind and
      style, its destination, its metadata, and the configuration layers
      it has on top of the root's (the directory's `config.yml`, the
      file's front matter). */
  datatype Made = Made(source: string, kind: Kind, style: Value, destination: Value, meta: FileMeta, extra: seq<Mapping>)

  /** The walk so far: contexts made, whether it stopped, the root
      configuration's layers (which `merged_get` may have rewritten) and
      the event log. */
  datatype Walk = Walk(made: seq<Made>, stop: Stop, root: seq<Mapping>, events: seq<Event>)

  // ---------------------------------------------------------------------------
  // One directory

  /** The layer a directory's `config.yml` adds: none without the file;
      `add_from_file` returning nothing for an empty document leaves
      `None` as the directory's configuration, on which the next
      `merged_get` raises `AttributeError`; a non-dict document is a
      `ValueError`. */
  function LocalLayer(dirpath: string, env: Env): (r: Result<seq<Mapping>>)
    ensures r.Ok? ==> |r.value| <= 1
    ensures Join(dirpath, "config.yml") !in env.fs ==> r == Ok([])
  {
    var f := Join(dirpath, "config.yml");
    if f !in env.fs then Ok([])
    else match env.lib.loadYaml(env.fs[f].text)
      case Err(e) => Err(e)
      case Ok(d) =>
        if !Truthy(d) then Err(AttributeError("'NoneType' object has no attribute 'merged_get'"))
        else if !d.Dict? then Err(ValueError("Configuration has to contain a dict"))
        else Ok([Flatten(d.entries)])
  }

  /** The signals `FileContext.__init__` sends after `prepare`. */
  function Announce(layers: seq<Mapping>, source: string): (evs: seq<Event>)
    ensures 1 <= |evs| <= 2 && evs[0] == FilePrepared(source)
    ensures |evs| == 2 <==> Truthy(GetOf(layers, "public", Bool(true)))
  {
    [FilePrepared(source)] + if Truthy(GetOf(layers, "public", Bool(true))) then [FilePublished(source)] else []
  }

  /** `FileContext(builder, config, source, prepare)` where `config` is the
      root's layers plus `local`: the parser is guessed, the destination is
      the parser's desired name, and when preparing, the file is prepared. */
  function ContextOf(root: seq<Mapping>, local: seq<Mapping>, source: string, mode: Mode, env: Env): (r: Result<(Made, seq<Event>)>)
    ensures r.Ok? ==> r.value.0.source == source
    ensures r.Ok? ==> |local| <= |r.value.0.extra| <= |local| + 1 && r.value.0.extra[..|local|] == local
    ensures r.Ok? && mode == Probe ==> r.value.1 == [] && r.value.0.extra == local
    ensures r.Ok? && mode == Build ==> r.value.1 == Announce(root + r.value.0.extra, source)
  {
    match KindNamed(ParserName(root + local, source))
    case Err(e) => Err(e)
    case Ok(kind) =>
      var m := Initial(root + local, local, source, kind);
      if mode == Probe then Ok((m, []))
      else Prepared(root, m, env)
  }

  /** A context as `__init__` leaves it before `prepare`: the highlighting
      style of the root layer, the parser's desired destination, the
      default metadata. */
  function Initial(layers: seq<Mapping>, local: seq<Mapping>, source: string, kind: Kind): Made {
    Made(source, kind, Or(RootGetOf(layers, "modules.pygments.style", Null), Str("tango")),
         Str(DesiredFilename(kind, source)), DefaultMeta, local)
  }

  /** `prepare()` on a fresh context and the signals after it: a template
      file's front matter may add a layer, redirect the destination and fill
      the metadata. */
  function Prepared(root: seq<Mapping>, m: Made, env: Env): (r: Result<(Made, seq<Event>)>)
    ensures r.Ok? ==> r.value.0.source == m.source
    ensures r.Ok? ==> |m.extra| <= |r.value.0.extra| <= |m.extra| + 1 && r.value.0.extra[..|m.extra|] == m.extra
    ensures r.Ok? ==> r.value.1 == Announce(root + r.value.0.extra, m.source)
  {
    match PrepareHeader(root, m, env)
    case Err(e) => Err(e)
    case Ok(h) =>
      var m' := Applied(m, h);
      Ok((m', Announce(root + m'.extra, m.source)))
  }

  /** What the front matter changes in a context: a layer of its own on
      top, the destination and the metadata. */
  function Applied(m: Made, h: Header): (r: Made)
    ensures r.source == m.source && r.kind == m.kind && r.style == m.style
    ensures h.Unchanged? ==> r == m
    ensures h.Update? ==> r.extra == m.extra + [Flatten(h.cfg)] && r.destination == h.destination && r.meta == h.meta
  {
    match h
    case Unchanged => m
    case Update(cfg, d, meta) => m.(destination := d, meta := meta, extra := m.extra + [Flatten(cfg)])
  }

  /** What `prepare` makes of the source file: nothing to change for the
      copier, `OSError` for a missing file, else the parsed front matter. */
  function PrepareHeader(root: seq<Mapping>, m: Made, env: Env): (r: Result<Header>)
    ensures m.kind == Copy ==> r == Ok(Unchanged)
  {
    var full := Join(env.project, m.source);
    if m.kind == Copy then Ok(Unchanged)
    else if full !in env.fs then Err(OSError(full))
    else PrepareOf(m.kind, env.fs[full].text, m.source, GetOf(root + m.extra, "rst_header_level", Int(2)),
                   m.destination, m.meta, env.lib)
  }

  /** Whether a made context `needs_build`, with its destination computed
      from its configuration. */
  function NeedsBuildMade(m: Made, root: seq<Mapping>, env: Env): Result<bool> {
    match FullDestinationOf(env.project, GetOf(root + m.extra, "output_folder", Null), m.destination)
    case Err(e) => Err(e)
    case Ok(dst) => NeedsBuildOf(env.fs, Join(env.project, m.source), dst)
  }

  /** One yielded context: made (and, probing, checked for staleness). */
  function FileStep(source: string, w: Walk, local: seq<Mapping>, mode: Mode, env: Env): Walk {
    match ContextOf(w.root, local, source, mode, env)
    case Err(e) => w.(stop := Failed(e))
    case Ok((m, evs)) => Checked(w.(made := w.made + [m], events := w.events + evs), m, mode, env)
  }

  /** `anything_needs_build`'s test of the context just yielded: the probe
      stops at a stale one or at an exception; a build goes on. */
  function Checked(w: Walk, m: Made, mode: Mode, env: Env): (r: Walk)
    ensures r == w.(stop := r.stop)
    ensures mode == Build ==> r == w
  {
    if mode == Build then w
    else match NeedsBuildMade(m, w.root, env)
      case Err(e) => w.(stop := Failed(e))
      case Ok(b) => if b then w.(stop := Found) else w
  }

  /** The contexts of a directory's kept files, in order, each under the
      directory's path relative to the project. */
  function FilesSpec(rel: string, files: seq<string>, w: Walk, local: seq<Mapping>, mode: Mode, env: Env): Walk
    decreases |files|
  {
    if files == [] then w
    else
      var w' := FilesSpec(rel, files[..|files| - 1], w, local, mode, env);
      if w'.stop != Running then w' else FileStep(Join(rel, files[|files| - 1]), w', local, mode, env)
  }

  /** The index of the first subdirectory with the given name. */
  function SubNamed(subs: seq<Sub>, name: string): (i: nat)
    ensures i <= |subs|
    ensures i < |subs| ==> subs[i].name == name
    ensures forall j | 0 <= j < i :: subs[j].name != name
  {
    if subs == [] then 0 else if subs[0].name == name then 0 else 1 + SubNamed(subs[1..], name)
  }

  /** One `os.walk` step and everything below it: the directory's
      configuration is the root's plus its own `config.yml` (never its
      parent's), the subdirectory names and then the file names are
      filtered, the files' contexts are made, and the kept subdirectories
      are walked in order. */
  function VisitSpec(dirpath: string, listing: Listing, w: Walk, mode: Mode, env: Env): Walk
    decreases listing, 3
  {
    if w.stop != Running then w
    else match LocalLayer(dirpath, env)
      case Err(e) => w.(stop := Failed(e))
      case Ok(local) => DirectorySpec(dirpath, listing, w, local, mode, env)
  }

  /** A directory's step once its own layers are known: the subdirectory
      names are filtered under the root's layers plus `local`, whose
      `merged_get` rewrites are kept on the root's layers only. */
  function DirectorySpec(dirpath: string, listing: Listing, w: Walk, local: seq<Mapping>, mode: Mode, env: Env): Walk
    decreases listing, 2
  {
    var n := |w.root|;
    var (dirs, s1) := FilterOf(Names(listing.dirs), w.root + local);
    match dirs
    case Err(e) => w.(stop := Failed(e), root := s1[..n])
    case Ok(kept) => FilteredSpec(dirpath, listing, kept, w.(root := s1[..n]), s1[n..], mode, env)
  }

  /** The step once the subdirectories to visit are `kept`: the file names
      are filtered in turn, their contexts made, the kept subdirectories
      visited. */
  function FilteredSpec(dirpath: string, listing: Listing, kept: seq<string>, w: Walk, local: seq<Mapping>, mode: Mode, env: Env): Walk
    decreases listing, 1
  {
    var n := |w.root|;
    var (files, s2) := FilterOf(listing.files, w.root + local);
    match files
    case Err(e) => w.(stop := Failed(e), root := s2[..n])
    case Ok(names) =>
      var rel := Drop(dirpath, |env.project| + 1);
      var w1 := FilesSpec(rel, names, w.(root := s2[..n]), s2[n..], mode, env);
      ChildrenSpec(dirpath, listing, kept, w1, mode, env)
  }

  /** The walk into the kept subdirectories, in their order. */
  function ChildrenSpec(dirpath: string, listing: Listing, names: seq<string>, w: Walk, mode: Mode, env: Env): Walk
    decreases listing, 0, |names|
  {
    if names == [] then w
    else
      var w' := ChildrenSpec(dirpath, listing, names[..|names| - 1], w, mode, env);
      var name := names[|names| - 1];
      var i := SubNamed(listing.dirs, name);
      if i == |listing.dirs| then w'
      else VisitSpec(Join(dirpath, name), listing.dirs[i].listing, w', mode, env)
  }

  // ---------------------------------------------------------------------------
  // Running the contexts

  /** `FileContext.run(force_build)` for a context whose parser has parsed
      nothing yet: the processed signal, then the build (signal and parser
      run) when forced or stale. */
  function ContextRun(m: Made, root: seq<Mapping>, env: Env, force: bool, fs: Fs, now: int): (r: (Result<Fs>, seq<Event>))
    ensures r.1 == [FileProcessed(m.source)] || r.1 == [FileProcessed(m.source), FileBuilt(m.source)]
    ensures force ==> r.1 == [FileProcessed(m.source), FileBuilt(m.source)]
    ensures |r.1| == 2 <==> force || NeedsBuildMade(m, root, env.(fs := fs)) == Ok(true)
    ensures r.0.Ok? && |r.1| == 1 ==> r.0 == Ok(fs)
    ensures !force && NeedsBuildMade(m, root, env.(fs := fs)) == Ok(false) ==> r == (Ok(fs), [FileProcessed(m.source)])
  {
    var layers := root + m.extra;
    var dst := FullDestinationOf(env.project, GetOf(layers, "output_folder", Null), m.destination);
    var src := Join(env.project, m.source);
    var build := if force then Ok(true) else match dst case Err(e) => Err(e) case Ok(d) => NeedsBuildOf(fs, src, d);
    match build
    case Err(e) => (Err(e), [FileProcessed(m.source)])
    case Ok(false) => (Ok(fs), [FileProcessed(m.source)])
    case Ok(true) =>
      (Output(m.kind, m.style, m.source, src, dst, GetOf(layers, "template", Null), [],
              PageScope(m.meta, m.destination, layers, env.project),
              GetOf(layers, "rst_header_level", Int(2)), fs, now, env.lib),
       [FileProcessed(m.source), FileBuilt(m.source)])
  }

  /** One turn of `Builder.run`'s loop: `is_new` (which computes the
      destination first), the context's run, and the printed line. */
  function RunItem(m: Made, root: seq<Mapping>, env: Env, force: bool, fs: Fs, now: int): (r: (Result<Fs>, seq<string>, seq<Event>))
    ensures r.2 == [] || r.2 == [FileProcessed(m.source)] || r.2 == [FileProcessed(m.source), FileBuilt(m.source)]
    ensures r.0.Ok? ==> |r.1| == 1
    ensures force && r.0.Ok? ==> r.2 == [FileProcessed(m.source), FileBuilt(m.source)]
    ensures !force && NeedsBuildMade(m, root, env.(fs := fs)) == Ok(false) ==> r.0 == Ok(fs) && r.2 == [FileProcessed(m.source)]
  {
    match FullDestinationOf(env.project, GetOf(root + m.extra, "output_folder", Null), m.destination)
    case Err(e) => (Err(e), [], [])
    case Ok(dst) =>
      var key := if dst !in fs then "A" else "U";
      var (r, evs) := ContextRun(m, root, env, force, fs, now);
      (r, if r.Ok? then [key + " " + m.source] else [], evs)
  }

  /** `Builder.run`'s loop over the collected contexts, in order, stopping
      at the first exception: the file system, the printed lines and the
      signals sent. */
  function RunAll(made: seq<Made>, root: seq<Mapping>, env: Env, force: bool, fs: Fs, now: int): (Result<Fs>, seq<string>, seq<Event>)
    decreases |made|
  {
    if made == [] then (Ok(fs), [], [])
    else
      var prev := RunAll(made[..|made| - 1], root, env, force, fs, now);
      if prev.0.Err? then prev
      else
        var item := RunItem(made[|made| - 1], root, env, force, prev.0.value, now);
        (item.0, prev.1 + item.1, prev.2 + item.2)
  }

  /** Once a context has raised, the loop has stopped. */
  lemma {:induction false} RunAllStuck(made: seq<Made>, k: nat, root: seq<Mapping>, env: Env, force: bool, fs: Fs, now: int)
    requires k <= |made| && RunAll(made[..k], root, env, force, fs, now).0.Err?
    ensures RunAll(made, root, env, force, fs, now) == RunAll(made[..k], root, env, force, fs, now)
    decreases |made|
  {
    if k < |made| {
      var prefix := made[..|made| - 1];
      assert prefix[..k] == made[..k];
      RunAllStuck(prefix, k, root, env, force, fs, now);
    } else {
      assert made[..k] == made;
    }
  }

  /** `Builder.run(force_build)` from the root configuration's layers and
      the event log before it: the walk collects every context first, then
      the loop runs them. The result, the printed lines, the log and the
      root layers afterwards. */
  function BuildOf(root: seq<Mapping>, log: seq<Event>, tree: Listing, force: bool, env: Env, now: int)
    : (Result<Fs>, seq<string>, seq<Event>, seq<Mapping>)
  {
    var w := BuildWalk(root, log, tree, env);
    var f := Finish(w, force, env, now);
    (f.0, f.1, f.2, w.root)
  }

  /** What `run` does once the walk is over: an exception from the walk
      ends it; otherwise the collected contexts are run, and `before_build_finished`
      is sent when all of them succeed. */
  function Finish(w: Walk, force: bool, env: Env, now: int): (Result<Fs>, seq<string>, seq<Event>) {
    if w.stop.Failed? then (Err(w.stop.error), [], w.events)
    else
      var run := RunAll(w.made, w.root, env, force, env.fs, now);
      (run.0, run.1, w.events + run.2 + (if run.0.Ok? then [BuildFinished] else []))
  }

  /** `anything_needs_build()`: true at the first yielded context that
      needs building, false when the walk ends without one. */
  function ProbeOf(root: seq<Mapping>, tree: Listing, env: Env): (Result<bool>, seq<Mapping>) {
    var w := ProbeWalk(root, tree, env);
    match w.stop
    case Found => (Ok(true), w.root)
    case Failed(e) => (Err(e), w.root)
    case Running => (Ok(false), w.root)
  }

  /** The contexts `run` collects, after the `before_build` signal. */
  function BuildWalk(root: seq<Mapping>, log: seq<Event>, tree: Listing, env: Env): Walk {
    VisitSpec(env.project, tree, Walk([], Running, root, log + [BeforeBuild]), Build, env)
  }

  /** The contexts `anything_needs_build` has been yielded. */
  function ProbeWalk(root: seq<Mapping>, tree: Listing, env: Env): Walk {
    VisitSpec(env.project, tree, Walk([], Running, root, []), Probe, env)
  }

  // ---------------------------------------------------------------------------
  // Properties of the walk

  /** What the walk may do between two of its states: append contexts
      that carry at most two layers above the root's (the directory's own
      `config.yml` and the file's front matter, never a parent directory's),
      append only the signals sent while preparing (none when probing), and
      change no root setting but `ignore_files`. */
  ghost predicate Extends(w: Walk, w': Walk, mode: Mode) {
    && |w.made| <= |w'.made| && w'.made[..|w.made|] == w.made
    && (forall i | |w.made| <= i < |w'.made| :: |w'.made[i].extra| <= 2)
    && |w.events| <= |w'.events| && w'.events[..|w.events|] == w.events
    && (forall i | |w.events| <= i < |w'.events| :: w'.events[i].FilePrepared? || w'.events[i].FilePublished?)
    && (mode == Probe ==> w'.events == w.events)
    && (mode == Build && !w.stop.Found? ==> !w'.stop.Found?)
    && |w'.root| == |w.root|
    && (forall i, k | 0 <= i < |w.root| && k != "ignore_files" :: Get(w'.root[i], k) == Get(w.root[i], k))
  }

  lemma ExtendsTrans(a: Walk, b: Walk, c: Walk, mode: Mode)
    requires Extends(a, b, mode) && Extends(b, c, mode)
    ensures Extends(a, c, mode)
  {
    assert c.made[..|a.made|] == c.made[..|b.made|][..|a.made|];
    assert c.events[..|a.events|] == c.events[..|b.events|][..|a.events|];
    forall i | |a.made| <= i < |c.made| ensures |c.made[i].extra| <= 2 {
      if i < |b.made| {
        assert c.made[i] == c.made[..|b.made|][i];
      }
    }
    forall i | |a.events| <= i < |c.events| ensures c.events[i].FilePrepared? || c.events[i].FilePublished? {
      if i < |b.events| {
        assert c.events[i] == c.events[..|b.events|][i];
      }
    }
  }

  lemma FileStepExtends(source: string, w: Walk, local: seq<Mapping>, mode: Mode, env: Env)
    requires |local| <= 1 && w.stop == Running
    ensures Extends(w, FileStep(source, w, local, mode, env), mode)
  {
    var r := ContextOf(w.root, local, source, mode, env);
    if r.Ok? {
      var m, evs := r.value.0, r.value.1;
      var w1 := w.(made := w.made + [m], events := w.events + evs);
      AppendExtends(w, m, evs, mode);
      assert FileStep(source, w, local, mode, env) == Checked(w1, m, mode, env);
    }
  }

  lemma AppendExtends(w: Walk, m: Made, evs: seq<Event>, mode: Mode)
    requires |m.extra| <= 2
    requires evs == [] || (1 <= |evs| <= 2 && evs[0].FilePrepared? && (|evs| == 2 ==> evs[1].FilePublished?))
    requires mode == Probe ==> evs == []
    ensures Extends(w, w.(made := w.made + [m], events := w.events + evs), mode)
  {
    var w' := w.(made := w.made + [m], events := w.events + evs);
    assert w'.made[..|w.made|] == w.made && w'.events[..|w.events|] == w.events;
    forall i | |w.events| <= i < |w'.events| ensures w'.events[i].FilePrepared? || w'.events[i].FilePublished? {
      assert w'.events[i] == evs[i - |w.events|];
    }
  }

  lemma {:induction false} FilesExtends(rel: string, files: seq<string>, w: Walk, local: seq<Mapping>, mode: Mode, env: Env)
    requires |local| <= 1
    ensures Extends(w, FilesSpec(rel, files, w, local, mode, env), mode)
    decreases |files|
  {
    if files != [] {
      var w' := FilesSpec(rel, files[..|files| - 1], w, local, mode, env);
      FilesExtends(rel, files[..|files| - 1], w, local, mode, env);
      if w'.stop == Running {
        FileStepExtends(Join(rel, files[|files| - 1]), w', local, mode, env);
        ExtendsTrans(w, w', FilesSpec(rel, files, w, local, mode, env), mode);
      }
    } else {
      assert w.made[..|w.made|] == w.made && w.events[..|w.events|] == w.events;
    }
  }

  /** Filtering rewrites no layer's setting but `ignore_files`. */
  lemma FilterOtherKeys(names: seq<string>, layers: seq<Mapping>)
    ensures forall i, k | 0 <= i < |layers| && k != "ignore_files" :: Get(FilterOf(names, layers).1[i], k) == Get(layers[i], k)
  {
    forall i, k | 0 <= i < |layers| && k != "ignore_files"
      ensures Get(FilterOf(names, layers).1[i], k) == Get(layers[i], k)
    {
      MergeLoopOtherKeys(layers, "ignore_files", 0, Merge(Null, -1), k, i);
    }
  }

  lemma {:induction false} VisitExtends(dirpath: string, listing: Listing, w: Walk, mode: Mode, env: Env)
    ensures Extends(w, VisitSpec(dirpath, listing, w, mode, env), mode)
    decreases listing, 3
  {
    assert w.made[..|w.made|] == w.made && w.events[..|w.events|] == w.events;
    if w.stop == Running {
      match LocalLayer(dirpath, env)
      case Err(_) =>
      case Ok(local) => DirectoryExtends(dirpath, listing, w, local, mode, env);
    }
  }

  lemma {:induction false} DirectoryExtends(dirpath: string, listing: Listing, w: Walk, local: seq<Mapping>, mode: Mode, env: Env)
    requires |local| <= 1
    ensures Extends(w, DirectorySpec(dirpath, listing, w, local, mode, env), mode)
    decreases listing, 2
  {
    var n := |w.root|;
    var (dirs, s1) := FilterOf(Names(listing.dirs), w.root + local);
    FilterOtherKeys(Names(listing.dirs), w.root + local);
    assert forall i | 0 <= i < n :: (w.root + local)[i] == w.root[i];
    RootRewriteExtends(w, s1, if dirs.Ok? then w.stop else Failed(dirs.error), mode);
    if dirs.Ok? {
      var w0 := w.(root := s1[..n]);
      assert w0.root + s1[n..] == s1;
      FilteredExtends(dirpath, listing, dirs.value, w0, s1[n..], mode, env);
      ExtendsTrans(w, w0, DirectorySpec(dirpath, listing, w, local, mode, env), mode);
    }
  }

  lemma {:induction false} FilteredExtends(dirpath: string, listing: Listing, kept: seq<string>, w: Walk, local: seq<Mapping>, mode: Mode, env: Env)
    requires |local| <= 1
    ensures Extends(w, FilteredSpec(dirpath, listing, kept, w, local, mode, env), mode)
    decreases listing, 1
  {
    var n := |w.root|;
    var (files, s2) := FilterOf(listing.files, w.root + local);
    FilterOtherKeys(listing.files, w.root + local);
    assert forall i | 0 <= i < n :: (w.root + local)[i] == w.root[i];
    RootRewriteExtends(w, s2, if files.Ok? then w.stop else Failed(files.error), mode);
    if files.Ok? {
      var rel := Drop(dirpath, |env.project| + 1);
      var w0 := w.(root := s2[..n]);
      FilesExtends(rel, files.value, w0, s2[n..], mode, env);
      var w1 := FilesSpec(rel, files.value, w0, s2[n..], mode, env);
      ExtendsTrans(w, w0, w1, mode);
      ChildrenExtends(dirpath, listing, kept, w1, mode, env);
      ExtendsTrans(w, w1, FilteredSpec(dirpath, listing, kept, w, local, mode, env), mode);
    }
  }

  /** Replacing the root's layers by filtered ones, and possibly failing. */
  lemma RootRewriteExtends(w: Walk, s: seq<Mapping>, stop: Stop, mode: Mode)
    requires |w.root| <= |s|
    requires forall i, k | 0 <= i < |w.root| && k != "ignore_files" :: Get(s[i], k) == Get(w.root[i], k)
    requires stop == w.stop || stop.Failed?
    ensures Extends(w, w.(stop := stop, root := s[..|w.root|]), mode)
  {
    assert w.made[..|w.made|] == w.made && w.events[..|w.events|] == w.events;
  }

  lemma {:induction false} ChildrenExtends(dirpath: string, listing: Listing, names: seq<string>, w: Walk, mode: Mode, env: Env)
    ensures Extends(w, ChildrenSpec(dirpath, listing, names, w, mode, env), mode)
    decreases listing, 0, |names|
  {
    if names == [] {
      assert w.made[..|w.made|] == w.made && w.events[..|w.events|] == w.events;
    } else {
      var w' := ChildrenSpec(dirpath, listing, names[..|names| - 1], w, mode, env);
      ChildrenExtends(dirpath, listing, names[..|names| - 1], w, mode, env);
      var name := names[|names| - 1];
      var i := SubNamed(listing.dirs, name);
      if i < |listing.dirs| {
        VisitExtends(Join(dirpath, name), listing.dirs[i].listing, w', mode, env);
        ExtendsTrans(w, w', ChildrenSpec(dirpath, listing, names, w, mode, env), mode);
      }
    }
  }

  // ---------------------------------------------------------------------------
  // Which files the walk makes contexts for

  /** `after` is `before` followed by contexts for the first files of
      `files`, in order, each with the relative directory joined to the
      file's name as its source. */
  predicate MadeFrom(before: seq<Made>, after: seq<Made>, rel: string, files: seq<string>) {
    && |before| <= |after| <= |before| + |files| && after[..|before|] == before
    && forall k | |before| <= k < |after| :: after[k].source == Join(rel, files[k - |before|])
  }

  /** The files' contexts are made in order, one per name, each with the
      relative directory joined to the name as its source, until the walk
      stops; a walk still running has made all of them. */
  lemma {:induction false} FilesSources(rel: string, files: seq<string>, w: Walk, local: seq<Mapping>, mode: Mode, env: Env)
    ensures MadeFrom(w.made, FilesSpec(rel, files, w, local, mode, env).made, rel, files)
    ensures FilesSpec(rel, files, w, local, mode, env).stop == Running ==>
      |FilesSpec(rel, files, w, local, mode, env).made| == |w.made| + |files|
    decreases |files|
  {
    if files == [] {
      assert w.made[..|w.made|] == w.made;
    } else {
      var init := files[..|files| - 1];
      var w' := FilesSpec(rel, init, w, local, mode, env);
      FilesSources(rel, init, w, local, mode, env);
      if w'.stop == Running {
        var r := FileStep(Join(rel, files[|files| - 1]), w', local, mode, env);
        assert FilesSpec(rel, files, w, local, mode, env) == r;
        FileStepMade(Join(rel, files[|files| - 1]), w', local, mode, env);
        SourcesAppend(w.made, w'.made, r.made, rel, files);
      } else {
        assert FilesSpec(rel, files, w, local, mode, env) == w';
        MadeFromLonger(w.made, w'.made, rel, files);
      }
    }
  }

  /** More names than contexts made leave the made ones as they were. */
  lemma MadeFromLonger(before: seq<Made>, after: seq<Made>, rel: string, files: seq<string>)
    requires files != [] && MadeFrom(before, after, rel, files[..|files| - 1])
    ensures MadeFrom(before, after, rel, files)
  {
    forall k | |before| <= k < |after|
      ensures after[k].source == Join(rel, files[k - |before|])
    {
      assert files[k - |before|] == files[..|files| - 1][k - |before|];
    }
  }

  /** The sources stay in step with the names when one more file's
      context is appended. */
  lemma SourcesAppend(before: seq<Made>, mid: seq<Made>, after: seq<Made>, rel: string, files: seq<string>)
    requires files != [] && MadeFrom(before, mid, rel, files[..|files| - 1]) && |mid| <= |after| <= |mid| + 1
    requires after[..|mid|] == mid
    requires |after| > |mid| ==> |mid| == |before| + |files| - 1 && after[|mid|].source == Join(rel, files[|files| - 1])
    ensures MadeFrom(before, after, rel, files)
  {
    assert after[..|before|] == after[..|mid|][..|before|];
    forall k | |before| <= k < |after|
      ensures after[k].source == Join(rel, files[k - |before|])
    {
      if k < |mid| {
        assert after[k] == after[..|mid|][k];
        assert files[k - |before|] == files[..|files| - 1][k - |before|];
      }
    }
  }

  /** One file's step appends its context, whose source is the file, or
      stops the walk without one. */
  lemma FileStepMade(source: string, w: Walk, local: seq<Mapping>, mode: Mode, env: Env)
    requires w.stop == Running
    ensures var r := FileStep(source, w, local, mode, env);
      && |w.made| <= |r.made| <= |w.made| + 1 && r.made[..|w.made|] == w.made
      && (|r.made| == |w.made| ==> r.stop != Running)
      && (|r.made| > |w.made| ==> r.made[|w.made|].source == source)
  {
    match ContextOf(w.root, local, source, mode, env)
    case Err(_) =>
      assert w.made[..|w.made|] == w.made;
    case Ok((m, evs)) =>
      var r := Checked(w.(made := w.made + [m], events := w.events + evs), m, mode, env);
      assert r.made == w.made + [m];
      assert r.made[..|w.made|] == w.made;
  }

  /** `listing` with the contents of its `i`th subdirectory replaced. */
  function Replaced(listing: Listing, i: nat, inner: Listing): (r: Listing)
    requires i < |listing.dirs|
    ensures r.files == listing.files && Names(r.dirs) == Names(listing.dirs)
  {
    listing.(dirs := listing.dirs[i := Sub(listing.dirs[i].name, inner)])
  }

  /** Subdirectories are looked up by name alone. */
  lemma {:induction false} SubNamedByName(a: seq<Sub>, b: seq<Sub>, name: string)
    requires Names(a) == Names(b)
    ensures SubNamed(a, name) == SubNamed(b, name)
    decreases |a|
  {
    if a != [] {
      assert a[0].name == Names(a)[0] == Names(b)[0] == b[0].name;
      assert Names(a[1..]) == Names(a)[1..] && Names(b[1..]) == Names(b)[1..];
      SubNamedByName(a[1..], b[1..], name);
    }
  }

  /** A subdirectory whose name is not among the kept ones is never
      walked: whatever it holds, the walk into the kept ones is the same. */
  lemma {:induction false} ChildrenPruned(dirpath: string, listing: Listing, names: seq<string>, w: Walk, mode: Mode, env: Env,
                                          i: nat, inner: Listing)
    requires i < |listing.dirs| && listing.dirs[i].name !in names
    ensures ChildrenSpec(dirpath, Replaced(listing, i, inner), names, w, mode, env) == ChildrenSpec(dirpath, listing, names, w, mode, env)
    decreases |names|
  {
    if names != [] {
      var init := names[..|names| - 1];
      ChildrenPruned(dirpath, listing, init, w, mode, env, i, inner);
      var name := names[|names| - 1];
      var dirs' := Replaced(listing, i, inner).dirs;
      SubNamedByName(dirs', listing.dirs, name);
      var j := SubNamed(listing.dirs, name);
      if j < |listing.dirs| {
        assert j != i;
        assert dirs'[j] == listing.dirs[j];
      }
    }
  }

  /** The same for a directory's whole step: a subdirectory the filter
      drops may hold anything without changing the walk. */
  lemma DirectoryPruned(dirpath: string, listing: Listing, w: Walk, local: seq<Mapping>, mode: Mode, env: Env,
                        i: nat, inner: Listing)
    requires i < |listing.dirs|
    requires var dirs := FilterOf(Names(listing.dirs), w.root + local).0; dirs.Ok? && listing.dirs[i].name !in dirs.value
    ensures DirectorySpec(dirpath, Replaced(listing, i, inner), w, local, mode, env) == DirectorySpec(dirpath, listing, w, local, mode, env)
  {
    var n := |w.root|;
    var (dirs, s1) := FilterOf(Names(listing.dirs), w.root + local);
    var w0 := w.(root := s1[..n]);
    var (files, s2) := FilterOf(listing.files, w0.root + s1[n..]);
    var r := Replaced(listing, i, inner);
    assert FilterOf(Names(r.dirs), w.root + local) == (dirs, s1);
    assert FilterOf(r.files, w0.root + s1[n..]) == (files, s2);
    if files.Ok? {
      var w1 := FilesSpec(Drop(dirpath, |env.project| + 1), files.value, w0.(root := s2[..n]), s2[n..], mode, env);
      ChildrenPruned(dirpath, listing, dirs.value, w1, mode, env, i, inner);
    }
  }

  // ---------------------------------------------------------------------------
  // The probe stops at the first stale context

  /** Two root configurations that differ at most in `ignore_files`. */
  ghost predicate SameSettings(a: seq<Mapping>, b: seq<Mapping>) {
    |a| == |b| && forall i, k | 0 <= i < |a| && k != "ignore_files" :: Get(a[i], k) == Get(b[i], k)
  }

  /** A context's staleness does not depend on `ignore_files`. */
  lemma NeedsBuildRoot(m: Made, a: seq<Mapping>, b: seq<Mapping>, env: Env)
    requires SameSettings(a, b)
    ensures NeedsBuildMade(m, a, env) == NeedsBuildMade(m, b, env)
  {
    forall i | 0 <= i < |a + m.extra| ensures Get((a + m.extra)[i], "output_folder") == Get((b + m.extra)[i], "output_folder") {
      if i < |a| {
        assert (a + m.extra)[i] == a[i] && (b + m.extra)[i] == b[i];
      }
    }
    LookupAgrees(a + m.extra, b + m.extra, "output_folder");
  }

  /** What the probe knows of the contexts it has checked: each but a
      stale last one is up to date, and it has stopped at a found one
      exactly when that one needs building. A failed walk claims nothing. */
  ghost predicate ProbeSound(w: Walk, env: Env) {
    && (w.stop == Found ==> |w.made| > 0 && NeedsBuildMade(w.made[|w.made| - 1], w.root, env) == Ok(true))
    && (forall i | 0 <= i < |w.made| && (w.stop == Running || (w.stop == Found && i < |w.made| - 1)) ::
          NeedsBuildMade(w.made[i], w.root, env) == Ok(false))
  }

  lemma ProbeRootChange(w: Walk, root: seq<Mapping>, stop: Stop, env: Env)
    requires ProbeSound(w, env)
    requires forall i | 0 <= i < |w.made| :: NeedsBuildMade(w.made[i], root, env) == NeedsBuildMade(w.made[i], w.root, env)
    requires stop == w.stop || stop.Failed?
    ensures ProbeSound(w.(stop := stop, root := root), env)
  {
  }

  /** Staleness is the same under root configurations with the same settings. */
  lemma NeedsBuildRoots(made: seq<Made>, a: seq<Mapping>, b: seq<Mapping>, env: Env)
    requires SameSettings(a, b)
    ensures forall i | 0 <= i < |made| :: NeedsBuildMade(made[i], a, env) == NeedsBuildMade(made[i], b, env)
  {
    forall i | 0 <= i < |made| ensures NeedsBuildMade(made[i], a, env) == NeedsBuildMade(made[i], b, env) {
      NeedsBuildRoot(made[i], a, b, env);
    }
  }

  lemma ProbeStep(source: string, w: Walk, local: seq<Mapping>, env: Env)
    requires w.stop == Running && ProbeSound(w, env)
    ensures ProbeSound(FileStep(source, w, local, Probe, env), env)
  {
    var r := ContextOf(w.root, local, source, Probe, env);
    if r.Ok? {
      var m := r.value.0;
      assert FileStep(source, w, local, Probe, env) == Checked(w.(made := w.made + [m]), m, Probe, env);
      ProbeChecked(w, m, env);
    }
  }

  lemma ProbeChecked(w: Walk, m: Made, env: Env)
    requires w.stop == Running && ProbeSound(w, env)
    ensures ProbeSound(Checked(w.(made := w.made + [m]), m, Probe, env), env)
  {
    var w1 := w.(made := w.made + [m]);
    assert forall i | 0 <= i < |w.made| :: w1.made[i] == w.made[i];
    assert w1.made[|w.made|] == m;
  }

  lemma {:induction false} ProbeFiles(rel: string, files: seq<string>, w: Walk, local: seq<Mapping>, env: Env)
    requires ProbeSound(w, env)
    ensures ProbeSound(FilesSpec(rel, files, w, local, Probe, env), env)
    decreases |files|
  {
    if files != [] {
      var w' := FilesSpec(rel, files[..|files| - 1], w, local, Probe, env);
      ProbeFiles(rel, files[..|files| - 1], w, local, env);
      if w'.stop == Running {
        ProbeStep(Join(rel, files[|files| - 1]), w', local, env);
      }
    }
  }

  lemma {:induction false} ProbeVisit(dirpath: string, listing: Listing, w: Walk, env: Env)
    requires ProbeSound(w, env)
    ensures ProbeSound(VisitSpec(dirpath, listing, w, Probe, env), env)
    decreases listing, 3
  {
    if w.stop == Running {
      match LocalLayer(dirpath, env)
      case Err(_) =>
      case Ok(local) => ProbeDirectory(dirpath, listing, w, local, env);
    }
  }

  lemma {:induction false} ProbeDirectory(dirpath: string, listing: Listing, w: Walk, local: seq<Mapping>, env: Env)
    requires ProbeSound(w, env) && w.stop == Running
    ensures ProbeSound(DirectorySpec(dirpath, listing, w, local, Probe, env), env)
    decreases listing, 2
  {
    var n := |w.root|;
    var (dirs, s1) := FilterOf(Names(listing.dirs), w.root + local);
    FilterOtherKeys(Names(listing.dirs), w.root + local);
    assert forall i | 0 <= i < n :: (w.root + local)[i] == w.root[i];
    NeedsBuildRoots(w.made, w.root, s1[..n], env);
    ProbeRootChange(w, s1[..n], if dirs.Ok? then w.stop else Failed(dirs.error), env);
    if dirs.Ok? {
      assert w.(root := s1[..n]).root + s1[n..] == s1;
      ProbeFiltered(dirpath, listing, dirs.value, w.(root := s1[..n]), s1[n..], env);
    }
  }

  lemma {:induction false} ProbeFiltered(dirpath: string, listing: Listing, kept: seq<string>, w: Walk, local: seq<Mapping>, env: Env)
    requires ProbeSound(w, env) && w.stop == Running
    ensures ProbeSound(FilteredSpec(dirpath, listing, kept, w, local, Probe, env), env)
    decreases listing, 1
  {
    var n := |w.root|;
    var (files, s2) := FilterOf(listing.files, w.root + local);
    FilterOtherKeys(listing.files, w.root + local);
    assert forall i | 0 <= i < n :: (w.root + local)[i] == w.root[i];
    NeedsBuildRoots(w.made, w.root, s2[..n], env);
    ProbeRootChange(w, s2[..n], if files.Ok? then w.stop else Failed(files.error), env);
    if files.Ok? {
      var rel := Drop(dirpath, |env.project| + 1);
      var w0 := w.(root := s2[..n]);
      ProbeFiles(rel, files.value, w0, s2[n..], env);
      ProbeChildren(dirpath, listing, kept, FilesSpec(rel, files.value, w0, s2[n..], Probe, env), env);
    }
  }

  lemma {:induction false} ProbeChildren(dirpath: string, listing: Listing, names: seq<string>, w: Walk, env: Env)
    requires ProbeSound(w, env)
    ensures ProbeSound(ChildrenSpec(dirpath, listing, names, w, Probe, env), env)
    decreases listing, 0, |names|
  {
    if names != [] {
      var w' := ChildrenSpec(dirpath, listing, names[..|names| - 1], w, Probe, env);
      ProbeChildren(dirpath, listing, names[..|names| - 1], w, env);
      var i := SubNamed(listing.dirs, names[|names| - 1]);
      if i < |listing.dirs| {
        ProbeVisit(Join(dirpath, names[|names| - 1]), listing.dirs[i].listing, w', env);
      }
    }
  }

  /** `anything_needs_build()` is true exactly when it stopped at a yielded
      context that needs building, every context before it being up to
      date; false means every yielded context is up to date. Staleness is
      judged under the root configuration it started from, and no context
      is prepared (no signal is sent). */
  lemma ProbeOfSound(root: seq<Mapping>, tree: Listing, env: Env)
    ensures var w := ProbeWalk(root, tree, env);
      && w.events == []
      && (ProbeOf(root, tree, env).0 == Ok(false) ==>
            forall i | 0 <= i < |w.made| :: NeedsBuildMade(w.made[i], root, env) == Ok(false))
      && (ProbeOf(root, tree, env).0 == Ok(true) ==>
            && |w.made| > 0 && NeedsBuildMade(w.made[|w.made| - 1], root, env) == Ok(true)
            && forall i | 0 <= i < |w.made| - 1 :: NeedsBuildMade(w.made[i], root, env) == Ok(false))
  {
    var w0 := Walk([], Running, root, []);
    var w := ProbeWalk(root, tree, env);
    ProbeVisit(env.project, tree, w0, env);
    VisitExtends(env.project, tree, w0, Probe, env);
    assert SameSettings(w.root, root);
    forall i | 0 <= i < |w.made| {
      NeedsBuildRoot(w.made[i], w.root, root, env);
    }
  }

  // ---------------------------------------------------------------------------
  // The run collects first, then builds in order

  predicate PrepareSignal(e: Event) { e.FilePrepared? || e.FilePublished? }

  predicate RunSignal(e: Event) { e.FileProcessed? || e.FileBuilt? }

  /** The loop over the contexts sends only run signals and prints one
      line per context when it succeeds. */
  lemma {:induction false} RunAllSignals(made: seq<Made>, root: seq<Mapping>, env: Env, force: bool, fs: Fs, now: int)
    ensures forall i | 0 <= i < |RunAll(made, root, env, force, fs, now).2| :: RunSignal(RunAll(made, root, env, force, fs, now).2[i])
    ensures RunAll(made, root, env, force, fs, now).0.Ok? ==> |RunAll(made, root, env, force, fs, now).1| == |made|
    decreases |made|
  {
    if made != [] {
      var n := |made| - 1;
      RunAllSignals(made[..n], root, env, force, fs, now);
      var prev := RunAll(made[..n], root, env, force, fs, now);
      if prev.0.Ok? {
        var item := RunItem(made[n], root, env, force, prev.0.value, now);
        assert RunAll(made, root, env, force, fs, now) == (item.0, prev.1 + item.1, prev.2 + item.2);
        ItemSignals(item.2, made[n].source);
        RunSignalsAppend(prev.2, item.2);
      } else {
        assert RunAll(made, root, env, force, fs, now) == prev;
      }
    }
  }

  lemma ItemSignals(evs: seq<Event>, source: string)
    requires evs == [] || evs == [FileProcessed(source)] || evs == [FileProcessed(source), FileBuilt(source)]
    ensures forall i | 0 <= i < |evs| :: RunSignal(evs[i])
  {
  }

  lemma RunSignalsAppend(evs: seq<Event>, evs': seq<Event>)
    requires forall i | 0 <= i < |evs| :: RunSignal(evs[i])
    requires forall i | 0 <= i < |evs'| :: RunSignal(evs'[i])
    ensures forall i | 0 <= i < |evs + evs'| :: RunSignal((evs + evs')[i])
  {
    forall i | 0 <= i < |evs + evs'| ensures RunSignal((evs + evs')[i]) {
      if i >= |evs| {
        assert (evs + evs')[i] == evs'[i - |evs|];
      }
    }
  }

  /** The signals of contexts each processed and built, in order. */
  predicate BuiltInOrder(made: seq<Made>, evs: seq<Event>) {
    && |evs| == 2 * |made|
    && forall i | 0 <= i < |made| :: evs[2 * i] == FileProcessed(made[i].source) && evs[2 * i + 1] == FileBuilt(made[i].source)
  }

  lemma BuiltInOrderAppend(made: seq<Made>, evs: seq<Event>)
    requires made != [] && BuiltInOrder(made[..|made| - 1], evs)
    ensures BuiltInOrder(made, evs + [FileProcessed(made[|made| - 1].source), FileBuilt(made[|made| - 1].source)])
  {
    var n := |made| - 1;
    var evs' := evs + [FileProcessed(made[n].source), FileBuilt(made[n].source)];
    forall i | 0 <= i < |made|
      ensures evs'[2 * i] == FileProcessed(made[i].source) && evs'[2 * i + 1] == FileBuilt(made[i].source)
    {
      if i < n {
        assert made[..n][i] == made[i] && evs'[2 * i] == evs[2 * i] && evs'[2 * i + 1] == evs[2 * i + 1];
      }
    }
  }

  /** A forced loop that succeeds has processed and built every context,
      in order. */
  lemma {:induction false} RunAllForced(made: seq<Made>, root: seq<Mapping>, env: Env, fs: Fs, now: int)
    requires RunAll(made, root, env, true, fs, now).0.Ok?
    ensures BuiltInOrder(made, RunAll(made, root, env, true, fs, now).2)
    decreases |made|
  {
    if made != [] {
      var n := |made| - 1;
      var prev := RunAll(made[..n], root, env, true, fs, now);
      RunAllForced(made[..n], root, env, fs, now);
      BuiltInOrderAppend(made, prev.2);
    }
  }

  /** Each context reported as processed, and nothing else, in order. */
  predicate ProcessedInOrder(made: seq<Made>, evs: seq<Event>) {
    && |evs| == |made|
    && forall i | 0 <= i < |made| :: evs[i] == FileProcessed(made[i].source)
  }

  lemma ProcessedInOrderAppend(made: seq<Made>, evs: seq<Event>)
    requires made != [] && ProcessedInOrder(made[..|made| - 1], evs)
    ensures ProcessedInOrder(made, evs + [FileProcessed(made[|made| - 1].source)])
  {
    var n := |made| - 1;
    var evs' := evs + [FileProcessed(made[n].source)];
    forall i | 0 <= i < |made| ensures evs'[i] == FileProcessed(made[i].source) {
      if i < n {
        assert made[..n][i] == made[i] && evs'[i] == evs[i];
      }
    }
  }

  /** Without forcing, a project whose every context is up to date builds
      nothing: the files stay as they were and each context only reports
      being processed. */
  lemma {:induction false} RunAllUpToDate(made: seq<Made>, root: seq<Mapping>, env: Env, now: int)
    requires forall i {:trigger NeedsBuildMade(made[i], root, env)} | 0 <= i < |made| :: NeedsBuildMade(made[i], root, env) == Ok(false)
    ensures RunAll(made, root, env, false, env.fs, now).0 == Ok(env.fs)
    ensures ProcessedInOrder(made, RunAll(made, root, env, false, env.fs, now).2)
    decreases |made|
  {
    if made != [] {
      var n := |made| - 1;
      forall i | 0 <= i < n ensures NeedsBuildMade(made[..n][i], root, env) == Ok(false) {
        assert made[..n][i] == made[i];
      }
      RunAllUpToDate(made[..n], root, env, now);
      var prev := RunAll(made[..n], root, env, false, env.fs, now);
      assert env.(fs := env.fs) == env;
      var item := RunItem(made[n], root, env, false, env.fs, now);
      assert item.0 == Ok(env.fs) && item.2 == [FileProcessed(made[n].source)];
      assert RunAll(made, root, env, false, env.fs, now) == (item.0, prev.1 + item.1, prev.2 + item.2);
      ProcessedInOrderAppend(made, prev.2);
    }
  }

  /** Running the contexts keeps the walk's signals and sends no
      preparation signal after them, and `before_build_finished` comes last. */
  lemma FinishSignals(w: Walk, force: bool, env: Env, now: int)
    ensures var f := Finish(w, force, env, now);
      && |w.events| <= |f.2| && f.2[..|w.events|] == w.events
      && (forall i | |w.events| <= i < |f.2| :: !PrepareSignal(f.2[i]))
      && (f.0.Ok? ==> f.2[|f.2| - 1] == BuildFinished)
  {
    if !w.stop.Failed? {
      RunAllSignals(w.made, w.root, env, force, env.fs, now);
      var run := RunAll(w.made, w.root, env, force, env.fs, now);
      RunSignalsAfter(w.events, run.2, if run.0.Ok? then [BuildFinished] else []);
    } else {
      assert w.events[..|w.events|] == w.events;
    }
  }

  lemma RunSignalsAfter(before: seq<Event>, evs: seq<Event>, after: seq<Event>)
    requires forall i | 0 <= i < |evs| :: RunSignal(evs[i])
    requires forall i | 0 <= i < |after| :: after[i] == BuildFinished
    ensures (before + evs + after)[..|before|] == before
    ensures forall i | |before| <= i < |before + evs + after| :: !PrepareSignal((before + evs + after)[i])
  {
    var all := before + evs + after;
    assert all[..|before|] == before;
    forall i | |before| <= i < |all| ensures !PrepareSignal(all[i]) {
      if i < |before| + |evs| {
        assert all[i] == evs[i - |before|];
      } else {
        assert all[i] == after[i - |before| - |evs|];
      }
    }
  }

  /** `run` sends `before_build` after what was logged before, then every
      preparation signal, then every run signal, and `before_build_finished` last
      when it succeeds. */
  lemma BuildCollectsFirst(root: seq<Mapping>, log: seq<Event>, tree: Listing, force: bool, env: Env, now: int)
    ensures var b := BuildOf(root, log, tree, force, env, now);
      && |log| < |b.2| && b.2[..|log| + 1] == log + [BeforeBuild]
      && (forall i, j | |log| < i < j < |b.2| :: !(RunSignal(b.2[i]) && PrepareSignal(b.2[j])))
      && (b.0.Ok? ==> b.2[|b.2| - 1] == BuildFinished)
  {
    var w0 := Walk([], Running, root, log + [BeforeBuild]);
    var w := BuildWalk(root, log, tree, env);
    VisitExtends(env.project, tree, w0, Build, env);
    FinishSignals(w, force, env, now);
    var all := Finish(w, force, env, now).2;
    assert all[..|log| + 1] == w.events[..|w.events|][..|log| + 1];
    forall i | |log| < i < |w.events| ensures PrepareSignal(all[i]) {
      assert all[i] == all[..|w.events|][i];
    }
  }

  /** Forced, a run that succeeds builds every collected context. */
  lemma FinishForced(w: Walk, env: Env, now: int)
    requires Finish(w, true, env, now).0.Ok?
    ensures forall i | 0 <= i < |w.made| :: FileBuilt(w.made[i].source) in Finish(w, true, env, now).2
  {
    var run := RunAll(w.made, w.root, env, true, env.fs, now);
    RunAllForced(w.made, w.root, env, env.fs, now);
    BuiltInOrderIn(w.made, run.2, w.events, [BuildFinished]);
  }

  lemma BuiltInOrderIn(made: seq<Made>, evs: seq<Event>, before: seq<Event>, after: seq<Event>)
    requires BuiltInOrder(made, evs)
    ensures forall i | 0 <= i < |made| :: FileBuilt(made[i].source) in before + evs + after
  {
    forall i | 0 <= i < |made| ensures FileBuilt(made[i].source) in before + evs + after {
      assert (before + evs + after)[|before| + 2 * i + 1] == evs[2 * i + 1];
    }
  }

  /** Not forced, a run over up-to-date contexts writes nothing. */
  lemma FinishCurrent(w: Walk, env: Env, now: int)
    requires !w.stop.Failed?
    requires forall i | 0 <= i < |w.made| :: NeedsBuildMade(w.made[i], w.root, env) == Ok(false)
    ensures Finish(w, false, env, now).0 == Ok(env.fs)
    ensures forall i | |w.events| <= i < |Finish(w, false, env, now).2| :: !Finish(w, false, env, now).2[i].FileBuilt?
  {
    var run := RunAll(w.made, w.root, env, false, env.fs, now);
    RunAllUpToDate(w.made, w.root, env, now);
    ProcessedOnly(w.made, run.2);
    NoneBuiltAfter(w.events, run.2, [BuildFinished]);
  }

  lemma ProcessedOnly(made: seq<Made>, evs: seq<Event>)
    requires ProcessedInOrder(made, evs)
    ensures forall i | 0 <= i < |evs| :: evs[i].FileProcessed?
  {
    assert forall i | 0 <= i < |evs| :: evs[i] == FileProcessed(made[i].source);
  }

  lemma NoneBuiltAfter(before: seq<Event>, evs: seq<Event>, after: seq<Event>)
    requires forall i | 0 <= i < |evs| :: evs[i].FileProcessed?
    requires forall i | 0 <= i < |after| :: after[i] == BuildFinished
    ensures forall i | |before| <= i < |before + evs + after| :: !(before + evs + after)[i].FileBuilt?
  {
    forall i | |before| <= i < |before + evs + after| ensures !(before + evs + after)[i].FileBuilt? {
      if i < |before| + |evs| {
        assert (before + evs + after)[i] == evs[i - |before|];
      } else {
        assert (before + evs + after)[i] == after[i - |before| - |evs|];
      }
    }
  }

  /** `run(force_build=True)` that succeeds has built every collected
      context. */
  lemma BuildForced(root: seq<Mapping>, log: seq<Event>, tree: Listing, env: Env, now: int)
    requires BuildOf(root, log, tree, true, env, now).0.Ok?
    ensures var w := BuildWalk(root, log, tree, env);
      forall i | 0 <= i < |w.made| :: FileBuilt(w.made[i].source) in BuildOf(root, log, tree, true, env, now).2
  {
    FinishForced(BuildWalk(root, log, tree, env), env, now);
  }

  /** `run()` on a project whose collected contexts are all up to date
      under the root configuration leaves the files as they were and
      builds nothing. */
  lemma BuildCurrent(root: seq<Mapping>, log: seq<Event>, tree: Listing, env: Env, now: int)
    requires !BuildWalk(root, log, tree, env).stop.Failed?
    requires var w := BuildWalk(root, log, tree, env);
      forall i | 0 <= i < |w.made| :: NeedsBuildMade(w.made[i], root, env) == Ok(false)
    ensures var w := BuildWalk(root, log, tree, env);
      var b := BuildOf(root, log, tree, false, env, now);
      b.0 == Ok(env.fs) && forall i | |w.events| <= i < |b.2| :: !b.2[i].FileBuilt?
  {
    var w0 := Walk([], Running, root, log + [BeforeBuild]);
    var w := BuildWalk(root, log, tree, env);
    VisitExtends(env.project, tree, w0, Build, env);
    assert SameSettings(root, w.root);
    forall i | 0 <= i < |w.made| ensures NeedsBuildMade(w.made[i], w.root, env) == Ok(false) {
      NeedsBuildRoot(w.made[i], root, w.root, env);
    }
    FinishCurrent(w, env, now);
  }
}
