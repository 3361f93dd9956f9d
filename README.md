# blogme core in Dafny

blogme is a static blog generator. A project folder holds a root
`config.yml`, optional per-directory `config.yml` files and source files.
Markdown and reStructuredText sources become HTML pages rendered through a
template; anything else is copied. This project models the core of that
program and proves properties of the model:

- **Configuration** (`config.dfy`): a `Config` holds a stack of layers,
  and adding a file or dict returns a new `Config` with one more layer.
  `__getitem__`/`get` pick the nearest layer holding a key. `root_get`
  reads only the first layer. `list_entries` collects the keys under a
  dotted prefix across all layers. `merged_get` extends lists and updates
  dicts across layers, and the layers are heap objects, so the in-place
  mutation of the first owning layer's list is part of the model.
- **Files** (`file_parser.dfy`, `build_rules.dfy`): how a context picks its parser.
  Also the desired filename, front-matter `prepare`, cached parsing,
  what `run` leaves on disk, the destination and staleness rules, the
  ignore patterns and link filenames.
- **Builder** (`building.dfy`, `walk.dfy`): `FileContext` and `Builder`
  are classes.
  - The directory walk is a chain of methods over an `os.walk`-like
    listing: per-directory config, filtering of directories and files,
    and a context per kept file.
  - Each method is proved equal to a specification function in `walk.dfy`.
  - `anything_needs_build` stops at the first stale file.
  - `run` clears the storage, collects every context first, then runs
    each one. It records the signals sent and the `A`/`U` lines printed.
- **Development server** (`server.dfy`, `paths.dfy`, `urls.dfy`):
  `translate_path` is a method with the source's loop. It is proved to stay
  under any non-empty output folder, whether or not it ends in `/`. `do_GET` rebuilds when something is stale.
  `normpath`, `unquote`, `urlparse().path` and `os.path.join` are modelled
  on strings.
- **Command line** (`cli.dfy`): argument decoding, the usage and
  unknown-action notices, `get_builder` with its missing-config
  `ValueError`, and the dispatch to build, rebuild or serve.

Files, modification times and directory listings are values: `Fs` maps full
paths to their modification time and text, and `Listing` is the tree that
`os.walk` would visit. Third-party libraries (YAML, Markdown, docutils,
Jinja, babel, werkzeug routing) are functions of a `Library` parameter. Signals are
an event log.

Three behaviours of the code are easy to miss:

- *Config snapshots share layers.* `merged_get` extends the first owning
  layer's list in place, and every config sharing that layer sees the
  change (`Configuration.MergedGetLists`).
- *Configured parser patterns keep their prefix.* `list_entries` keeps the
  `file_parsers.` prefix on every key, so a configured pattern never
  matches a file name without that prefix, and such a file is copied
  (`BuildRules.ConfiguredPatternsKeepPrefix`).
- *Merging is lenient.* Only a first non-`None` value that is neither a
  list nor a dict, followed by another occurrence of the key, raises
  `ValueError` (`Configuration.MergedGetValueError`). A list extended by a
  dict takes the dict's keys (`Configuration.MergeStep`). A dict is never
  the first value found, because flattened layers hold no dicts, so
  `dict.update` is never reached (`Configuration.MergedGetNoDict`).

## Model

| member | source | states |
|---|---|---|
| Configuration.Config.constructor | blogme/config.py:16-17 | a new config has an empty stack |
| Configuration.Config.GetItem | blogme/config.py:19-24 | `KeyError(key)` exactly when no layer holds the key; otherwise the value of the nearest (last) layer holding it |
| Configuration.LookupNearest | blogme/config.py:19-24 | a lookup finds nothing iff no layer has the key, and a value it finds sits in a layer with no later layer holding the key |
| Configuration.NearestScopeWins | blogme/config.py:19-24 | a pushed layer holding the key shadows every outer layer, and `root_get` does not see it |
| Configuration.LookupFallsThrough | blogme/config.py:19-24 | a pushed layer without the key leaves every lookup as it was |
| Configuration.Config.Get | blogme/config.py:26-30 | the default exactly when `__getitem__` raises `KeyError`, else its value |
| Configuration.Config.ListEntries | blogme/config.py:32-39 | the loop over layers and items builds the prefix-query mapping of the stack |
| Configuration.ListEntriesGet | blogme/config.py:32-39 | a key is in the result iff it starts with `key.` and some layer holds it, with the nearest layer's value |
| Configuration.ListEntriesPrefixed | blogme/config.py:32-39 | every key of the result starts with `key.` |
| Configuration.MergeStep | blogme/config.py:46-54 | `ValueError` exactly when the accumulated value is neither list nor dict; two lists concatenate; a list stays a list and a dict a dict |
| Configuration.Config.MergedGet | blogme/config.py:41-55 | result and new layer contents equal the merge specification of the old layers |
| Configuration.Config.Rewrite | blogme/config.py:49-52 | extending or updating the owner's object replaces that layer's value and nothing else |
| Configuration.MergedGetAbsent | blogme/config.py:41-55 | a key no layer holds yields `None` and leaves every layer unchanged |
| Configuration.MergedGetLists | blogme/config.py:41-55 | when every holder has a list, the result is all lists concatenated in stack order, stored into the first holder's layer |
| Configuration.MergeLoopNoDict | blogme/config.py:41-55 | from a non-dict value on, over layers holding no dict under the key, the loop never holds a dict |
| Configuration.MergedGetNoDict | blogme/config.py:41-55 | over layers holding no dict under the key (as flattened layers are) `merged_get` never answers with a dict, so the `update` branch is unreachable |
| Configuration.MergedGetValueError | blogme/config.py:41-55 | `ValueError` iff, once leading `None` values are passed over, the first value is neither list nor dict and the key occurs again after it |
| Configuration.MergeLoopNoneSoFar | blogme/config.py:44-54 | while only `None` has been found, the first later non-`None` value decides whether `ValueError` is raised |
| Configuration.SkipNone | blogme/config.py:47-48 | drops exactly the leading `None` values, keeping the rest in order |
| Configuration.MergeLoopFirstValue | blogme/config.py:44-54 | once a value other than `None` is held, `ValueError` is raised iff that value is neither list nor dict and the key occurs again |
| Configuration.MergedGetSkipsNone | blogme/config.py:47-48 | a `None` then a string under the key merge to the string, not a `ValueError` |
| Configuration.MergeLoopOtherKeys | blogme/config.py:43-54 | merging one key changes no other key of any layer |
| Configuration.Config.RootGet | blogme/config.py:57-60 | `None` on an empty stack; otherwise the first layer's value or the default |
| Configuration.Walk | blogme/config.py:71-76 | storing the leaves of a nested dict under their dotted keys gives the flattened entries |
| Configuration.FlattenGet | blogme/config.py:71-77 | a dotted key of the flattened layer holds the last leaf written under it, never a dict |
| Configuration.LeafIncluded | blogme/config.py:71-77 | every scalar entry and every leaf of a nested dict appears among the flattened leaves |
| Configuration.Config.AddFromDict | blogme/config.py:62-78 | a fresh config whose layers are the old ones plus the flattened dict; the receiver is unchanged |
| Configuration.Config.AddFromFile | blogme/config.py:80-91 | load errors propagate, a falsy document gives `None`, a non-dict gives `ValueError`, a dict gives one more layer |
| Configuration.Config.Pop | blogme/config.py:93-94 | `IndexError` on an empty stack, otherwise the last layer is removed |
| Values.Get | blogme/config.py:21 | nothing is found exactly when the key is absent |
| Values.Put | blogme/config.py:76 | the key then maps to the value and every other key is unchanged |
| Values.PutKeys | blogme/config.py:76 | an existing key keeps its position and a new key goes last |
| Values.GetPutAll | blogme/config.py:72-76 | after a series of assignments a key holds the last value written to it, or its old value |
| Values.PutAllUnique | blogme/config.py:72-76 | assignments keep the keys of a dict distinct |
| Values.Or | blogme/builder.py:125-126 | Python `a or b`: `a` when truthy, else `b` |
| Values.Iterate | blogme/builder.py:340 | iteration succeeds exactly on lists, dicts and strings, and yields a list's items |
| Glob.StarMatchesAll | blogme/builder.py:341 | `*` matches every name |
| Glob.LiteralMatchesItselfOnly | blogme/builder.py:294 | a pattern without wildcards matches exactly its own text |
| Glob.StarSuffix | blogme/builder.py:65-68 | `*` followed by a literal matches exactly the names ending in that literal |
| Glob.PrefixStar | blogme/builder.py:294 | a literal followed by `*` matches exactly the names starting with it |
| Glob.LiteralPrefix | blogme/builder.py:99 | a name matching a pattern that starts with a literal starts with that literal |
| BuildRules.KindNamed | blogme/builder.py:104 | `md`, `rst` and `copy` name their parsers; any other hashable name is a `KeyError`, an unhashable one a `TypeError` |
| BuildRules.FirstMatching | blogme/builder.py:98-101 | the first table entry whose pattern matches, with none before it matching |
| BuildRules.TableChoice | blogme/builder.py:98-103 | `copy` when no pattern of the table matches |
| BuildRules.ParserName | blogme/builder.py:93-94 | an explicit truthy `file_parser` setting wins over every pattern |
| BuildRules.DefaultTableChoice | blogme/builder.py:65-68 | the default table maps `.rst` to rst, `.md` to md and everything else to copy |
| BuildRules.DefaultParserTable | blogme/builder.py:92-104 | with no explicit parser and no configured table a file's parser follows its extension |
| BuildRules.ConfiguredPatternsKeepPrefix | blogme/builder.py:96-103 | with a configured table and no explicit parser, a name without the `file_parsers.` prefix is copied |
| BuildRules.NoConfiguredMatch | blogme/builder.py:96-101 | prefixed table keys never match a name lacking the prefix |
| BuildRules.FullDestinationOf | blogme/builder.py:122-127 | fails exactly on a non-string folder or destination; otherwise the path ends in the destination under the output folder (`_build` by default) |
| BuildRules.NeedsBuildOf | blogme/builder.py:133-139 | stale iff the output is missing or older than the source; `OSError` iff the output exists but the source does not |
| BuildRules.WrittenIsCurrent | blogme/builder.py:133-139 | an output written no earlier than its source is not stale |
| BuildRules.OutputIsCurrent | blogme/file_parser.py:168-174 | after a successful run the file is not stale |
| BuildRules.Slug | blogme/builder.py:114-116 | the desired filename with no backslash left, of the same length |
| BuildRules.DestFolderOf | blogme/builder.py:316-321 | fails exactly on a non-string output folder; a relative folder lies under the project |
| BuildRules.IgnoredByMatch | blogme/builder.py:339-344 | with string patterns a name is ignored iff some pattern matches it |
| BuildRules.KeepAll | blogme/builder.py:338-345 | the kept names are exactly the given names no pattern matches; any pattern error aborts |
| BuildRules.KeepAllOne | blogme/builder.py:339-345 | a single name is kept exactly when no pattern ignores it |
| BuildRules.KeepAllAppend | blogme/builder.py:338-345 | filtering a concatenation filters each part and concatenates the results, so kept names keep their order |
| BuildRules.KeepAllPrefixErr | blogme/builder.py:339-344 | the first failing name decides the error |
| BuildRules.DefaultIgnoresHide | blogme/builder.py:294 | the default patterns hide dot and underscore names, `config.yml`, `Makefile`, `README.*` and `*.conf` and nothing else |
| BuildRules.FilterDefaults | blogme/builder.py:333-337 | with no layer setting `ignore_files` the defaults filter and no layer changes |
| BuildRules.LinkFilename | blogme/builder.py:256-260 | the unquoted link after the prefix, with `index.html` appended to an empty or directory link, under the output folder |
| BuildRules.LinkFilenameRoundTrip | blogme/builder.py:256-260 | a link to a quoted path under the prefix maps back to that path under the output folder |
| FileParser.DesiredFilename | blogme/file_parser.py:146-148 | a copy keeps its name; a template page swaps its extension for `.html` |
| FileParser.DesiredFilenameSplits | blogme/file_parser.py:146-148 | a template page's name splits into the source's stem and `.html` |
| FileParser.HeaderEnd | blogme/file_parser.py:100-103 | the index of the first blank line, every line before it being non-blank |
| FileParser.Block | blogme/file_parser.py:98-104 | the right-stripped header lines before the first blank line, none empty |
| FileParser.ReadBlock | blogme/file_parser.py:98-104 | the reading loop collects that header block and stops at its end |
| FileParser.Normalise | blogme/file_parser.py:106-111 | an empty header is the meta error; otherwise a leading `---` is ensured and one trailing `---` dropped |
| FileParser.PubDate | blogme/file_parser.py:130-136 | a date or datetime becomes a datetime at midnight of that day; other values are ignored |
| FileParser.MetaFrom | blogme/file_parser.py:126-144 | a truthy title wins over the body title, and `type` and `summary` replace the old values only when present and not `None` |
| FileParser.PrepareOf | blogme/file_parser.py:96-144 | a copy changes nothing; an update always carries a non-empty header; a template source starting with a blank line fails with the meta error; YAML errors become meta errors, a falsy header changes nothing, a non-dict is a `ValueError`, and a dict updates config, destination (only through `destination_filename`) and metadata |
| FileParser.ApplyLoaded | blogme/file_parser.py:115-144 | an update carries a non-empty header and keeps the destination unless it names one |
| FileParser.SkipHeader | blogme/file_parser.py:210-213 | the loop skips through the first blank line |
| FileParser.AfterHeaderLines | blogme/file_parser.py:210-213 | what is skipped to is exactly the lines after the header block |
| FileParser.AfterHeaderLine | blogme/file_parser.py:211 | a blank first line ends the header and any other line is skipped with its newline |
| FileParser.ParseOf | blogme/file_parser.py:243-251 | a parsed page always has a `content` entry and distinct keys |
| FileParser.Output | blogme/file_parser.py:168-174 | a copy or rendered page is written to the destination stamped now; a missing source is an `OSError`; no other file changes |
| FileParser.Parser.constructor | blogme/file_parser.py:225-228 | the highlighting style is the configured one or `tango`; nothing is parsed yet |
| FileParser.Parser.Prepare | blogme/file_parser.py:96-144 | reading the source and applying its header gives the `prepare` outcome; a missing source is an `OSError` |
| FileParser.Parser.ReadHeader | blogme/file_parser.py:98-105 | the header block and, for reStructuredText, the title of the block after it |
| FileParser.Parser.Parse | blogme/file_parser.py:206-217 | a cached reStructuredText result is returned unchanged; otherwise the source is parsed and reStructuredText caches it |
| FileParser.Parser.Parsed | blogme/file_parser.py:157-161 | a non-empty parse is kept and returned again; an empty one is recomputed |
| FileParser.Parser.RenderContents | blogme/file_parser.py:150-151 | a copy renders nothing and changes nothing; a page renders the `content` of the memoised parse when there is one (changing nothing), else of a fresh parse, which is then memoised; a missing file is an `OSError` |
| FileParser.Parser.Run | blogme/file_parser.py:168-174 | writes the output for the destination and changes no other file; a copy leaves the parser as it was; a page is rendered from the memoised parse when there is one, else from a fresh parse, which is then memoised |
| FileParser.RenderPage | blogme/file_parser.py:168-174 | succeeds exactly when the template renders its context (the file context's default context, `post`, and `builder`) and the destination is known, writing the page with a final newline there |
| FileParser.TemplateContext | blogme/builder.py:153-165 | the context has the keys `source_filename`, `links`, `ctx`, `config`, `post` and `builder` (added at blogme/builder.py:241), in that order |
| FileParser.LayersValue | blogme/builder.py:158 | the configuration given to the template holds every layer, in order |
| FileParser.TemplateContextInjective | blogme/builder.py:153-165 | two pages get the same template context only when their source, links, parsed file, metadata, destination, layers and project all agree |
| FileParser.ContentOf | blogme/file_parser.py:150-151 | the parse's `content`, a `KeyError` exactly when it has none |
| Building.Storage.constructor | blogme/builder.py:331 | a module's storage starts empty |
| Building.FileContext.constructor | blogme/builder.py:70-84 | a context has default metadata, no links, an unparsed parser of its kind, and the desired filename as destination |
| Building.FileContext.PrepareFile | blogme/builder.py:86-90 | running `prepare` and the signals agrees with the walk's `Prepared` specification, errors included |
| Building.FileContext.Apply | blogme/file_parser.py:121-144 | the header's layer is pushed and destination and metadata follow it |
| Building.FileContext.Adopt | blogme/builder.py:86-90 | after applying the header the prepared signal, and the published signal when public, are sent |
| Building.FileContext.FullDestination | blogme/builder.py:122-127 | the destination under the configured output folder of the project |
| Building.FileContext.IsNew | blogme/builder.py:106-108 | new iff the full destination is not on disk |
| Building.FileContext.NeedsBuild | blogme/builder.py:133-139 | a new file needs a build; otherwise the destination is compared with the source by modification time |
| Building.FileContext.NeedsBuildAsMade | blogme/builder.py:133-139 | a context's staleness equals that of its summary in the walk specification |
| Building.FileContext.Slug | blogme/builder.py:114-116 | the desired filename with forward slashes |
| Building.FileContext.AddStylesheet | blogme/builder.py:170-178 | appends one stylesheet link (type `text/css` by default) and keeps the earlier links |
| Building.FileContext.Template | blogme/file_parser.py:169-170 | the nearest `template` setting |
| Building.FileContext.HeaderLevel | blogme/file_parser.py:193-194 | the nearest `rst_header_level`, 2 by default |
| Building.FileContext.Run | blogme/builder.py:180-187 | sends processed, then built when forced or stale; a stale file gets its output, a current one changes nothing |
| Building.Builder.constructor | blogme/builder.py:297-306 | the builder keeps the project folder, config and prefix path, and its storage starts empty |
| Building.Builder.DestFolder | blogme/builder.py:316-321 | the root layer's `output_folder` (or `_build`) under the project |
| Building.Builder.GetStorage | blogme/builder.py:330-331 | returns the module's existing storage, or creates and records an empty one |
| Building.Builder.GetLinkFilename | blogme/builder.py:256-260 | the link's file under the output folder, failing exactly when the output folder does |
| Building.Builder.FilterFiles | blogme/builder.py:333-345 | kept names and the layers after `merged_get('ignore_files')` equal the filter specification |
| Building.Builder.Visit | blogme/builder.py:347-361 | visiting a directory extends the walk exactly as the walk specification does |
| Building.Builder.Enter | blogme/builder.py:351-354 | the directory's own `config.yml` is stacked before its entries are filtered |
| Building.Builder.LocalConfig | blogme/builder.py:351-354 | the local config is the root's, plus the layer of the directory's `config.yml` when present |
| Building.Builder.Directory | blogme/builder.py:356 | sub-directories are filtered by the local config before files |
| Building.Builder.Filtered | blogme/builder.py:357 | files are filtered by the local config |
| Building.Builder.Descend | blogme/builder.py:359-361 | the directory's files get contexts, then the kept sub-directories are visited |
| Building.Builder.FilterUnder | blogme/builder.py:356-357 | filtering under a local config matches the filter specification and keeps the root's layers |
| Building.Builder.VisitChildren | blogme/builder.py:350 | kept sub-directories are visited in order |
| Building.Builder.MakeFiles | blogme/builder.py:359-361 | one context per kept file, in order |
| Building.Builder.AddFile | blogme/builder.py:359-361 | a stopped walk makes no more contexts |
| Building.Builder.AddMade | blogme/builder.py:359-361 | a made context is appended with its summary |
| Building.Builder.MakeFile | blogme/builder.py:360-361 | the new context's summary and signals match the walk specification |
| Building.Builder.AnythingNeedsBuild | blogme/builder.py:363-367 | the answer and layers equal the probe specification |
| Building.Builder.Run | blogme/builder.py:369-380 | clears the storage; result, printed lines, signals and layers equal the build specification |
| Building.Builder.RunContexts | blogme/builder.py:375-378 | running the collected contexts in order matches the run specification |
| Building.Builder.RunNext | blogme/builder.py:375-378 | one step runs the first context |
| Building.Builder.RunOne | blogme/builder.py:376-378 | prints `A` for a new output and `U` otherwise, then runs the context |
| Building.Builder.RunContext | blogme/builder.py:377 | running a context matches its specification |
| Building.Builder.RunsAsMade | blogme/builder.py:122-139 | a context's destination, template, header level and staleness are those of its summary |
| Building.Builder.RunAsWalk | blogme/builder.py:180-187 | the walk's context run sends and writes what the context's own run does |
| Walking.LocalLayer | blogme/builder.py:351-354 | at most one layer, none without a `config.yml` |
| Walking.Announce | blogme/builder.py:88-90 | prepared first, then published exactly when the file is public (true by default) |
| Walking.ContextOf | blogme/builder.py:360-361 | a context keeps the directory layers; a probe sends nothing, a build sends the prepare signals |
| Walking.Prepared | blogme/builder.py:86-90 | prepare adds at most one layer and then announces the file |
| Walking.Applied | blogme/file_parser.py:115-144 | an unchanged header keeps the context; an update adds the flattened layer, destination and metadata |
| Walking.PrepareHeader | blogme/file_parser.py:69-70 | a copied file has nothing to prepare |
| Walking.Checked | blogme/builder.py:364-366 | a probe may only stop the walk, and a build never does |
| Walking.SubNamed | blogme/builder.py:350 | the first sub-directory listed under a kept name |
| Walking.ContextRun | blogme/builder.py:180-187 | processed is always sent, built exactly when forced or stale; a current file changes nothing |
| Walking.RunItem | blogme/builder.py:375-378 | one line per successful context, and forced runs build |
| Walking.RunAllStuck | blogme/builder.py:375-378 | the first failing context ends the run |
| Walking.FilesSources | blogme/builder.py:359-361 | the contexts made for a directory's kept files are appended in order, each with the relative directory joined to the file name as its source, and all of them while the walk runs |
| Walking.FileStepMade | blogme/builder.py:360-361 | one yielded file appends a context for that source or stops the walk |
| Walking.ChildrenPruned | blogme/builder.py:356 | a sub-directory whose name is not kept is never walked: its contents do not change the walk |
| Walking.DirectoryPruned | blogme/builder.py:356 | a sub-directory the directory filter drops may hold anything without changing the directory's walk |
| Walking.SubNamedByName | blogme/builder.py:350 | sub-directories are found by name alone |
| Walking.VisitExtends | blogme/builder.py:347-361 | the walk only appends contexts and prepare signals; a probe sends none; layers differ only in `ignore_files` |
| Walking.NeedsBuildRoot | blogme/builder.py:133-139 | staleness does not depend on `ignore_files` |
| Walking.ProbeOfSound | blogme/builder.py:363-367 | `False` means every file is current; `True` means the last file visited is stale and all before it current |
| Walking.RunAllSignals | blogme/builder.py:375-378 | running contexts sends only processed and built signals, with one line per context |
| Walking.RunAllForced | blogme/builder.py:375-378 | a forced run sends processed then built for every context in order |
| Walking.RunAllUpToDate | blogme/builder.py:375-378 | when every file is current nothing is written and each context is processed once in order |
| Walking.FinishSignals | blogme/builder.py:375-380 | the run keeps the earlier signals, sends no prepare signal, and ends with the build-finished signal |
| Walking.BuildCollectsFirst | blogme/builder.py:369-380 | before-build comes first, every prepare signal precedes every run signal, and build-finished ends a successful build |
| Walking.BuildForced | blogme/builder.py:369-380 | a successful forced build sends built for every collected file |
| Walking.BuildCurrent | blogme/builder.py:369-380 | when every file is current an unforced build writes nothing and sends no built signal |
| Paths.Drop | blogme/builder.py:257 | slicing past the end gives the empty string |
| Paths.RFind | blogme/file_parser.py:147 | the last occurrence of a character, with none after it |
| Paths.Find | blogme/server.py:21 | the first occurrence of a character, with none before it |
| Paths.Join | blogme/server.py:33 | an absolute second part replaces the first; otherwise the result starts with the first and ends with the second |
| Paths.SplitExt | blogme/file_parser.py:147 | stem plus extension is the path, and the extension is empty or a dot with no dot or slash after it |
| Paths.ReplaceChar | blogme/builder.py:116 | replaces every occurrence of one character and nothing else |
| Paths.Split | blogme/server.py:25 | at least one part, and no part contains the separator |
| Paths.SplitJoinWith | blogme/server.py:25 | splitting parts joined on a separator they lack gives them back |
| Paths.Before | blogme/server.py:21 | the prefix before the first separator, which it does not contain |
| Paths.RStrip | blogme/file_parser.py:101 | the longest prefix of the line that does not end in a character `str.isspace()` accepts; everything dropped is such a character |
| Paths.NormCompsNormal | blogme/server.py:24 | `normpath` leaves no empty, `.` or slashed component, no `..` after the root, and `..` only in front |
| Paths.AbsPath | blogme/builder.py:299 | the absolute path of a folder relative to an absolute working directory is absolute |
| Urls.HexChar | blogme/server.py:24 | a digit's hex character decodes back to it |
| Urls.Unquote | blogme/server.py:24 | never longer than its input, and the identity on text without `%` |
| Urls.UnquoteQuote | blogme/builder.py:257 | unquoting a quoted ASCII path gives it back |
| Urls.FirstOf | blogme/builder.py:210 | the first index holding one of the characters, with none before it |
| Urls.SplitScheme | blogme/builder.py:210 | no scheme leaves the URL whole; a scheme is cut at a colon |
| Urls.PastNetloc | blogme/builder.py:210 | `//host` is dropped up to the next `/`, `?` or `#` |
| Urls.UrlPath | blogme/builder.py:210-211 | the path never holds a query or fragment |
| Urls.UrlPathOfAbsolute | blogme/builder.py:210-211 | the path of `scheme://host/path` is `/path` |
| Server.RequestPath | blogme/server.py:21-23 | query and fragment are cut, then a leading URL prefix is removed |
| Server.NonEmpty | blogme/server.py:26 | exactly the non-empty words |
| Server.Words | blogme/server.py:25-26 | non-empty, slash-free words |
| Server.Component | blogme/server.py:30 | the last component of a word, which is the word itself when it has no slash |
| Server.Kept | blogme/server.py:31-32 | the components other than `.` and `..` |
| Server.TranslatePath | blogme/server.py:19-34 | a `TypeError` on every request when the prefix is the empty bytes (no canonical URL); otherwise the output folder joined with the kept words of the normalised, unquoted request path, failing only where the output folder does |
| Server.JoinWords | blogme/server.py:27-34 | the loop joins the kept components onto the output folder |
| Server.TranslateJoined | blogme/server.py:27-34 | under an output folder not ending in `/`, the translated path is the folder followed by `/` and each kept component |
| Server.TranslateJoinedSlash | blogme/server.py:27-34 | under an output folder ending in `/`, the translated path is the folder followed by the kept components joined with `/` |
| Server.JoinedSlashStep | blogme/server.py:31-33 | joining one more component under a folder ending in `/` extends the `/`-joined components |
| Server.LastWord | blogme/server.py:31-33 | one loop step skips `.` and `..` and joins any other word |
| Server.TranslateConfined | blogme/server.py:27-34 | for every non-empty output folder, the result starts with it, and the rest splits into exactly the kept components, behind an empty part unless the folder ends in `/` and a component is kept |
| Server.NormWords | blogme/server.py:24-26 | the words of a normalised path are its normal components, or `.` for an empty relative path |
| Server.KeptNormal | blogme/server.py:28-32 | kept components come from the normalised path, all of them for a rooted path |
| Server.ServedUnderOutput | blogme/server.py:19-34 | for every non-empty output folder, with or without a trailing `/`, the file served is under it; past it there is no empty part but a leading one and no `..`, only components the normalised path kept, and a rooted path maps component for component |
| Server.HandleGet | blogme/server.py:13-17 | rebuilds exactly when the probe finds a stale file, printing the notice first, and the rebuild clears the module storage; probe errors propagate; without a rebuild the storage is untouched |
| Cli.Decode | blogme/cli.py:25-34 | usage iff the argument count is outside 1..3; action defaults to `build`, folder to the working directory |
| Cli.DecodeCommand | blogme/cli.py:27-34 | a full command decodes to its action and folder with no usage line |
| Cli.Notices | blogme/cli.py:25-36 | the usage line iff usage, and the unknown-action line iff the action is unknown |
| Cli.PrefixPathOf | blogme/builder.py:210-211 | a string URL gives its path as text, an absent or false one the empty bytes, anything else an `AttributeError` |
| Cli.BuilderOf | blogme/cli.py:9-18 | a missing root `config.yml` is the `ValueError`; a builder holds the loaded dict and the absolute project folder |
| Cli.FromLoaded | blogme/builder.py:207-221 | only a loaded dict (from `add_from_file` in `get_builder`) makes a builder, and only when babel knows its locale (`zh` by default) and its template path is a string; otherwise `UnknownLocaleError`, the prefix's error or the join's `TypeError`, in that order |
| Cli.BuilderOfCanonical | blogme/builder.py:210-211 | `canonical_url` `scheme://host/path` gives prefix `/path` and an absolute project |
| Cli.BuilderOfNoCanonical | blogme/builder.py:210-211 | a root config without `canonical_url` gives a builder whose prefix is the empty bytes |
| Cli.GetBuilder | blogme/cli.py:9-18 | fails as specified, or returns a fresh valid builder with one layer, the absolute folder and the prefix |
| Cli.BuilderFrom | blogme/cli.py:17-18 | stacks the loaded file's layer onto a new config and builds on it |
| Cli.Dispatch | blogme/cli.py:21-44 | notices, builder and build, rebuild or serve equal the dispatch specification |
| Cli.DispatchMissingConfig | blogme/cli.py:15-16 | without a root config the notices are printed and the `ValueError` raised, with no signal |
| Cli.DispatchUnknownLocale | blogme/builder.py:208 | a root config naming a locale babel does not know ends `main` in `UnknownLocaleError` after the notices, with nothing built or served |
| Cli.DispatchServes | blogme/cli.py:43-44 | any action other than `build` and `rebuild` serves, sending nothing |
| Cli.DispatchRebuild | blogme/cli.py:41-42 | a successful `rebuild` builds every collected file |

## Left out

- YAML loading, Markdown, reStructuredText (docutils), Pygments, Jinja templates, babel locale data and date formatting, and werkzeug URL building are `Library` functions, not implementations.
- Real file I/O, directory creation and `os.walk`: files are an `Fs` map and the walk order is a `Listing` value.
- Modification times are integers rather than floats.
- Signals are recorded as an event log. Receivers connected to them are not run.
- The weak reference from parser to context: parser methods take the context's data as arguments.
- Module plugins (`_setup_module`, `find_module`) are not modelled, and the builder's module list is absent.
- `register_url`, `update_jinja_env`, `open_link_file` and the date formatters are not modelled. Links come from the library's `linkTo`. The context `render_template` builds is modelled (`FileParser.TemplateContext`); the Jinja environment and its loader are the library's `renderTemplate`.
- FileParser.TemplateContext: `ctx`, `config` and `builder` are objects in Python. The template receives a snapshot of their state instead: the context's `source_filename`, `destination_filename` and `meta`, the configuration's layers, and the builder's `project_folder`. Methods and properties a template could call on them (`ctx.slug`, `ctx.content`, `config.get`, `builder.link_to`) are not modelled.
- fnmatch character classes (`[...]`): only `*` and `?` are modelled.
- blogme/constant.py is not part of this model. The front-matter keys are taken to be `title`, `pub_date`, `type`, `summary` and `template`.
- Printing is modelled as returned lines. The `get` line printed by `translate_path` is not modelled.
- Server.HandleGet: the file transfer done by `SimpleHTTPRequestHandler.do_GET` after the rebuild is not modelled.
- Cli.Dispatch: `debug_serve`'s server loop, its banner and the keyboard interrupt are the `Served` outcome.
- Urls.Unquote decodes each `%XX` to one character instead of decoding UTF-8 byte sequences.
- Urls.UrlPath does not strip whitespace or control characters and does not check IPv6 brackets as `urlsplit` does.
- Building.Builder.GetLinkFilename: werkzeug's use of a bytes `script_name` is not modelled; an empty-bytes prefix counts as no characters when the link is cut.
- Values.Value: floats and non-string mapping keys are not modelled, so the `TypeError` of `_walk`'s `prefix + key` for a non-string key (blogme/config.py:74-76) cannot arise.
- Configuration.MergeStep: `dict.update` is modelled for a dict argument only, and any other argument is an error. `update` would read key/value pairs from a list or string instead. The branch is unreachable on flattened layers (`Configuration.MergedGetNoDict`).
- FileSystem.Lines: files are split at `\n` only. The universal-newline translation of `\r\n` and `\r` by text-mode reading is not modelled.
- Walking.Event: the `before_template_rendered` signal that `render_template` sends (blogme/builder.py:244) is not in the event log. Rendering is the library's `renderTemplate`.
- FileParser.ApplyLoaded: the `ValueError` message ends before `, got: {cfg}`, because Python's rendering of a value is not modelled.
- Paths are POSIX only, so `os.path.splitdrive` never splits anything.
- Cli.BuilderOf: `os.path.isfile` is a lookup of the absolute path in `Fs`.
