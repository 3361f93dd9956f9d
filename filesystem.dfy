/** The filesystem and the rendering libraries blogme calls out to, as
    values the model passes around.

    A filesystem is a map from full paths to file data (existence is
    membership, modification times are integers); a directory listing is the
    tree `os.walk` goes through, in the order it lists entries. The
    libraries (YAML loading, reStructuredText and Markdown rendering, Jinja2
    templates, URL building) are pure functions whose results are not
    interpreted. */
module FileSystem {
  import opened Values
  import opened Paths

  datatype FileData = FileData(mtime: int, text: string)

  type Fs = map<string, FileData>

  /** What `for line in f` yields, each line without its newline: the pieces
      between newlines, the empty piece after a final newline excluded. */
  function Lines(text: string): (r: seq<string>)
    ensures forall i | 0 <= i < |r| :: '\n' !in r[i]
  {
    var pieces := Split(text, '\n');
    if pieces[|pieces| - 1] == "" then pieces[..|pieces| - 1] else pieces
  }

  /** A line `strip()`/`rstrip()` reduces to nothing. */
  predicate Blank(line: string) {
    RStrip(line) == ""
  }

  /** A directory as `os.walk` lists it: file names and subdirectories, in
      listing order. */
  datatype Listing = Listing(files: seq<string>, dirs: seq<Sub>)
  datatype Sub = Sub(name: string, listing: Listing)

  function Names(subs: seq<Sub>): (r: seq<string>)
    ensures |r| == |subs| && forall i | 0 <= i < |subs| :: r[i] == subs[i].name
  {
    if subs == [] then [] else [subs[0].name] + Names(subs[1..])
  }

  /** What docutils' `publish_parts` gives back, already reduced by `Markup`. */
  datatype RstParts = RstParts(title: string, htmlTitle: string, fragment: string)

  /** The libraries behind blogme's rendering, as uninterpreted functions. */
  datatype Library = Library(
    /** `yaml.safe_load` of a document; `Err` is the library's parse error. */
    loadYaml: string -> Result<Value>,
    /** docutils on a text with an initial header level. */
    renderRst: (string, Value) -> RstParts,
    /** Python-Markdown on a text with a Pygments style. */
    renderMarkdown: (string, Value) -> string,
    /** Jinja2: a template name and the template's context give the page,
        or the error of a missing or failing template. */
    renderTemplate: (Value, Mapping) -> Result<string>,
    /** werkzeug's URL building for an endpoint and its one path argument. */
    linkTo: (string, string) -> string,
    /** babel's `Locale(identifier)` succeeds: it has data for the locale. */
    knownLocale: Value -> bool)
}
