/** The dynamically typed values blogme passes around: what a YAML document
    loads to, what a configuration layer stores, and the Python errors the
    core raises. Python's insertion-ordered `dict` is an association list
    whose keys are kept unique. */
module Values {

  datatype Option<T> = None | Some(value: T)

  /** The Python exceptions the modelled code raises or lets escape. */
  datatype Error =
    | KeyError(key: Value)
    | ValueError(message: string)
    | TypeError(message: string)
    | AttributeError(message: string)
    | IndexError(message: string)
    | OSError(path: string)
    | FileMetaError(meta: seq<string>)
    /** babel's `UnknownLocaleError` for a locale it has no data for. */
    | UnknownLocaleError(identifier: Value)

  datatype Result<T> = Ok(value: T) | Err(error: Error) {
    predicate IsFailure() { Err? }
    function PropagateFailure<U>(): Result<U> requires Err? { Err(error) }
    function Extract(): T requires Ok? { value }
  }

  /** A YAML-loaded value. Floats and non-string mapping keys are not modelled. */
  datatype Value =
    | Null
    | Bool(b: bool)
    | Int(i: int)
    | Str(s: string)
    | Date(year: int, month: int, day: int)
    | DateTime(year: int, month: int, day: int, hour: int, minute: int, second: int)
    | List(items: seq<Value>)
    | Dict(entries: Mapping)

  datatype Entry = Entry(key: string, value: Value)

  /** A Python dict: entries in insertion order. */
  type Mapping = seq<Entry>

  /** Python truthiness (`if v:`, `v or default`). */
  predicate Truthy(v: Value) {
    match v
    case Null => false
    case Bool(b) => b
    case Int(i) => i != 0
    case Str(s) => s != ""
    case List(items) => items != []
    case Dict(entries) => entries != []
    case _ => true
  }

  /** `a or b` on values. */
  function Or(a: Value, b: Value): (r: Value)
    ensures Truthy(a) ==> r == a
    ensures !Truthy(a) ==> r == b
  {
    if Truthy(a) then a else b
  }

  function Keys(m: Mapping): (ks: seq<string>)
    ensures |ks| == |m|
    ensures forall i | 0 <= i < |m| :: ks[i] == m[i].key
  {
    if m == [] then [] else [m[0].key] + Keys(m[1..])
  }

  predicate UniqueKeys(m: Mapping) {
    forall i, j | 0 <= i < j < |m| :: m[i].key != m[j].key
  }

  /** `m.get(k, missing)`: the value stored under `k`, if any. */
  function Get(m: Mapping, k: string): (r: Option<Value>)
    ensures r.None? <==> k !in Keys(m)
  {
    if m == [] then None
    else if m[0].key == k then Some(m[0].value)
    else Get(m[1..], k)
  }

  /** `m.get(k, default)`. */
  function GetOr(m: Mapping, k: string, default: Value): Value {
    match Get(m, k)
    case Some(v) => v
    case None => default
  }

  /** `m[k] = v`: an existing key keeps its position, a new key goes last. */
  function Put(m: Mapping, k: string, v: Value): (r: Mapping)
    ensures Get(r, k) == Some(v)
    ensures forall k' | k' != k :: Get(r, k') == Get(m, k')
  {
    if m == [] then [Entry(k, v)]
    else if m[0].key == k then [Entry(k, v)] + m[1..]
    else [m[0]] + Put(m[1..], k, v)
  }

  /** Writing a key never reorders the dict: a new key is appended, an old one stays put. */
  lemma {:induction false} PutKeys(m: Mapping, k: string, v: Value)
    ensures Keys(Put(m, k, v)) == if k in Keys(m) then Keys(m) else Keys(m) + [k]
  {
    if m != [] && m[0].key != k {
      PutKeys(m[1..], k, v);
      assert Keys(m) == [m[0].key] + Keys(m[1..]);
      assert Keys(Put(m, k, v)) == [m[0].key] + Keys(Put(m[1..], k, v));
    }
  }

  lemma UniqueKeysByKeys(m: Mapping, m': Mapping)
    requires UniqueKeys(m)
    requires Keys(m') == Keys(m) || exists k :: k !in Keys(m) && Keys(m') == Keys(m) + [k]
    ensures UniqueKeys(m')
  {
    if Keys(m') != Keys(m) {
      var k :| k !in Keys(m) && Keys(m') == Keys(m) + [k];
      forall i, j | 0 <= i < j < |m'| ensures m'[i].key != m'[j].key {
        assert m'[i].key == Keys(m')[i] && m'[j].key == Keys(m')[j];
        if j == |m| {
          assert Keys(m')[i] == Keys(m)[i];
        } else {
          assert Keys(m')[i] == m[i].key && Keys(m')[j] == m[j].key;
        }
      }
    } else {
      forall i, j | 0 <= i < j < |m'| ensures m'[i].key != m'[j].key {
        assert m'[i].key == Keys(m')[i] == m[i].key && m'[j].key == Keys(m')[j] == m[j].key;
      }
    }
  }

  lemma PutUnique(m: Mapping, k: string, v: Value)
    requires UniqueKeys(m)
    ensures UniqueKeys(Put(m, k, v))
  {
    PutKeys(m, k, v);
    UniqueKeysByKeys(m, Put(m, k, v));
  }

  /** Successive `m[k] = v` for every entry of `es`, in order (`dict.update`). */
  function PutAll(m: Mapping, es: seq<Entry>): Mapping
    decreases |es|
  {
    if es == [] then m else PutAll(Put(m, es[0].key, es[0].value), es[1..])
  }

  /** The value of the last entry of `es` whose key is `k`. */
  function LastValue(es: seq<Entry>, k: string): Option<Value> {
    if es == [] then None
    else if es[|es| - 1].key == k then Some(es[|es| - 1].value)
    else LastValue(es[..|es| - 1], k)
  }

  lemma {:induction false} PutAllAppend(m: Mapping, a: seq<Entry>, b: seq<Entry>)
    ensures PutAll(m, a + b) == PutAll(PutAll(m, a), b)
    decreases |a|
  {
    if a != [] {
      assert (a + b)[0] == a[0] && (a + b)[1..] == a[1..] + b;
      PutAllAppend(Put(m, a[0].key, a[0].value), a[1..], b);
    } else {
      assert a + b == b;
    }
  }

  /** After `update`, a key holds the last value written to it, else its old value. */
  lemma {:induction false} GetPutAll(m: Mapping, es: seq<Entry>, k: string)
    ensures Get(PutAll(m, es), k) == match LastValue(es, k) { case Some(v) => Some(v) case None => Get(m, k) }
    decreases |es|
  {
    if es != [] {
      var init, last := es[..|es| - 1], es[|es| - 1];
      assert es == init + [last];
      PutAllAppend(m, init, [last]);
      GetPutAll(m, init, k);
    }
  }

  lemma {:induction false} PutAllUnique(m: Mapping, es: seq<Entry>)
    requires UniqueKeys(m)
    ensures UniqueKeys(PutAll(m, es))
    decreases |es|
  {
    if es != [] {
      PutUnique(m, es[0].key, es[0].value);
      PutAllUnique(Put(m, es[0].key, es[0].value), es[1..]);
    }
  }

  /** The items a Python `for` loop (or `list.extend`) draws from a value:
      a list's items, a dict's keys, a string's characters; anything else is
      not iterable. */
  function Iterate(v: Value): (r: Result<seq<Value>>)
    ensures r.Ok? <==> (v.List? || v.Dict? || v.Str?)
    ensures v.List? ==> r == Ok(v.items)
  {
    match v
    case List(items) => Ok(items)
    case Dict(entries) => Ok(seq(|entries|, i requires 0 <= i < |entries| => Str(entries[i].key)))
    case Str(s) => Ok(seq(|s|, i requires 0 <= i < |s| => Str([s[i]])))
    case _ => Err(TypeError("object is not iterable"))
  }
}
