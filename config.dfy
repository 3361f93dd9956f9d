/** blogme/config.py: the stacked configuration.

    A `Config` is a stack of layers, oldest first. Each layer is a flat dict
    whose keys are dotted paths (`modules.pygments.style`). Layers are
    objects shared by every `Config` whose stack holds them: adding a layer
    copies the stack, not the layers, so a mutation through one config (as
    `merged_get` makes) is seen through all the others.

    The pure functions over `seq<Mapping>` say what each lookup computes on
    a snapshot of the stack; the class members are proved against them. */
module Configuration {
  import opened Values
  import opened Paths

  class Layer {
    var entries: Mapping

    constructor (entries: Mapping)
      ensures this.entries == entries
    {
      this.entries := entries;
    }
  }

  /** The contents of the layers, in stack order. */
  function Snapshot(layers: seq<Layer>): seq<Mapping>
    reads layers
  {
    seq(|layers|, i requires 0 <= i < |layers| reads layers => layers[i].entries)
  }

  /** The snapshot of the layers above the first `n` is the end of the whole snapshot. */
  lemma SnapshotDrop(layers: seq<Layer>, n: nat)
    requires n <= |layers|
    ensures Snapshot(layers[n..]) == Snapshot(layers)[n..]
  {
  }

  /** The snapshot of the first `n` layers is the start of the whole snapshot. */
  lemma SnapshotTake(layers: seq<Layer>, n: nat)
    requires n <= |layers|
    ensures Snapshot(layers[..n]) == Snapshot(layers)[..n]
  {
  }

  // ---------------------------------------------------------------------------
  // Lookups over a snapshot of the stack

  /** The index of the most recently added layer holding `key`, or -1. */
  function LastHolder(stack: seq<Mapping>, key: string): (h: int)
    ensures -1 <= h < |stack|
    ensures h >= 0 ==> key in Keys(stack[h])
    ensures forall j | h < j < |stack| :: key !in Keys(stack[j])
  {
    if stack == [] then -1
    else if key in Keys(stack[|stack| - 1]) then |stack| - 1
    else LastHolder(stack[..|stack| - 1], key)
  }

  /** `config[key]`: the value in the most recently added layer holding the key. */
  function Lookup(stack: seq<Mapping>, key: string): (r: Option<Value>)
  {
    var h := LastHolder(stack, key);
    if h < 0 then None else Get(stack[h], key)
  }

  /** The lookup misses exactly when no layer holds the key, and otherwise
      finds the value of a layer above which no layer holds it. */
  lemma LookupNearest(stack: seq<Mapping>, key: string)
    ensures Lookup(stack, key).None? <==> forall i | 0 <= i < |stack| :: key !in Keys(stack[i])
    ensures Lookup(stack, key).Some? ==> exists i | 0 <= i < |stack| ::
      Get(stack[i], key) == Lookup(stack, key) && forall j | i < j < |stack| :: key !in Keys(stack[j])
  {
  }

  /** `config.get(key, default)` on a snapshot. */
  function GetOf(stack: seq<Mapping>, key: string, default: Value): Value {
    match Lookup(stack, key)
    case Some(v) => v
    case None => default
  }

  /** `root_get(key, default)`: only the first layer is consulted. */
  function RootGetOf(stack: seq<Mapping>, key: string, default: Value): Value {
    if stack == [] then Null else GetOr(stack[0], key, default)
  }

  /** The entries of one layer whose keys start with `prefix`, in layer order. */
  function WithPrefix(layer: Mapping, prefix: string): (r: seq<Entry>)
    ensures forall i | 0 <= i < |r| :: StartsWith(r[i].key, prefix)
  {
    if layer == [] then []
    else
      var last := layer[|layer| - 1];
      WithPrefix(layer[..|layer| - 1], prefix) + if StartsWith(last.key, prefix) then [last] else []
  }

  /** `list_entries(key)`: every `key.`-prefixed entry of every layer, oldest
      layer first, written into one dict (a later layer overwrites). */
  function ListEntriesOf(stack: seq<Mapping>, key: string): Mapping {
    if stack == [] then []
    else PutAll(ListEntriesOf(stack[..|stack| - 1], key), WithPrefix(stack[|stack| - 1], key + "."))
  }

  /** `result` of `merged_get` and the index of the layer whose object it is (-1: none). */
  datatype Merge = Merge(result: Value, owner: int)

  /** `result.extend(rv)` for a list result, `result.update(rv)` for a dict
      result, and the `ValueError` for anything else. `update` is modelled
      for a dict `rv` only, with every other `rv` an error; the branch is
      never reached on flattened layers, which hold no dicts
      (MergedGetNoDict). */
  function MergeStep(result: Value, rv: Value): (r: Result<Value>)
    ensures r.Err? && r.error.ValueError? <==> !result.List? && !result.Dict?
    ensures result.List? && rv.List? ==> r == Ok(List(result.items + rv.items))
    ensures r.Ok? ==> (result.List? ==> r.value.List?) && (result.Dict? ==> r.value.Dict?)
  {
    if result.List? then
      match Iterate(rv)
      case Ok(items) => Ok(List(result.items + items))
      case Err(e) => Err(e)
    else if result.Dict? then
      if rv.Dict? then Ok(Dict(PutAll(result.entries, rv.entries)))
      else Err(TypeError("cannot convert dictionary update sequence element"))
    else Err(ValueError("expected list or dict"))
  }

  /** The stack after the value under `key` in layer `o` became `v`. */
  function Rewritten(stack: seq<Mapping>, o: nat, key: string, v: Value): seq<Mapping>
    requires o < |stack|
  {
    stack[o := Put(stack[o], key, v)]
  }

  /** The loop of `merged_get` from layer `i` on. `stack` is the current
      snapshot: each merge step rewrites the owning layer's value, because
      Python extends or updates that layer's own list or dict. */
  function MergeLoop(stack: seq<Mapping>, key: string, i: nat, m: Merge): (r: (Result<Value>, seq<Mapping>))
    requires i <= |stack| && -1 <= m.owner < i
    requires m.result != Null ==> m.owner >= 0
    ensures |r.1| == |stack|
    decreases |stack| - i
  {
    if i == |stack| then (Ok(m.result), stack)
    else match Get(stack[i], key)
      case None => MergeLoop(stack, key, i + 1, m)
      case Some(rv) =>
        if m.result == Null then MergeLoop(stack, key, i + 1, Merge(rv, i))
        else match MergeStep(m.result, rv)
          case Err(e) => (Err(e), stack)
          case Ok(merged) =>
            MergeLoop(Rewritten(stack, m.owner, key, merged), key, i + 1, Merge(merged, m.owner))
  }

  /** `merged_get(key)`: the result and the layers afterwards. */
  function MergedGetOf(stack: seq<Mapping>, key: string): (r: (Result<Value>, seq<Mapping>))
    ensures |r.1| == |stack|
  {
    MergeLoop(stack, key, 0, Merge(Null, -1))
  }

  // ---------------------------------------------------------------------------
  // Flattening (`add_from_dict`'s `_walk`)

  /** The non-dict leaves of a nested dict, in traversal order, each under
      its dotted path. */
  function Leaves(d: Mapping, prefix: string): (r: seq<Entry>)
    ensures forall i | 0 <= i < |r| :: !r[i].value.Dict? && StartsWith(r[i].key, prefix)
  {
    if d == [] then []
    else
      var e := d[|d| - 1];
      Leaves(d[..|d| - 1], prefix) +
        if e.value.Dict? then Leaves(e.value.entries, prefix + e.key + ".") else [Entry(prefix + e.key, e.value)]
  }

  /** The layer `add_from_dict` builds from a nested dict. */
  function Flatten(d: Mapping): Mapping {
    PutAll([], Leaves(d, ""))
  }

  /** `_walk(d, prefix)`: stores every leaf of `d` into `layer` under its dotted key. */
  method Walk(d: Mapping, prefix: string, layer: Mapping) returns (result: Mapping)
    ensures result == PutAll(layer, Leaves(d, prefix))
  {
    result := layer;
    for i := 0 to |d|
      invariant result == PutAll(layer, Leaves(d[..i], prefix))
    {
      var e := d[i];
      assert d[..i + 1][..i] == d[..i];
      PutAllAppend(layer, Leaves(d[..i], prefix),
        if e.value.Dict? then Leaves(e.value.entries, prefix + e.key + ".") else [Entry(prefix + e.key, e.value)]);
      if e.value.Dict? {
        result := Walk(e.value.entries, prefix + e.key + ".", result);
      } else {
        result := Put(result, prefix + e.key, e.value);
      }
    }
    assert d[..|d|] == d;
  }

  // ---------------------------------------------------------------------------
  // Properties of the lookups

  /** Adding a layer that holds `key` makes `config[key]` return its value,
      while `root_get` still answers from the first layer. */
  lemma {:induction false} NearestScopeWins(stack: seq<Mapping>, layer: Mapping, key: string, default: Value)
    requires key in Keys(layer)
    ensures Lookup(stack + [layer], key) == Get(layer, key)
    ensures stack != [] ==> RootGetOf(stack + [layer], key, default) == RootGetOf(stack, key, default)
  {
    assert (stack + [layer])[|stack|] == layer;
  }

  /** A query on a layer that lacks the key falls through to the layers below. */
  lemma {:induction false} LookupFallsThrough(stack: seq<Mapping>, layer: Mapping, key: string)
    requires key !in Keys(layer)
    ensures Lookup(stack + [layer], key) == Lookup(stack, key)
  {
    assert (stack + [layer])[..|stack|] == stack;
  }

  /** Lookups see a layer only through the key asked: stacks whose layers
      agree on `key` agree on `config[key]`. */
  lemma {:induction false} LookupAgrees(a: seq<Mapping>, b: seq<Mapping>, key: string)
    requires |a| == |b|
    requires forall i | 0 <= i < |a| :: Get(a[i], key) == Get(b[i], key)
    ensures Lookup(a, key) == Lookup(b, key)
    ensures LastHolder(a, key) == LastHolder(b, key)
  {
    if a != [] {
      var n := |a| - 1;
      assert Get(a[n], key) == Get(b[n], key);
      if key !in Keys(a[n]) {
        LookupAgrees(a[..n], b[..n], key);
      }
    }
  }

  lemma {:induction false} GetOfUniqueLast(layer: Mapping, k: string)
    requires UniqueKeys(layer) && layer != []
    ensures layer[|layer| - 1].key == k ==> Get(layer, k) == Some(layer[|layer| - 1].value)
    ensures layer[|layer| - 1].key != k ==> Get(layer, k) == Get(layer[..|layer| - 1], k)
    decreases |layer|
  {
    if |layer| > 1 && layer[0].key != k {
      assert layer[1..][..|layer| - 2] == layer[..|layer| - 1][1..];
      GetOfUniqueLast(layer[1..], k);
    }
  }

  /** Within one layer, the last prefixed entry for `k` is the layer's own value. */
  lemma {:induction false} LastValueWithPrefix(layer: Mapping, prefix: string, k: string)
    requires UniqueKeys(layer)
    ensures LastValue(WithPrefix(layer, prefix), k) == if StartsWith(k, prefix) then Get(layer, k) else None
    decreases |layer|
  {
    if layer == [] {
      return;
    }
    var init, last := layer[..|layer| - 1], layer[|layer| - 1];
    var w := WithPrefix(init, prefix);
    LastValueWithPrefix(init, prefix, k);
    GetOfUniqueLast(layer, k);
    if StartsWith(last.key, prefix) {
      assert (w + [last])[..|w|] == w;
    } else {
      assert w + [] == w;
    }
  }

  /** `list_entries(key)` holds exactly the `key.`-prefixed keys of all
      layers, unstripped, each with the value of the nearest layer holding it. */
  lemma {:induction false} ListEntriesGet(stack: seq<Mapping>, key: string, k: string)
    requires forall i | 0 <= i < |stack| :: UniqueKeys(stack[i])
    ensures Get(ListEntriesOf(stack, key), k) == if StartsWith(k, key + ".") then Lookup(stack, k) else None
    decreases |stack|
  {
    if stack != [] {
      var init, last := stack[..|stack| - 1], stack[|stack| - 1];
      ListEntriesGet(init, key, k);
      GetPutAll(ListEntriesOf(init, key), WithPrefix(last, key + "."), k);
      LastValueWithPrefix(last, key + ".", k);
    }
  }

  /** Every key of `m` starts with `prefix`. */
  predicate AllPrefixed(m: seq<Entry>, prefix: string) {
    forall i | 0 <= i < |m| :: StartsWith(m[i].key, prefix)
  }

  lemma {:induction false} PutAllPrefixed(m: Mapping, es: seq<Entry>, prefix: string)
    requires AllPrefixed(m, prefix) && AllPrefixed(es, prefix)
    ensures AllPrefixed(PutAll(m, es), prefix)
    decreases |es|
  {
    if es != [] {
      var m' := Put(m, es[0].key, es[0].value);
      PutKeys(m, es[0].key, es[0].value);
      forall i | 0 <= i < |m'| ensures StartsWith(m'[i].key, prefix) {
        assert m'[i].key == Keys(m')[i];
        if i < |m| {
          assert Keys(m')[i] == Keys(m)[i] == m[i].key;
        }
      }
      PutAllPrefixed(m', es[1..], prefix);
    }
  }

  /** `list_entries(key)` never strips the prefix: every key it returns
      still starts with `key.`. */
  lemma {:induction false} ListEntriesPrefixed(stack: seq<Mapping>, key: string)
    ensures AllPrefixed(ListEntriesOf(stack, key), key + ".")
    decreases |stack|
  {
    if stack != [] {
      ListEntriesPrefixed(stack[..|stack| - 1], key);
      PutAllPrefixed(ListEntriesOf(stack[..|stack| - 1], key), WithPrefix(stack[|stack| - 1], key + "."), key + ".");
    }
  }

  /** The values the key has across the layers from `i` on, oldest first. */
  function OccurrencesFrom(stack: seq<Mapping>, key: string, i: nat): seq<Value>
    requires i <= |stack|
    decreases |stack| - i
  {
    if i == |stack| then []
    else match Get(stack[i], key)
      case Some(v) => [v] + OccurrencesFrom(stack, key, i + 1)
      case None => OccurrencesFrom(stack, key, i + 1)
  }

  /** The layer holds a list under `key`, or nothing. */
  predicate HoldsListOrNothing(layer: Mapping, key: string) {
    Get(layer, key).None? || Get(layer, key).value.List?
  }

  /** The items of a sequence of lists, concatenated (a non-list contributes nothing). */
  function ConcatItems(vs: seq<Value>): seq<Value> {
    if vs == [] then [] else (if vs[0].List? then vs[0].items else []) + ConcatItems(vs[1..])
  }

  /** Every layer from `i` on holds a list under `key`, or nothing. */
  predicate ListsFrom(stack: seq<Mapping>, key: string, i: nat)
    requires i <= |stack|
    decreases |stack| - i
  {
    i == |stack| || (HoldsListOrNothing(stack[i], key) && ListsFrom(stack, key, i + 1))
  }

  lemma {:induction false} ListsFromAll(stack: seq<Mapping>, key: string, i: nat)
    requires i <= |stack|
    requires forall j | i <= j < |stack| :: HoldsListOrNothing(stack[j], key)
    ensures ListsFrom(stack, key, i)
    decreases |stack| - i
  {
    if i < |stack| {
      ListsFromAll(stack, key, i + 1);
    }
  }

  /** What `merged_get` reads from layer `i` on depends on those layers only. */
  lemma {:induction false} OccurrencesFrame(s: seq<Mapping>, t: seq<Mapping>, key: string, i: nat)
    requires i <= |s| == |t|
    requires forall j | i <= j < |s| :: s[j] == t[j]
    ensures OccurrencesFrom(s, key, i) == OccurrencesFrom(t, key, i)
    ensures ListsFrom(s, key, i) == ListsFrom(t, key, i)
    decreases |s| - i
  {
    if i < |s| {
      OccurrencesFrame(s, t, key, i + 1);
    }
  }

  lemma {:induction false} PutPut(m: Mapping, k: string, a: Value, b: Value)
    ensures Put(Put(m, k, a), k, b) == Put(m, k, b)
    decreases |m|
  {
    if m != [] && m[0].key != k {
      PutPut(m[1..], k, a, b);
    }
  }

  lemma {:induction false} PutSame(m: Mapping, k: string, v: Value)
    requires Get(m, k) == Some(v)
    ensures Put(m, k, v) == m
    decreases |m|
  {
    if m != [] && m[0].key != k {
      PutSame(m[1..], k, v);
    }
  }

  /** Once `result` is the owner's list, every later list occurrence is
      appended to it, and the owner layer ends up holding the whole list. */
  lemma {:induction false} MergeLoopLists(stack: seq<Mapping>, key: string, i: nat, acc: seq<Value>, o: nat)
    requires o < i <= |stack|
    requires Get(stack[o], key) == Some(List(acc))
    requires ListsFrom(stack, key, i)
    ensures var total := List(acc + ConcatItems(OccurrencesFrom(stack, key, i)));
      MergeLoop(stack, key, i, Merge(List(acc), o)) == (Ok(total), Rewritten(stack, o, key, total))
  {
    MergeLoopListsResult(stack, key, i, acc, o);
    MergeLoopListsLayers(stack, key, i, acc, o);
  }

  lemma {:induction false} MergeLoopListsResult(stack: seq<Mapping>, key: string, i: nat, acc: seq<Value>, o: nat)
    requires o < i <= |stack|
    requires ListsFrom(stack, key, i)
    ensures MergeLoop(stack, key, i, Merge(List(acc), o)).0 == Ok(List(acc + ConcatItems(OccurrencesFrom(stack, key, i))))
    decreases |stack| - i
  {
    if i == |stack| {
      assert acc + [] == acc;
    } else if Get(stack[i], key).None? {
      MergeLoopListsResult(stack, key, i + 1, acc, o);
    } else {
      var items := Get(stack[i], key).value.items;
      var acc' := acc + items;
      var s' := Rewritten(stack, o, key, List(acc'));
      OccurrencesFrame(s', stack, key, i + 1);
      MergeLoopListsResult(s', key, i + 1, acc', o);
      ListStep(stack, key, i, acc, o, items);
      ConcatCons(stack, key, i, acc, items);
    }
  }

  lemma {:induction false} MergeLoopListsLayers(stack: seq<Mapping>, key: string, i: nat, acc: seq<Value>, o: nat)
    requires o < i <= |stack|
    requires Get(stack[o], key) == Some(List(acc))
    requires ListsFrom(stack, key, i)
    ensures MergeLoop(stack, key, i, Merge(List(acc), o)).1
      == Rewritten(stack, o, key, List(acc + ConcatItems(OccurrencesFrom(stack, key, i))))
    decreases |stack| - i
  {
    if i == |stack| {
      assert acc + [] == acc;
      PutSame(stack[o], key, List(acc));
      assert stack[o := stack[o]] == stack;
    } else if Get(stack[i], key).None? {
      assert ListsFrom(stack, key, i + 1);
      assert OccurrencesFrom(stack, key, i) == OccurrencesFrom(stack, key, i + 1);
      assert MergeLoop(stack, key, i, Merge(List(acc), o)) == MergeLoop(stack, key, i + 1, Merge(List(acc), o));
      MergeLoopListsLayers(stack, key, i + 1, acc, o);
    } else {
      var items := Get(stack[i], key).value.items;
      var acc' := acc + items;
      var s' := Rewritten(stack, o, key, List(acc'));
      var total := List(acc' + ConcatItems(OccurrencesFrom(stack, key, i + 1)));
      OccurrencesFrame(s', stack, key, i + 1);
      MergeLoopListsLayers(s', key, i + 1, acc', o);
      RewrittenTwice(stack, o, key, List(acc'), total);
      ListStep(stack, key, i, acc, o, items);
      ConcatCons(stack, key, i, acc, items);
    }
  }

  /** Rewriting the same value twice keeps the second rewrite only. */
  lemma RewrittenTwice(stack: seq<Mapping>, o: nat, key: string, a: Value, b: Value)
    requires o < |stack|
    ensures Rewritten(Rewritten(stack, o, key, a), o, key, b) == Rewritten(stack, o, key, b)
  {
    PutPut(stack[o], key, a, b);
  }

  lemma ConcatCons(stack: seq<Mapping>, key: string, i: nat, acc: seq<Value>, items: seq<Value>)
    requires i < |stack| && Get(stack[i], key) == Some(List(items))
    ensures acc + ConcatItems(OccurrencesFrom(stack, key, i)) == acc + items + ConcatItems(OccurrencesFrom(stack, key, i + 1))
  {
    var rest := OccurrencesFrom(stack, key, i + 1);
    assert OccurrencesFrom(stack, key, i) == [List(items)] + rest;
    assert ([List(items)] + rest)[1..] == rest;
  }

  /** One list step of `merged_get`: the owner's list is extended in its layer. */
  lemma ListStep(stack: seq<Mapping>, key: string, i: nat, acc: seq<Value>, o: nat, items: seq<Value>)
    requires o < i < |stack| && Get(stack[i], key) == Some(List(items))
    ensures MergeLoop(stack, key, i, Merge(List(acc), o))
      == MergeLoop(Rewritten(stack, o, key, List(acc + items)), key, i + 1, Merge(List(acc + items), o))
  {
  }

  /** `merged_get` on layers that hold no `key` before layer `f` skips them. */
  lemma {:induction false} MergeLoopSkip(stack: seq<Mapping>, key: string, i: nat, f: nat, m: Merge)
    requires i <= f <= |stack| && -1 <= m.owner < i && (m.result != Null ==> m.owner >= 0)
    requires forall j | i <= j < f :: key !in Keys(stack[j])
    ensures MergeLoop(stack, key, i, m) == MergeLoop(stack, key, f, m)
    ensures OccurrencesFrom(stack, key, i) == OccurrencesFrom(stack, key, f)
    decreases f - i
  {
    if i < f {
      MergeLoopSkip(stack, key, i + 1, f, m);
    }
  }

  /** The index of the oldest layer holding `key`. */
  function FirstHolder(stack: seq<Mapping>, key: string): (f: nat)
    requires exists i | 0 <= i < |stack| :: key in Keys(stack[i])
    ensures f < |stack| && key in Keys(stack[f])
    ensures forall j | 0 <= j < f :: key !in Keys(stack[j])
  {
    if key in Keys(stack[0]) then 0 else 1 + FirstHolder(stack[1..], key)
  }

  /** The loop of `merged_get(key)` rewrites values stored under `key` only:
      every other key of every layer reads as before. */
  lemma {:induction false} MergeLoopOtherKeys(stack: seq<Mapping>, key: string, i: nat, m: Merge, k: string, j: nat)
    requires i <= |stack| && -1 <= m.owner < i && (m.result != Null ==> m.owner >= 0)
    requires k != key && j < |stack|
    ensures Get(MergeLoop(stack, key, i, m).1[j], k) == Get(stack[j], k)
    decreases |stack| - i
  {
    if i < |stack| {
      var rv := Get(stack[i], key);
      if rv.None? {
        assert MergeLoop(stack, key, i, m) == MergeLoop(stack, key, i + 1, m);
        MergeLoopOtherKeys(stack, key, i + 1, m, k, j);
      } else if m.result == Null {
        assert MergeLoop(stack, key, i, m) == MergeLoop(stack, key, i + 1, Merge(rv.value, i));
        MergeLoopOtherKeys(stack, key, i + 1, Merge(rv.value, i), k, j);
      } else {
        var step := MergeStep(m.result, rv.value);
        if step.Ok? {
          var stack' := Rewritten(stack, m.owner, key, step.value);
          assert MergeLoop(stack, key, i, m) == MergeLoop(stack', key, i + 1, Merge(step.value, m.owner));
          MergeLoopOtherKeys(stack', key, i + 1, Merge(step.value, m.owner), k, j);
          assert Get(stack'[j], k) == Get(stack[j], k);
        } else {
          assert MergeLoop(stack, key, i, m).1 == stack;
        }
      }
    }
  }

  /** With no layer holding `key`, `merged_get` is `None` and changes nothing. */
  lemma MergedGetAbsent(stack: seq<Mapping>, key: string)
    requires forall i | 0 <= i < |stack| :: key !in Keys(stack[i])
    ensures MergedGetOf(stack, key) == (Ok(Null), stack)
  {
    MergeLoopSkip(stack, key, 0, |stack|, Merge(Null, -1));
  }

  /** When every occurrence of `key` is a list, `merged_get` returns their
      concatenation in layer order, and the oldest holder's own list has
      become that concatenation. */
  lemma MergedGetLists(stack: seq<Mapping>, key: string)
    requires exists i | 0 <= i < |stack| :: key in Keys(stack[i])
    requires forall j | 0 <= j < |stack| :: HoldsListOrNothing(stack[j], key)
    ensures var f, total := FirstHolder(stack, key), List(ConcatItems(OccurrencesFrom(stack, key, 0)));
      MergedGetOf(stack, key) == (Ok(total), Rewritten(stack, f, key, total))
  {
    var f := FirstHolder(stack, key);
    MergeLoopSkip(stack, key, 0, f, Merge(Null, -1));
    var v := Get(stack[f], key).value;
    var occ, rest := OccurrencesFrom(stack, key, 0), OccurrencesFrom(stack, key, f + 1);
    assert occ == [v] + rest;
    assert occ[1..] == rest;
    ListsFromAll(stack, key, f + 1);
    MergeLoopLists(stack, key, f + 1, v.items, f);
  }

  /** From a list or dict `result` on, no step raises `ValueError`. */
  lemma {:induction false} MergeLoopNoValueError(stack: seq<Mapping>, key: string, i: nat, m: Merge)
    requires i <= |stack| && 0 <= m.owner < i && (m.result.List? || m.result.Dict?)
    ensures var r := MergeLoop(stack, key, i, m).0; !(r.Err? && r.error.ValueError?)
    decreases |stack| - i
  {
    if i < |stack| {
      match Get(stack[i], key)
      case None =>
        assert MergeLoop(stack, key, i, m) == MergeLoop(stack, key, i + 1, m);
        MergeLoopNoValueError(stack, key, i + 1, m);
      case Some(rv) =>
        var step := MergeStep(m.result, rv);
        if step.Ok? {
          var s' := Rewritten(stack, m.owner, key, step.value);
          assert MergeLoop(stack, key, i, m) == MergeLoop(s', key, i + 1, Merge(step.value, m.owner));
          MergeLoopNoValueError(s', key, i + 1, Merge(step.value, m.owner));
        } else {
          assert MergeLoop(stack, key, i, m).0 == step;
        }
    }
  }

  /** `layer` stores no dict under `key`; flattened layers never do (FlattenGet). */
  predicate NoDictAt(layer: Mapping, key: string) {
    Get(layer, key).Some? ==> !Get(layer, key).value.Dict?
  }

  /** `r` is an exception or a value other than a dict. */
  predicate NoDictResult(r: Result<Value>) {
    r.Ok? ==> !r.value.Dict?
  }

  /** With no dict stored under `key` from layer `i` on and none found so
      far, the loop never holds a dict, so MergeStep's `update` branch is
      never taken. */
  lemma {:induction false} MergeLoopNoDict(stack: seq<Mapping>, key: string, i: nat, m: Merge)
    requires i <= |stack| && -1 <= m.owner < i && (m.result != Null ==> m.owner >= 0)
    requires !m.result.Dict?
    requires forall j | i <= j < |stack| :: NoDictAt(stack[j], key)
    ensures NoDictResult(MergeLoop(stack, key, i, m).0)
    decreases |stack| - i
  {
    if i < |stack| {
      match Get(stack[i], key)
      case None =>
        assert MergeLoop(stack, key, i, m) == MergeLoop(stack, key, i + 1, m);
        MergeLoopNoDict(stack, key, i + 1, m);
      case Some(rv) =>
        assert NoDictAt(stack[i], key);
        if m.result == Null {
          assert !rv.Dict?;
          assert MergeLoop(stack, key, i, m) == MergeLoop(stack, key, i + 1, Merge(rv, i));
          MergeLoopNoDict(stack, key, i + 1, Merge(rv, i));
        } else {
          var step := MergeStep(m.result, rv);
          if step.Ok? {
            assert !step.value.Dict?;
            var s' := Rewritten(stack, m.owner, key, step.value);
            RewrittenBelow(stack, m.owner, key, step.value, i + 1);
            assert MergeLoop(stack, key, i, m) == MergeLoop(s', key, i + 1, Merge(step.value, m.owner));
            MergeLoopNoDict(s', key, i + 1, Merge(step.value, m.owner));
          } else {
            assert MergeLoop(stack, key, i, m).0 == step;
          }
        }
    }
  }

  /** Rewriting layer `o` leaves the layers above it as they were. */
  lemma RewrittenBelow(stack: seq<Mapping>, o: nat, key: string, v: Value, i: nat)
    requires o < i <= |stack|
    ensures forall j | i <= j < |stack| :: Rewritten(stack, o, key, v)[j] == stack[j]
  {
  }

  /** On layers that store no dict under `key` (as flattened layers are),
      `merged_get` never answers with a dict. */
  lemma MergedGetNoDict(stack: seq<Mapping>, key: string)
    requires forall j | 0 <= j < |stack| :: NoDictAt(stack[j], key)
    ensures NoDictResult(MergedGetOf(stack, key).0)
  {
    MergeLoopNoDict(stack, key, 0, Merge(Null, -1));
  }

  /** The values after the leading `None`s, which `merged_get` passes over
      (`if result is None: result = rv`). */
  function SkipNone(vs: seq<Value>): (r: seq<Value>)
    ensures |r| <= |vs| && r == vs[|vs| - |r|..]
    ensures r == [] || r[0] != Null
    ensures forall j | 0 <= j < |vs| - |r| :: vs[j] == Null
  {
    if vs == [] || vs[0] != Null then vs else SkipNone(vs[1..])
  }

  /** `r` is the `ValueError` of `merged_get`. */
  predicate RaisesValueError(r: Result<Value>) {
    r.Err? && r.error.ValueError?
  }

  /** A first value that is neither a list nor a dict, and a later one. */
  predicate ScalarThenMore(occ: seq<Value>) {
    |occ| >= 2 && !occ[0].List? && !occ[0].Dict?
  }

  /** `merged_get` raises `ValueError` exactly when the first value that
      is not `None` is neither a list nor a dict and the key occurs again
      in a later layer. */
  lemma MergedGetValueError(stack: seq<Mapping>, key: string)
    ensures RaisesValueError(MergedGetOf(stack, key).0) <==> ScalarThenMore(SkipNone(OccurrencesFrom(stack, key, 0)))
  {
    MergeLoopNoneSoFar(stack, key, 0, Merge(Null, -1));
  }

  /** A leading `None` is passed over: `None` then a string merge to the
      string, with no `ValueError`. */
  lemma MergedGetSkipsNone(key: string)
    ensures MergedGetOf([[Entry(key, Null)], [Entry(key, Str("x"))]], key).0 == Ok(Str("x"))
  {
    var stack := [[Entry(key, Null)], [Entry(key, Str("x"))]];
    assert Get(stack[0], key) == Some(Null) && Get(stack[1], key) == Some(Str("x"));
    assert MergeLoop(stack, key, 0, Merge(Null, -1)) == MergeLoop(stack, key, 1, Merge(Null, 0));
    assert MergeLoop(stack, key, 1, Merge(Null, 0)) == MergeLoop(stack, key, 2, Merge(Str("x"), 1));
  }

  /** While only `None` has been found, the outcome is decided by the
      first later value that is not `None`. */
  lemma {:induction false} MergeLoopNoneSoFar(stack: seq<Mapping>, key: string, i: nat, m: Merge)
    requires i <= |stack| && -1 <= m.owner < i && m.result == Null
    ensures RaisesValueError(MergeLoop(stack, key, i, m).0) <==> ScalarThenMore(SkipNone(OccurrencesFrom(stack, key, i)))
    decreases |stack| - i
  {
    if i < |stack| {
      match Get(stack[i], key)
      case None =>
        assert MergeLoop(stack, key, i, m) == MergeLoop(stack, key, i + 1, m);
        assert OccurrencesFrom(stack, key, i) == OccurrencesFrom(stack, key, i + 1);
        MergeLoopNoneSoFar(stack, key, i + 1, m);
      case Some(rv) =>
        var rest := OccurrencesFrom(stack, key, i + 1);
        assert MergeLoop(stack, key, i, m) == MergeLoop(stack, key, i + 1, Merge(rv, i));
        assert OccurrencesFrom(stack, key, i) == [rv] + rest;
        if rv == Null {
          assert ([rv] + rest)[1..] == rest;
          MergeLoopNoneSoFar(stack, key, i + 1, Merge(rv, i));
        } else {
          MergeLoopFirstValue(stack, key, i + 1, Merge(rv, i));
        }
    }
  }

  /** From the first value that is not `None` on, `ValueError` is raised
      exactly when that value is a scalar and the key occurs again. */
  lemma MergeLoopFirstValue(stack: seq<Mapping>, key: string, i: nat, m: Merge)
    requires i <= |stack| && 0 <= m.owner < i && m.result != Null
    ensures RaisesValueError(MergeLoop(stack, key, i, m).0) <==> ScalarThenMore([m.result] + OccurrencesFrom(stack, key, i))
  {
    if m.result.List? || m.result.Dict? {
      MergeLoopNoValueError(stack, key, i, m);
    } else {
      ScalarFirst(stack, key, i, m);
    }
  }

  /** From a scalar `result` on, the next occurrence raises `ValueError`,
      and with none left the scalar is returned. */
  lemma {:induction false} ScalarFirst(stack: seq<Mapping>, key: string, i: nat, m: Merge)
    requires i <= |stack| && 0 <= m.owner < i && m.result != Null && !m.result.List? && !m.result.Dict?
    ensures var r := MergeLoop(stack, key, i, m).0;
      (r.Err? && r.error.ValueError?) <==> OccurrencesFrom(stack, key, i) != []
    ensures OccurrencesFrom(stack, key, i) == [] ==> MergeLoop(stack, key, i, m).0 == Ok(m.result)
    decreases |stack| - i
  {
    if i < |stack| && Get(stack[i], key).None? {
      ScalarFirst(stack, key, i + 1, m);
    }
  }

  lemma {:induction false} LastValueIn(es: seq<Entry>, k: string)
    ensures LastValue(es, k).None? <==> forall i | 0 <= i < |es| :: es[i].key != k
    ensures LastValue(es, k).Some? ==> exists i | 0 <= i < |es| :: es[i] == Entry(k, LastValue(es, k).value)
    decreases |es|
  {
    if es != [] && es[|es| - 1].key != k {
      LastValueIn(es[..|es| - 1], k);
    }
  }

  /** The flattened layer holds exactly the dotted paths of the leaves, each
      with the last leaf value written under it, and never a dict. */
  lemma FlattenGet(d: Mapping, k: string)
    ensures Get(Flatten(d), k) == LastValue(Leaves(d, ""), k)
    ensures Get(Flatten(d), k).None? <==> forall i | 0 <= i < |Leaves(d, "")| :: Leaves(d, "")[i].key != k
    ensures Get(Flatten(d), k).Some? ==> !Get(Flatten(d), k).value.Dict?
  {
    GetPutAll([], Leaves(d, ""), k);
    LastValueIn(Leaves(d, ""), k);
  }

  /** Every entry of a nested dict contributes its leaves: a non-dict value
      under its dotted path, a dict value through its own leaves. */
  lemma {:induction false} LeafIncluded(d: Mapping, prefix: string, i: nat)
    requires i < |d|
    ensures !d[i].value.Dict? ==> Entry(prefix + d[i].key, d[i].value) in Leaves(d, prefix)
    ensures d[i].value.Dict? ==> forall e | e in Leaves(d[i].value.entries, prefix + d[i].key + ".") :: e in Leaves(d, prefix)
    decreases |d|
  {
    if i < |d| - 1 {
      LeafIncluded(d[..|d| - 1], prefix, i);
    }
  }

  // ---------------------------------------------------------------------------
  // The configuration object

  class Config {
    var stack: seq<Layer>

    constructor ()
      ensures stack == []
    {
      stack := [];
    }

    /** Every layer appears once and is a proper dict. */
    ghost predicate Valid()
      reads this, stack
    {
      && (forall i, j | 0 <= i < j < |stack| :: stack[i] != stack[j])
      && (forall i | 0 <= i < |stack| :: UniqueKeys(stack[i].entries))
    }

    function Layers(): seq<Mapping>
      reads this, stack
    {
      Snapshot(stack)
    }

    /** `config[key]`: the nearest layer's value, or `KeyError`. */
    function GetItem(key: string): (r: Result<Value>)
      reads this, stack
      ensures r.Err? <==> forall i | 0 <= i < |stack| :: key !in Keys(stack[i].entries)
      ensures r.Err? ==> r.error == KeyError(Str(key))
      ensures r.Ok? ==> Lookup(Layers(), key) == Some(r.value)
    {
      assert forall i | 0 <= i < |stack| :: Layers()[i] == stack[i].entries;
      LookupNearest(Layers(), key);
      match Lookup(Layers(), key)
      case Some(v) => Ok(v)
      case None => Err(KeyError(Str(key)))
    }

    /** `config.get(key, default)`: the `KeyError` becomes the default. */
    function Get(key: string, default: Value): (r: Value)
      reads this, stack
      ensures GetItem(key).Err? ==> r == default
      ensures GetItem(key).Ok? ==> r == GetItem(key).value
      ensures r == GetOf(Layers(), key, default)
    {
      match GetItem(key)
      case Ok(v) => v
      case Err(_) => default
    }

    /** `root_get(key, default)`: the first layer only, `None` on an empty stack. */
    function RootGet(key: string, default: Value): (r: Value)
      reads this, stack
      ensures stack == [] ==> r == Null
      ensures stack != [] && key in Keys(stack[0].entries) ==> Values.Get(stack[0].entries, key) == Some(r)
      ensures stack != [] && key !in Keys(stack[0].entries) ==> r == default
    {
      assert stack != [] ==> Layers()[0] == stack[0].entries;
      assert stack != [] ==> RootGetOf(Layers(), key, default) == GetOr(stack[0].entries, key, default);
      RootGetOf(Layers(), key, default)
    }

    /** `list_entries(key)`. */
    method ListEntries(key: string) returns (rv: Mapping)
      ensures rv == ListEntriesOf(Layers(), key)
    {
      ghost var layers := Layers();
      rv := [];
      var prefix := key + ".";
      for i := 0 to |stack|
        invariant rv == ListEntriesOf(layers[..i], key)
      {
        rv := PutPrefixed(rv, stack[i].entries, prefix);
        assert layers[..i + 1][..i] == layers[..i];
      }
      assert layers[..|stack|] == layers;
    }

    /** The inner loop of `list_entries`: a layer's `prefix`ed entries, in
        order, written into `rv`. */
    static method PutPrefixed(rv: Mapping, layer: Mapping, prefix: string) returns (r: Mapping)
      ensures r == PutAll(rv, WithPrefix(layer, prefix))
    {
      r := rv;
      for j := 0 to |layer|
        invariant r == PutAll(rv, WithPrefix(layer[..j], prefix))
      {
        assert layer[..j + 1][..j] == layer[..j];
        PutAllAppend(rv, WithPrefix(layer[..j], prefix), if StartsWith(layer[j].key, prefix) then [layer[j]] else []);
        if StartsWith(layer[j].key, prefix) {
          r := Put(r, layer[j].key, layer[j].value);
        }
      }
      assert layer[..|layer|] == layer;
    }

    /** `merged_get(key)`: `None` if no layer holds the key, else the first
        value found, extended (a list) or updated (a dict) in place by every
        later occurrence. The owning layer keeps the mutated value. */
    method MergedGet(key: string) returns (r: Result<Value>)
      requires Valid()
      modifies stack
      ensures Valid()
      ensures (r, Layers()) == MergedGetOf(old(Layers()), key)
    {
      var result := Null;
      var owner := -1;
      for i := 0 to |stack|
        invariant -1 <= owner < i && (result != Null ==> owner >= 0)
        invariant Valid()
        invariant MergeLoop(Layers(), key, i, Merge(result, owner)) == MergedGetOf(old(Layers()), key)
      {
        ghost var snap, m := Layers(), Merge(result, owner);
        assert snap[i] == stack[i].entries;
        var rv := Values.Get(stack[i].entries, key);
        if rv.None? {
          assert MergeLoop(snap, key, i, m) == MergeLoop(snap, key, i + 1, m);
        } else if result == Null {
          result, owner := rv.value, i;
          assert MergeLoop(snap, key, i, m) == MergeLoop(snap, key, i + 1, Merge(result, owner));
        } else {
          var step := MergeStep(result, rv.value);
          if step.Err? {
            assert MergeLoop(snap, key, i, m) == (Err(step.error), snap);
            return Err(step.error);
          }
          result := step.value;
          Rewrite(owner, key, result);
          assert MergeLoop(snap, key, i, m) == MergeLoop(Layers(), key, i + 1, Merge(result, owner));
        }
      }
      r := Ok(result);
    }

    /** The owning layer's value under `key` becomes `v` (the in-place
        `extend`/`update` of `merged_get`); no other layer changes. */
    method Rewrite(owner: nat, key: string, v: Value)
      requires Valid() && owner < |stack|
      modifies stack[owner]
      ensures Valid()
      ensures Layers() == Rewritten(old(Layers()), owner, key, v)
    {
      PutUnique(stack[owner].entries, key, v);
      stack[owner].entries := Put(stack[owner].entries, key, v);
    }

    /** `add_from_dict(cfg)`: a new config whose stack is this one's plus one
        fresh layer holding the flattened `cfg`; this config is not touched. */
    method AddFromDict(cfg: Mapping) returns (rv: Config)
      ensures fresh(rv) && |rv.stack| == |stack| + 1 && fresh(rv.stack[|stack|])
      ensures rv.stack == stack + [rv.stack[|stack|]]
      ensures rv.stack[|stack|].entries == Flatten(cfg)
      ensures old(Valid()) ==> rv.Valid()
      ensures rv.Layers() == old(Layers()) + [Flatten(cfg)]
    {
      ghost var before := Layers();
      var entries := Walk(cfg, "", []);
      PutAllUnique([], Leaves(cfg, ""));
      var layer := new Layer(entries);
      rv := new Config();
      rv.stack := stack + [layer];
      assert rv.Layers() == before + [Flatten(cfg)];
    }

    /** `add_from_file(filename)` given what `yaml.safe_load` made of the file:
        nothing for an empty document, `ValueError` for a non-dict. */
    method AddFromFile(loaded: Result<Value>) returns (r: Result<Option<Config>>)
      requires Valid()
      ensures loaded.Err? ==> r == Err(loaded.error)
      ensures loaded.Ok? && !Truthy(loaded.value) ==> r == Ok(None)
      ensures loaded.Ok? && Truthy(loaded.value) && !loaded.value.Dict? ==> r == Err(ValueError("Configuration has to contain a dict"))
      ensures loaded.Ok? && Truthy(loaded.value) && loaded.value.Dict? ==>
        && r.Ok? && r.value.Some?
        && fresh(r.value.value) && r.value.value.Valid()
        && |r.value.value.stack| == |stack| + 1
        && r.value.value.stack == stack + [r.value.value.stack[|stack|]]
        && r.value.value.stack[|stack|].entries == Flatten(loaded.value.entries)
        && fresh(r.value.value.stack[|stack|])
        && r.value.value.Layers() == Layers() + [Flatten(loaded.value.entries)]
    {
      if loaded.Err? {
        return Err(loaded.error);
      }
      var d := loaded.value;
      if !Truthy(d) {
        return Ok(None);
      }
      if !d.Dict? {
        return Err(ValueError("Configuration has to contain a dict"));
      }
      var c := AddFromDict(d.entries);
      return Ok(Some(c));
    }

    /** `pop()`: drops the newest layer; `IndexError` on an empty stack. */
    method Pop() returns (err: Option<Error>)
      modifies this
      ensures old(stack) == [] ==> err.Some? && err.value.IndexError? && stack == []
      ensures old(stack) != [] ==> err.None? && stack == old(stack)[..|old(stack)| - 1]
    {
      if stack == [] {
        return Some(IndexError("pop from empty list"));
      }
      stack := stack[..|stack| - 1];
      return None;
    }
  }
}
