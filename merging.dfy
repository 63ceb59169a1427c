/** The merge rules of `Mergable`, `MergableDict` and `MergableList`, stated as
    functions over values. A merge may stop with an error after it has already
    changed part of the tree, as the Python code does when an exception leaves
    a half-updated node behind, so each merge yields an `Outcome`: the tree as
    it then stands and the error, if one was raised. */
module Merging {
  import opened Values
  import opened Conversion

  datatype Outcome = Outcome(tree: Py, err: Option<Error>)

  /** `can_merge`: a mapping node accepts exactly the dictionaries (and never
      None); a sequence node accepts any true object that has `__iter__`,
      dictionaries and strings included. */
  predicate CanMerge(t: Py, data: Py)
    requires IsNode(t)
    ensures CanMerge(t, data) ==> data != PNone && HasIterAttr(data)
  {
    if t.NDict? then data != PNone && IsDict(data)
    else Truthy(data) && HasIterAttr(data)
  }

  /** `MergableList._merge`: `del self[:]` then `self.extend(data)`. The source
      elements are stored as they are, without conversion. If `data` cannot be
      iterated, `extend` raises after the list was already emptied. */
  function ListMerge(t: Py, data: Py): (o: Outcome)
    requires t.NList?
    ensures o.tree.NList? && o.tree.ctx == t.ctx
    ensures o.err.None? <==> Iteration(data).Some?
    ensures o.err.None? ==> o.tree.items == Iteration(data).value
    ensures o.err.Some? ==> o.tree.items == [] && o.err == Some(NotIterable)
  {
    match Iteration(data)
    case Some(xs) => Outcome(NList(xs, t.ctx), None)
    case None => Outcome(NList([], t.ctx), Some(NotIterable))
  }

  /** `self[k] = x` on a mapping node: an existing key keeps its position, a
      new key goes to the end. */
  function Put(t: Py, k: string, x: Py): (r: Py)
    requires t.NDict?
    ensures r.NDict? && r.ctx == t.ctx && k in r.vals && r.vals[k] == x
    ensures r.vals.Keys == t.vals.Keys + {k}
    ensures forall j :: j in t.vals && j != k ==> r.vals[j] == t.vals[j]
    ensures r.keys == if k in t.vals then t.keys else t.keys + [k]
  {
    NDict(if k in t.vals then t.keys else t.keys + [k], t.vals[k := x], t.ctx)
  }

  /** The value a mapping node `t` ends up holding at key `k` after one pass
      of its merge loop with source value `v`: a node already there that can
      absorb `v` is merged in place (which may fail), anything else is
      replaced by the copy or conversion of `v`. */
  function MergeSlot(t: Py, k: string, v: Py, load: Loader): (o: Outcome)
    requires t.NDict? && WF(v)
    ensures o.err.Some? ==> k in t.vals && IsNode(t.vals[k]) && CanMerge(t.vals[k], v)
    ensures IsNode(o.tree) || !IsIterable(o.tree)
    decreases 0, v, 3, 0
  {
    if k in t.vals && IsNode(t.vals[k]) && CanMerge(t.vals[k], v) then
      MergeOne(t.vals[k], v, load)
    else
      Outcome(Replacement(v, t.ctx), None)
  }

  /** `MergableDict._merge`, from the `i`-th key of the source on: the keys
      are visited in the source's order and the first error stops the loop. */
  function DictMergeFrom(t: Py, data: Py, i: nat, load: Loader): (o: Outcome)
    requires t.NDict? && IsDict(data) && WF(data) && i <= |data.keys|
    ensures o.tree.NDict? && o.tree.ctx == t.ctx
    ensures t.keys <= o.tree.keys
    decreases 0, data, 1, |data.keys| - i
  {
    if i == |data.keys| then Outcome(t, None)
    else
      var k := data.keys[i];
      var o := MergeSlot(t, k, data.vals[k], load);
      var t' := Put(t, k, o.tree);
      if o.err.Some? then Outcome(t', o.err) else DictMergeFrom(t', data, i + 1, load)
  }

  /** `Mergable.merge` with one source: text is loaded first, with the node's
      context, and skipped when it loads to a false value; then a source the
      node cannot absorb raises `TypeError`, and otherwise the node's own
      `_merge` runs. */
  function MergeOne(t: Py, data: Py, load: Loader): (o: Outcome)
    requires IsNode(t) && WF(data)
    ensures IsNode(o.tree) && o.tree.NDict? == t.NDict? && o.tree.ctx == t.ctx
    decreases if data.PStr? && t.NDict? then 1 else 0, data, 2, 0
  {
    var to := if data.PStr? then load(data.s, t.ctx) else data;
    if data.PStr? && !Truthy(to) then Outcome(t, None)
    else if !CanMerge(t, to) then Outcome(t, Some(CannotMerge))
    else if t.NList? then ListMerge(t, to)
    else DictMergeFrom(t, to, 0, load)
  }

  /** `Mergable.merge(*args)`: the sources in order; the first error ends it. */
  function MergeAll(t: Py, sources: seq<Py>, load: Loader): (o: Outcome)
    requires IsNode(t) && forall i :: 0 <= i < |sources| ==> WF(sources[i])
    ensures IsNode(o.tree) && o.tree.NDict? == t.NDict? && o.tree.ctx == t.ctx
    decreases |sources|
  {
    if sources == [] then Outcome(t, None)
    else
      var o := MergeOne(t, sources[0], load);
      if o.err.Some? then o else MergeAll(o.tree, sources[1..], load)
  }

  /** A node with no content: what `MergableDict(context=ctx)` or
      `MergableList(context=ctx)` starts from. */
  function Empty(mapping: bool, ctx: Context): (r: Py)
    ensures IsNode(r) && r.NDict? == mapping && r.ctx == ctx && !Truthy(r)
  {
    if mapping then NDict([], map[], ctx) else NList([], ctx)
  }

  /** `Mergable.__init__(data, context)`: an empty node, then `merge(data)`
      when `data` is true. */
  function Construct(mapping: bool, data: Py, ctx: Context, load: Loader): (o: Outcome)
    requires WF(data)
    ensures IsNode(o.tree) && o.tree.NDict? == mapping && o.tree.ctx == ctx
  {
    if Truthy(data) then MergeOne(Empty(mapping, ctx), data, load)
    else Outcome(Empty(mapping, ctx), None)
  }

  /** `_ensure_namespaces(*path)` called on the value `t`: walks the path one
      key at a time, inserting an empty mapping node with the parent's context
      for each missing key. It yields `t` as it then stands (insertions made
      before a failure stay, as they do in the Python objects) together with
      the value found at the end of the path or the error raised. A value that
      is not a node has no such helper; a sequence node cannot take a string
      key. */
  function EnsureNamespaces(t: Py, path: seq<string>): (r: (Py, Result<Py, Error>))
    ensures IsNode(t) ==> IsNode(r.0) && r.0.NDict? == t.NDict? && r.0.ctx == t.ctx
    ensures !IsNode(t) ==> r == (t, Err(NoAttribute))
    ensures r.1.Ok? ==> IsNode(r.1.value)
    decreases |path|
  {
    if !IsNode(t) then (t, Err(NoAttribute))
    else if path == [] then (t, Ok(t))
    else if t.NList? then
      (t, if PStr(path[0]) in t.items then Err(NoAttribute) else Err(ListIndexNotInt))
    else
      var ns := path[0];
      var t1 := if ns in t.vals then t else Put(t, ns, Empty(true, t.ctx));
      var r := EnsureNamespaces(t1.vals[ns], path[1..]);
      (Put(t1, ns, r.0), r.1)
  }

  /** `MergableDict.__getattr__`: the value under the literal key, or
      `ConfigKeyError`. No dotted-path interpretation. */
  function GetAttr(t: Py, key: string): (r: Result<Py, Error>)
    requires t.NDict?
    ensures r.Ok? <==> key in t.vals
    ensures r.Ok? ==> r.value == t.vals[key]
    ensures r.Err? ==> r.error == ConfigKeyError(key)
  {
    if key in t.vals then Ok(t.vals[key]) else Err(ConfigKeyError(key))
  }

  /** The value reached from `t` by following `path` through mapping nodes. */
  function Walk(t: Py, path: seq<string>): (r: Option<Py>)
    decreases |path|
  {
    if path == [] then Some(t)
    else if t.NDict? && path[0] in t.vals then Walk(t.vals[path[0]], path[1..])
    else None
  }

  /** The keys of `ks`, in order, that are not in `present`. */
  function NewKeys(present: set<string>, ks: seq<string>): (r: seq<string>)
  {
    if ks == [] then []
    else (if ks[0] in present then [] else [ks[0]]) + NewKeys(present, ks[1..])
  }
}
