/** A configuration node as the Python object it is: a `MergableDict` (or
    `Root`, or a namespace) when `mapping` holds, a `MergableList` otherwise.
    Its merge methods update its fields in place, step by step, as the Python
    methods do, and each is proved to leave the node exactly as the
    corresponding function of `Merging` says. The values stored inside the
    node are values: a nested node is merged through those functions. */
module Config {
  import opened Values
  import opened Merging
  import opened MergeLaws

  class Node {
    /** Which of the two node classes this object is. */
    const mapping: bool
    /** The mapping node's keys in insertion order, and its entries. */
    var keys: seq<string>
    var entries: map<string, Py>
    /** The sequence node's elements. */
    var items: seq<Py>
    /** The substitution variables handed to the text loader. */
    const context: Context

    /** The node as a value. */
    function Tree(): (r: Py)
      reads this
      ensures IsNode(r) && r.NDict? == mapping && r.ctx == context
    {
      if mapping then NDict(keys, entries, context) else NList(items, context)
    }

    /** A mapping node is an ordered dictionary: distinct keys, exactly the
        keys of its entries. */
    ghost predicate Valid()
      reads this
    {
      mapping ==> DictShape(keys, entries)
    }

    /** `MergableDict(context=ctx)` / `MergableList(context=ctx)` with no
        data: an empty node. */
    constructor (mapping: bool, context: Context)
      ensures this.mapping == mapping && this.context == context
      ensures Tree() == Empty(mapping, context) && Valid()
    {
      this.mapping := mapping;
      this.context := context;
      keys := [];
      entries := map[];
      items := [];
    }

    /** `Mergable.__init__(data, context)`: an empty node of the requested
        kind, then `merge(data)` when `data` is true. A `TypeError` raised by
        that merge is returned beside the half-built node. */
    static method New(mapping: bool, data: Py, context: Context, load: Loader) returns (node: Node, err: Option<Error>)
      requires WF(data)
      ensures fresh(node) && node.mapping == mapping && node.Valid()
      ensures Outcome(node.Tree(), err) == Construct(mapping, data, context, load)
    {
      node := new Node(mapping, context);
      err := None;
      if Truthy(data) {
        err := node.Merge([data], load);
        MergeAllSingle(Empty(mapping, context), data, load);
      }
    }

    /** `self[k] = x` on a mapping node: an existing key keeps its position, a
        new key goes to the end. */
    method SetItem(k: string, x: Py)
      requires mapping
      modifies this
      ensures Tree() == Put(old(Tree()), k, x)
      ensures old(Valid()) ==> Valid()
      ensures items == old(items)
    {
      PutShapeIfValid(k, x);
      if k !in entries {
        keys := keys + [k];
      }
      entries := entries[k := x];
    }

    lemma PutShapeIfValid(k: string, x: Py)
      requires mapping
      ensures Valid() ==> DictShape(Put(Tree(), k, x).keys, Put(Tree(), k, x).vals)
    {
      if Valid() {
        PutShape(Tree(), k, x);
      }
    }

    /** `Mergable.merge(*sources)`: the sources in order. Text is loaded with
        the node's context and skipped when it loads to a false value; a source
        `can_merge` rejects raises `TypeError`; otherwise the node's own
        `_merge` runs, and an error it raises ends the merge. */
    method Merge(sources: seq<Py>, load: Loader) returns (err: Option<Error>)
      requires forall i :: 0 <= i < |sources| ==> WF(sources[i])
      modifies this
      ensures Outcome(Tree(), err) == MergeAll(old(Tree()), sources, load)
      ensures old(Valid()) ==> Valid()
    {
      var i := 0;
      err := None;
      while i < |sources|
        invariant 0 <= i <= |sources| && err.None?
        invariant old(Valid()) ==> Valid()
        invariant MergeAll(old(Tree()), sources, load) == MergeAll(Tree(), sources[i..], load)
      {
        var data := sources[i];
        ghost var before := Tree();
        ghost var step := MergeOne(before, data, load);
        assert sources[i..][0] == data && sources[i..][1..] == sources[i + 1..];
        assert MergeAll(before, sources[i..], load) ==
          if step.err.Some? then step else MergeAll(step.tree, sources[i + 1..], load);
        var toMerge := data;
        if data.PStr? {
          toMerge := load(data.s, context);
          if !Truthy(toMerge) {
            assert step == Outcome(before, None);
            i := i + 1;
            continue;
          }
        }
        if !CanMerge(Tree(), toMerge) {
          assert step == Outcome(before, Some(CannotMerge));
          return Some(CannotMerge);
        }
        if mapping {
          assert step == DictMergeFrom(before, toMerge, 0, load);
          err := MergeMapping(toMerge, load);
        } else {
          assert step == ListMerge(before, toMerge);
          err := MergeSequence(toMerge);
        }
        assert step == Outcome(Tree(), err);
        if err.Some? {
          return;
        }
        i := i + 1;
      }
    }

    /** `MergableDict._merge(data)`: the source keys in order. A node already
        under the key that can absorb the value is merged in place; anything
        else is replaced by the copy or conversion of the value. An error in a
        nested merge ends the loop, keeping what was done so far. */
    method MergeMapping(data: Py, load: Loader) returns (err: Option<Error>)
      requires mapping && IsDict(data) && WF(data)
      modifies this
      ensures Outcome(Tree(), err) == DictMergeFrom(old(Tree()), data, 0, load)
      ensures old(Valid()) ==> Valid()
    {
      var ks := data.keys;
      var i := 0;
      while i < |ks|
        invariant 0 <= i <= |ks|
        invariant old(Valid()) ==> Valid()
        invariant DictMergeFrom(old(Tree()), data, 0, load) == DictMergeFrom(Tree(), data, i, load)
      {
        var k := ks[i];
        var v := data.vals[k];
        ghost var before := Tree();
        DictMergeStep(before, data, i, load);
        SlotCases(before, k, v, load);
        if k in entries && IsNode(entries[k]) && CanMerge(entries[k], v) {
          var o := MergeOne(entries[k], v, load);
          SetItem(k, o.tree);
          if o.err.Some? {
            return o.err;
          }
        } else {
          SetItem(k, Conversion.Replacement(v, context));
        }
        i := i + 1;
      }
      return None;
    }

    /** `MergableList._merge(data)`: `del self[:]`, then `extend(data)`, which
        raises on a value that cannot be iterated after the list was emptied. */
    method MergeSequence(data: Py) returns (err: Option<Error>)
      requires !mapping
      modifies this
      ensures Outcome(Tree(), err) == ListMerge(old(Tree()), data)
      ensures Valid()
    {
      items := [];
      match Iteration(data)
      case None =>
        err := Some(NotIterable);
      case Some(xs) =>
        items := items + xs;
        err := None;
    }

    /** `_ensure_namespaces(*path)` on this node: a missing first segment is
        inserted here as an empty namespace, and the rest of the path is
        followed in the value stored under it. */
    method EnsureNamespaces(path: seq<string>) returns (r: Result<Py, Error>)
      modifies this
      ensures (Tree(), r) == Merging.EnsureNamespaces(old(Tree()), path)
      ensures old(Valid()) ==> Valid()
    {
      if path == [] {
        return Ok(Tree());
      }
      if !mapping {
        r := if PStr(path[0]) in items then Err(NoAttribute) else Err(ListIndexNotInt);
        return;
      }
      var ns := path[0];
      if ns !in entries {
        SetItem(ns, Empty(true, context));
      }
      var res := Merging.EnsureNamespaces(entries[ns], path[1..]);
      SetItem(ns, res.0);
      r := res.1;
    }

    /** `MergableDict.__getattr__(key)`: the entry under the literal key, or
        `ConfigKeyError`. */
    method GetAttribute(key: string) returns (r: Result<Py, Error>)
      requires mapping
      ensures r.Ok? <==> key in entries
      ensures r.Ok? ==> r.value == entries[key]
      ensures r.Err? ==> r.error == ConfigKeyError(key)
    {
      if key in entries {
        r := Ok(entries[key]);
      } else {
        r := Err(ConfigKeyError(key));
      }
    }

    /** `copy()`: a new node of the same kind, with equal contents and the
        same context. */
    method Copy() returns (c: Node)
      ensures fresh(c) && c.mapping == mapping && c.Tree() == Tree()
      ensures Valid() ==> c.Valid()
    {
      c := new Node(mapping, context);
      c.keys := keys;
      c.entries := entries;
      c.items := items;
    }
  }

  /** `t2 = t1.copy(); t2.merge(...)`: the copy is a separate object, so
      merging into it leaves the original as it was, and the copy ends as the
      merge of the original's contents. */
  method CopyThenMerge(t: Node, sources: seq<Py>, load: Loader) returns (c: Node, err: Option<Error>)
    requires forall i :: 0 <= i < |sources| ==> WF(sources[i])
    ensures fresh(c) && t.Tree() == old(t.Tree())
    ensures Outcome(c.Tree(), err) == MergeAll(t.Tree(), sources, load)
  {
    c := t.Copy();
    err := c.Merge(sources, load);
  }
}
