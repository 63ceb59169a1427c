/** Properties of the merge rules: shape checks, list replacement, additive and
    order-preserving mapping merge, the left-to-right driver, and agreement of
    the conversion layer with building a node by merging. */
module MergeLaws {
  import opened Values
  import opened Conversion
  import opened Merging

  // ---------------------------------------------------------------- shapes

  /** A mapping node absorbs exactly the dictionaries; None is rejected. */
  lemma CanMergeMapping(t: Py, data: Py)
    requires t.NDict?
    ensures CanMerge(t, data) <==> IsDict(data)
    ensures !CanMerge(t, PNone)
  {
  }

  /** A sequence node rejects every false value, and accepts every true value
      that has `__iter__`: non-empty dictionaries and strings as well as lists. */
  lemma CanMergeSequence(t: Py, data: Py)
    requires t.NList?
    ensures !Truthy(data) ==> !CanMerge(t, data)
    ensures CanMerge(t, data) <==> Truthy(data) && HasIterAttr(data)
    ensures IsDict(data) && Truthy(data) ==> CanMerge(t, data)
    ensures data.PStr? && data.s != [] ==> CanMerge(t, data)
  {
  }

  /** `merge` raises `TypeError`, leaving the node as it was, when the node
      cannot absorb the normalised source (text loaded with the node's
      context, anything else as given); when it can, the node's own merge
      runs on it instead. Text that loads to a false value is skipped before
      `can_merge` is asked. */
  lemma MergeRejectsShape(t: Py, data: Py, load: Loader)
    requires IsNode(t) && WF(data)
    ensures var to := if data.PStr? then load(data.s, t.ctx) else data;
      !(data.PStr? && !Truthy(to)) ==>
      && (!CanMerge(t, to) ==> MergeOne(t, data, load) == Outcome(t, Some(CannotMerge)))
      && (CanMerge(t, to) && t.NList? ==> MergeOne(t, data, load) == ListMerge(t, to))
      && (CanMerge(t, to) && t.NDict? ==> MergeOne(t, data, load) == DictMergeFrom(t, to, 0, load))
  {
  }

  /** A text source is loaded with the node's context: when it loads to a
      false value (empty text, an empty document) it is skipped without error
      or change; when it loads to other data that is not text the data is
      merged as if it had been given; when it loads to non-empty text, a
      mapping node rejects it with `TypeError` and a sequence node takes its
      characters. */
  lemma TextSource(t: Py, s: string, load: Loader)
    requires IsNode(t)
    ensures !Truthy(load(s, t.ctx)) ==> MergeOne(t, PStr(s), load) == Outcome(t, None)
    ensures Truthy(load(s, t.ctx)) && !load(s, t.ctx).PStr? ==>
      MergeOne(t, PStr(s), load) == MergeOne(t, load(s, t.ctx), load)
    ensures Truthy(load(s, t.ctx)) && load(s, t.ctx).PStr? ==>
      MergeOne(t, PStr(s), load) ==
        if t.NDict? then Outcome(t, Some(CannotMerge))
        else Outcome(NList(Iteration(load(s, t.ctx)).value, t.ctx), None)
    ensures Truthy(load(s, t.ctx)) && load(s, t.ctx).PStr? && t.NList? ==>
      |MergeOne(t, PStr(s), load).tree.items| == |load(s, t.ctx).s|
  {
  }

  // ----------------------------------------------------------- list merge

  /** Merging into a sequence node replaces, never appends: the node then
      holds exactly the source's elements in order, whatever it held before. */
  lemma {:induction false} ListMergeReplaces(t: Py, data: Py, load: Loader)
    requires t.NList? && IsList(data) && WF(data) && data.items != []
    ensures MergeOne(t, data, load) == Outcome(NList(data.items, t.ctx), None)
    ensures |MergeOne(t, data, load).tree.items| == |data.items|
  {
  }

  /** As written, a sequence node merged with a dictionary becomes the list of
      that dictionary's keys. */
  lemma ListMergeTakesDictKeys(t: Py, data: Py, load: Loader)
    requires t.NList? && IsDict(data) && WF(data) && data.keys != []
    ensures MergeOne(t, data, load).err.None?
    ensures |MergeOne(t, data, load).tree.items| == |data.keys|
    ensures forall i :: 0 <= i < |data.keys| ==> MergeOne(t, data, load).tree.items[i] == PStr(data.keys[i])
  {
  }

  /** A class object whose class defines `__iter__` passes the sequence
      node's `can_merge`, but `extend` then fails on it: the node is left
      empty and `TypeError` is raised. */
  lemma ListMergeClassObject(t: Py, name: string, load: Loader)
    requires t.NList?
    ensures CanMerge(t, PType(name, true))
    ensures MergeOne(t, PType(name, true), load) == Outcome(NList([], t.ctx), Some(NotIterable))
  {
  }

  // -------------------------------------------------------- mapping merge

  /** `Put` keeps the dictionary shape. */
  lemma PutShape(t: Py, k: string, x: Py)
    requires t.NDict? && DictShape(t.keys, t.vals)
    ensures DictShape(Put(t, k, x).keys, Put(t, k, x).vals)
  {
  }

  /** One pass of the merge loop only looks at the key's own entry and the
      node's context. */
  lemma SlotLocal(s: Py, s': Py, k: string, v: Py, load: Loader)
    requires s.NDict? && s'.NDict? && WF(v) && s.ctx == s'.ctx
    requires (k in s.vals) == (k in s'.vals)
    requires k in s.vals ==> s.vals[k] == s'.vals[k]
    ensures MergeSlot(s, k, v, load) == MergeSlot(s', k, v, load)
  {
  }

  /** A source key is not among the keys after it. */
  lemma SuffixStep(ks: seq<string>, i: nat)
    requires i < |ks| && forall a, b :: 0 <= a < b < |ks| ==> ks[a] != ks[b]
    ensures ks[i..] == [ks[i]] + ks[i + 1..]
    ensures ks[i] !in ks[i + 1..]
  {
    assert ks[i..] == [ks[i]] + ks[i + 1..];
    var rest := ks[i + 1..];
    forall j | 0 <= j < |rest| ensures rest[j] != ks[i] {
      assert rest[j] == ks[i + 1 + j];
    }
  }

  /** The mapping merge, from the `i`-th source key on, never removes a key
      and adds only source keys. Keys it does not visit keep their values.
      When it succeeds, each visited key holds what one pass of the loop
      computes from the key's ORIGINAL entry: visiting other keys first makes
      no difference. */
  lemma {:induction false} DictMergeFromValues(s: Py, d: Py, i: nat, load: Loader)
    requires s.NDict? && IsDict(d) && WF(d) && i <= |d.keys|
    ensures var o := DictMergeFrom(s, d, i, load);
      && (forall k :: k in s.vals ==> k in o.tree.vals)
      && (forall k :: k in o.tree.vals ==> k in s.vals || k in d.vals)
      && (forall k :: k in s.vals && k !in d.keys[i..] ==> o.tree.vals[k] == s.vals[k])
      && (o.err.None? ==> forall j :: i <= j < |d.keys| ==>
            d.keys[j] in o.tree.vals &&
            MergeSlot(s, d.keys[j], d.vals[d.keys[j]], load) == Outcome(o.tree.vals[d.keys[j]], None))
    decreases |d.keys| - i
  {
    if i < |d.keys| {
      var k := d.keys[i];
      var slot := MergeSlot(s, k, d.vals[k], load);
      var s' := Put(s, k, slot.tree);
      SuffixStep(d.keys, i);
      DictMergeStep(s, d, i, load);
      if slot.err.None? {
        DictMergeFromValues(s', d, i + 1, load);
        forall j | i + 1 <= j < |d.keys|
          ensures MergeSlot(s, d.keys[j], d.vals[d.keys[j]], load) == MergeSlot(s', d.keys[j], d.vals[d.keys[j]], load)
        {
          assert d.keys[j] != k;
          SlotLocal(s, s', d.keys[j], d.vals[d.keys[j]], load);
        }
      }
    }
  }

  /** The whole mapping merge is additive: every source key is present
      afterwards and keys missing from the source keep their values; no other
      key appears. On success each source key holds the merge of its original
      entry with the source value. */
  lemma DictMergeAdditive(t: Py, d: Py, load: Loader)
    requires t.NDict? && IsDict(d) && WF(d)
    ensures var o := DictMergeFrom(t, d, 0, load);
      && (forall k :: k in t.vals ==> k in o.tree.vals)
      && (forall k :: k in o.tree.vals ==> k in t.vals || k in d.vals)
      && (o.err.None? ==> forall k :: k in d.vals ==> k in o.tree.vals)
      && (forall k :: k in t.vals && k !in d.vals ==> o.tree.vals[k] == t.vals[k])
      && (o.err.None? ==> forall k :: k in d.vals ==>
            k in o.tree.vals && MergeSlot(t, k, d.vals[k], load) == Outcome(o.tree.vals[k], None))
  {
    DictMergeFromValues(t, d, 0, load);
    var o := DictMergeFrom(t, d, 0, load);
    assert d.keys[0..] == d.keys;
    if o.err.None? {
      forall k | k in d.vals
        ensures k in o.tree.vals && MergeSlot(t, k, d.vals[k], load) == Outcome(o.tree.vals[k], None)
      {
        var j :| 0 <= j < |d.keys| && d.keys[j] == k;
      }
    }
  }

  lemma NewKeysIgnores(present: set<string>, x: string, ks: seq<string>)
    requires x !in ks
    ensures NewKeys(present + {x}, ks) == NewKeys(present, ks)
  {
    if ks != [] {
      NewKeysIgnores(present, x, ks[1..]);
    }
  }

  /** A source key is appended when it is new, and then counts as
      present. */
  lemma NewKeysStep(present: set<string>, keys: seq<string>, k: string, rest: seq<string>)
    requires k !in rest
    ensures keys + NewKeys(present, [k] + rest) ==
      (if k in present then keys else keys + [k]) + NewKeys(present + {k}, rest)
  {
    var ks := [k] + rest;
    assert ks[0] == k && ks[1..] == rest;
    var tail := NewKeys(present, rest);
    assert NewKeys(present, ks) == (if k in present then [] else [k]) + tail;
    NewKeysIgnores(present, k, rest);
    if k in present {
      assert present + {k} == present;
      assert [] + tail == tail;
    } else {
      assert keys + ([k] + tail) == keys + [k] + tail;
    }
  }

  /** The two branches of one pass of the loop. */
  lemma SlotCases(s: Py, k: string, v: Py, load: Loader)
    requires s.NDict? && WF(v)
    ensures k in s.vals && IsNode(s.vals[k]) && CanMerge(s.vals[k], v) ==>
      MergeSlot(s, k, v, load) == MergeOne(s.vals[k], v, load)
    ensures !(k in s.vals && IsNode(s.vals[k]) && CanMerge(s.vals[k], v)) ==>
      MergeSlot(s, k, v, load) == Outcome(Replacement(v, s.ctx), None)
  {
  }

  /** One pass of the mapping merge loop. */
  lemma DictMergeStep(s: Py, d: Py, i: nat, load: Loader)
    requires s.NDict? && IsDict(d) && WF(d) && i < |d.keys|
    ensures var k := d.keys[i];
      var slot := MergeSlot(s, k, d.vals[k], load);
      DictMergeFrom(s, d, i, load) ==
        if slot.err.Some? then Outcome(Put(s, k, slot.tree), slot.err)
        else DictMergeFrom(Put(s, k, slot.tree), d, i + 1, load)
  {
  }

  /** Insertion order: existing keys keep their positions and the source's
      new keys are appended after them, in the source's order. */
  lemma {:induction false} DictMergeFromOrder(s: Py, d: Py, i: nat, load: Loader)
    requires s.NDict? && IsDict(d) && WF(d) && i <= |d.keys|
    ensures DictMergeFrom(s, d, i, load).err.None? ==>
      DictMergeFrom(s, d, i, load).tree.keys == s.keys + NewKeys(s.vals.Keys, d.keys[i..])
    decreases |d.keys| - i
  {
    if i == |d.keys| {
      assert d.keys[i..] == [];
    } else {
      var k := d.keys[i];
      var slot := MergeSlot(s, k, d.vals[k], load);
      var s' := Put(s, k, slot.tree);
      SuffixStep(d.keys, i);
      DictMergeStep(s, d, i, load);
      if slot.err.None? {
        DictMergeFromOrder(s', d, i + 1, load);
        NewKeysStep(s.vals.Keys, s.keys, k, d.keys[i + 1..]);
      }
    }
  }

  /** The mapping merge keeps the dictionary shape of the node. */
  lemma {:induction false} DictMergeFromShape(s: Py, d: Py, i: nat, load: Loader)
    requires s.NDict? && DictShape(s.keys, s.vals) && IsDict(d) && WF(d) && i <= |d.keys|
    ensures DictShape(DictMergeFrom(s, d, i, load).tree.keys, DictMergeFrom(s, d, i, load).tree.vals)
    decreases |d.keys| - i
  {
    if i < |d.keys| {
      var k := d.keys[i];
      var slot := MergeSlot(s, k, d.vals[k], load);
      PutShape(s, k, slot.tree);
      if slot.err.None? {
        DictMergeFromShape(Put(s, k, slot.tree), d, i + 1, load);
      }
    }
  }

  /** After a successful merge every source key can be read as an attribute;
      a key that was in neither the node nor the source still raises
      `ConfigKeyError`. */
  lemma GetAttrAfterMerge(t: Py, d: Py, key: string, load: Loader)
    requires t.NDict? && IsDict(d) && WF(d) && DictMergeFrom(t, d, 0, load).err.None?
    ensures key in d.vals ==> GetAttr(DictMergeFrom(t, d, 0, load).tree, key).Ok?
    ensures key !in d.vals && key !in t.vals ==>
      GetAttr(DictMergeFrom(t, d, 0, load).tree, key) == Err(ConfigKeyError(key))
  {
    DictMergeAdditive(t, d, load);
  }

  // --------------------------------------------------------------- driver

  /** The driver applies the sources strictly left to right: merging `a + b`
      is merging `a` and then, if that raised nothing, `b`. */
  lemma {:induction false} MergeAllAppend(t: Py, a: seq<Py>, b: seq<Py>, load: Loader)
    requires IsNode(t)
    requires forall i :: 0 <= i < |a| ==> WF(a[i])
    requires forall i :: 0 <= i < |b| ==> WF(b[i])
    ensures forall i :: 0 <= i < |a + b| ==> WF((a + b)[i])
    ensures MergeAll(t, a + b, load) ==
      var o := MergeAll(t, a, load);
      if o.err.Some? then o else MergeAll(o.tree, b, load)
    decreases |a|
  {
    assert forall i :: 0 <= i < |a + b| ==> WF((a + b)[i]) by {
      forall i | 0 <= i < |a + b| ensures WF((a + b)[i]) {
        if i < |a| { assert (a + b)[i] == a[i]; } else { assert (a + b)[i] == b[i - |a|]; }
      }
    }
    if a == [] {
      assert a + b == b;
    } else {
      assert (a + b)[0] == a[0];
      assert (a + b)[1..] == a[1..] + b;
      var o := MergeOne(t, a[0], load);
      if o.err.None? {
        MergeAllAppend(o.tree, a[1..], b, load);
      }
    }
  }

  /** `merge(x)` with a single source is one step of the driver. */
  lemma MergeAllSingle(t: Py, x: Py, load: Loader)
    requires IsNode(t) && WF(x)
    ensures MergeAll(t, [x], load) == MergeOne(t, x, load)
  {
    var o := MergeOne(t, x, load);
    assert [x][1..] == [];
  }

  // ---------------------------------------------------------- conversion

  /** The entries the mapping merge stores when it passes over the keys `ks`
      of a source with entries `m`, starting from an empty mapping node: each
      pass stores the replacement of the source value under its key. */
  function Stored(ks: seq<string>, m: map<string, Py>, ctx: Context): map<string, Py>
    requires forall k :: k in ks ==> k in m
    decreases |ks|
  {
    if ks == [] then map[]
    else Stored(ks[..|ks| - 1], m, ctx)[ks[|ks| - 1] := Replacement(m[ks[|ks| - 1]], ctx)]
  }

  /** Exactly the passed keys are stored, each with the replacement of its
      source value. */
  lemma {:induction false} StoredDomain(ks: seq<string>, m: map<string, Py>, ctx: Context)
    requires forall k :: k in ks ==> k in m
    ensures forall x :: x in Stored(ks, m, ctx) <==> x in ks
    ensures forall x :: x in Stored(ks, m, ctx) ==> Stored(ks, m, ctx)[x] == Replacement(m[x], ctx)
    decreases |ks|
  {
    if ks != [] {
      var init := ks[..|ks| - 1];
      assert ks == init + [ks[|ks| - 1]];
      StoredDomain(init, m, ctx);
    }
  }

  /** The mapping node with the first `i` source keys already stored. */
  function Partial(d: Py, i: nat, ctx: Context): (r: Py)
    requires IsDict(d) && DictShape(d.keys, d.vals) && i <= |d.keys|
    ensures r.NDict?
  {
    NDict(d.keys[..i], Stored(d.keys[..i], d.vals, ctx), ctx)
  }

  lemma PrefixStep(ks: seq<string>, i: nat)
    requires i < |ks| && forall a, b :: 0 <= a < b < |ks| ==> ks[a] != ks[b]
    ensures ks[i] !in ks[..i]
    ensures ks[..i + 1] == ks[..i] + [ks[i]]
  {
    assert ks[..i + 1] == ks[..i] + [ks[i]];
    forall j | 0 <= j < i ensures ks[..i][j] != ks[i] {
      assert ks[..i][j] == ks[j];
    }
  }

  lemma PartialStep(d: Py, i: nat, ctx: Context)
    requires IsDict(d) && DictShape(d.keys, d.vals) && i < |d.keys|
    ensures d.keys[i] !in Partial(d, i, ctx).vals
    ensures Put(Partial(d, i, ctx), d.keys[i], Replacement(d.vals[d.keys[i]], ctx)) == Partial(d, i + 1, ctx)
  {
    PrefixStep(d.keys, i);
    var pre := d.keys[..i];
    assert d.keys[..i + 1][..i] == pre;
    StoredDomain(pre, d.vals, ctx);
  }

  lemma {:induction false} FillFrom(d: Py, i: nat, ctx: Context, load: Loader)
    requires IsDict(d) && WF(d) && i <= |d.keys|
    ensures DictMergeFrom(Partial(d, i, ctx), d, i, load) == Outcome(Partial(d, |d.keys|, ctx), None)
    decreases |d.keys| - i
  {
    if i < |d.keys| {
      var k := d.keys[i];
      var p := Partial(d, i, ctx);
      PartialStep(d, i, ctx);
      assert MergeSlot(p, k, d.vals[k], load) == Outcome(Replacement(d.vals[k], ctx), None);
      DictMergeStep(p, d, i, load);
      FillFrom(d, i + 1, ctx, load);
    }
  }

  /** Passing over every key of the source stores the replacement of every
      source value. */
  lemma StoredAll(ks: seq<string>, m: map<string, Py>, ctx: Context)
    requires forall k :: k in m <==> k in ks
    ensures Stored(ks, m, ctx) == map k | k in m :: Replacement(m[k], ctx)
  {
    StoredDomain(ks, m, ctx);
  }

  /** A dictionary's conversion stores the replacement of each of its values. */
  lemma ConvertDict(d: Py, ctx: Context)
    requires IsDict(d)
    ensures Convert(d, ctx) == NDict(d.keys, map k | k in d.vals :: Replacement(d.vals[k], ctx), ctx)
  {
  }

  /** All passes done: the conversion of the source. */
  lemma PartialFull(d: Py, ctx: Context)
    requires IsDict(d) && DictShape(d.keys, d.vals)
    ensures Partial(d, |d.keys|, ctx) == Convert(d, ctx)
  {
    assert d.keys[..|d.keys|] == d.keys;
    StoredAll(d.keys, d.vals, ctx);
    ConvertDict(d, ctx);
  }

  /** The conversion layer agrees with building a node and merging into it:
      `MergableDict(data=d, context=ctx)` is the conversion of `d`, and it
      never fails. */
  lemma ConstructMapping(d: Py, ctx: Context, load: Loader)
    requires IsDict(d) && WF(d)
    ensures Construct(true, d, ctx, load) == Outcome(Convert(d, ctx), None)
  {
    var e := Empty(true, ctx);
    PartialFull(d, ctx);
    assert Partial(d, 0, ctx) == e by {
      assert d.keys[..0] == [];
    }
    if Truthy(d) {
      assert Construct(true, d, ctx, load) == MergeOne(e, d, load);
      CanMergeMapping(e, d);
      assert MergeOne(e, d, load) == DictMergeFrom(e, d, 0, load);
      FillFrom(d, 0, ctx, load);
    } else {
      assert d.keys == [];
    }
  }

  /** A sequence is converted as `MergableList(data=[convert(i) for i in d])`:
      the list of converted elements merged into an empty sequence node. */
  lemma ConstructSequence(d: Py, ctx: Context, load: Loader)
    requires IsList(d) && WF(d)
    ensures WF(PList(Convert(d, ctx).items))
    ensures Construct(false, PList(Convert(d, ctx).items), ctx, load) == Outcome(Convert(d, ctx), None)
  {
    ConvertWF(d, ctx);
  }

  // ---------------------------------------------------------------- copy

  /** Every entry of the mapping node is a node or a value that is not a
      container: what the mapping merge stores. */
  predicate EntriesWrapped(t: Py)
    requires t.NDict?
  {
    forall k :: k in t.vals ==> IsNode(t.vals[k]) || !IsIterable(t.vals[k])
  }

  /** The mapping merge only ever stores nodes and values that are not
      containers, so it keeps a node's entries wrapped. */
  lemma {:induction false} DictMergeKeepsWrapped(s: Py, d: Py, i: nat, load: Loader)
    requires s.NDict? && EntriesWrapped(s) && IsDict(d) && WF(d) && i <= |d.keys|
    ensures EntriesWrapped(DictMergeFrom(s, d, i, load).tree)
    decreases |d.keys| - i
  {
    if i < |d.keys| {
      var k := d.keys[i];
      var v := d.vals[k];
      var slot := MergeSlot(s, k, v, load);
      ConvertShape(v, s.ctx);
      assert IsNode(slot.tree) || !IsIterable(slot.tree);
      DictMergeStep(s, d, i, load);
      DictMergeKeepsWrapped(Put(s, k, slot.tree), d, i + 1, load);
    }
  }

  /** `MergableDict.copy()` is `ConfigDict(self, context=self.context)`: a new
      mapping node with the node merged into it. For a node whose entries are
      wrapped, which the merges keep, that yields the node itself. */
  lemma CopyMapping(t: Py, load: Loader)
    requires t.NDict? && WF(t) && EntriesWrapped(t)
    ensures Construct(true, t, t.ctx, load) == Outcome(t, None)
  {
    ConstructMapping(t, t.ctx, load);
    var c := Convert(t, t.ctx);
    assert c.vals == t.vals by {
      forall k | k in t.vals ensures c.vals[k] == t.vals[k] {
        ConvertShape(t.vals[k], t.ctx);
      }
    }
  }

  /** `MergableList.copy()` is `ConfigList(self, context=self.context)`: a new
      sequence node with the node merged into it, which yields the node
      itself. */
  lemma CopySequence(t: Py, load: Loader)
    requires t.NList? && WF(t)
    ensures Construct(false, t, t.ctx, load) == Outcome(t, None)
  {
    if Truthy(t) {
      assert MergeOne(Empty(false, t.ctx), t, load) == ListMerge(Empty(false, t.ctx), t);
    }
  }
}
