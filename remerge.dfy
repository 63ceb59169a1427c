/** When a merge cannot fail, and what merging the same data twice does. */
module Remerge {
  import opened Values
  import opened Conversion
  import opened Merging
  import opened MergeLaws

  // ------------------------------------------------------------ no failure

  /** No sequence node is reachable through mapping nodes. */
  predicate NoSequenceNode(v: Py)
    decreases v
  {
    match v
    case NList(_, _) => false
    case NDict(_, m, _) => forall k :: k in m ==> NoSequenceNode(m[k])
    case _ => true
  }

  lemma {:induction false} SlotSucceeds(s: Py, k: string, v: Py, load: Loader)
    requires s.NDict? && WF(v) && (k in s.vals ==> NoSequenceNode(s.vals[k]))
    ensures MergeSlot(s, k, v, load).err.None?
    decreases v, 1, 0
  {
    if k in s.vals && IsNode(s.vals[k]) && CanMerge(s.vals[k], v) {
      DictMergeSucceeds(s.vals[k], v, 0, load);
    }
  }

  lemma {:induction false} DictMergeSucceeds(s: Py, d: Py, i: nat, load: Loader)
    requires s.NDict? && IsDict(d) && WF(d) && i <= |d.keys|
    requires forall j :: i <= j < |d.keys| && d.keys[j] in s.vals ==> NoSequenceNode(s.vals[d.keys[j]])
    ensures DictMergeFrom(s, d, i, load).err.None?
    decreases d, 0, |d.keys| - i
  {
    if i < |d.keys| {
      var k := d.keys[i];
      var v := d.vals[k];
      SlotSucceeds(s, k, v, load);
      var x := MergeSlot(s, k, v, load).tree;
      var s' := Put(s, k, x);
      assert forall j :: i + 1 <= j < |d.keys| ==> d.keys[j] != k;
      DictMergeStep(s, d, i, load);
      DictMergeSucceeds(s', d, i + 1, load);
    }
  }

  /** Errors come only from sequence nodes: merging a dictionary into a
      mapping node with no sequence node below it never fails. */
  lemma MergeIntoListFreeSucceeds(t: Py, d: Py, load: Loader)
    requires t.NDict? && NoSequenceNode(t) && WF(d) && IsDict(d)
    ensures MergeOne(t, d, load).err.None?
  {
    DictMergeSucceeds(t, d, 0, load);
  }

  // ------------------------------------------------------------ re-merging

  /** Plain data whose sequences hold only values that are not containers. */
  predicate FlatLists(v: Py)
    decreases v
  {
    match v
    case PDict(_, m) => forall k :: k in m ==> FlatLists(m[k])
    case PList(xs) => forall i :: 0 <= i < |xs| ==> !IsIterable(xs[i])
    case NDict(_, _, _) => false
    case NList(_, _) => false
    case _ => true
  }

  /** Merging the same source into a sequence node twice: the second merge
      finds the node as the first one left it and leaves it so. */
  lemma ListMergeIdempotent(n: Py, v: Py, load: Loader)
    requires n.NList? && WF(v) && MergeOne(n, v, load).err.None?
    ensures var x := MergeOne(n, v, load).tree;
      MergeOne(x, v, load) == Outcome(x, None)
  {
    var to := if v.PStr? then load(v.s, n.ctx) else v;
    var x := MergeOne(n, v, load).tree;
    if !(v.PStr? && !Truthy(to)) {
      assert x == ListMerge(n, to).tree;
      assert CanMerge(x, to);
      assert ListMerge(x, to).tree == x;
    }
  }

  /** A merge pass that finds every source key already holding what it would
      store changes nothing. */
  lemma {:induction false} DictMergeNoop(s: Py, d: Py, i: nat, load: Loader)
    requires s.NDict? && IsDict(d) && WF(d) && i <= |d.keys|
    requires forall j :: i <= j < |d.keys| ==>
      d.keys[j] in s.vals && MergeSlot(s, d.keys[j], d.vals[d.keys[j]], load) == Outcome(s.vals[d.keys[j]], None)
    ensures DictMergeFrom(s, d, i, load) == Outcome(s, None)
    decreases |d.keys| - i
  {
    if i < |d.keys| {
      var k := d.keys[i];
      assert Put(s, k, s.vals[k]) == s by {
        assert s.vals[k := s.vals[k]] == s.vals;
      }
      DictMergeStep(s, d, i, load);
      DictMergeNoop(s, d, i + 1, load);
    }
  }

  /** One key, merged twice with the same flat value: the second pass finds
      what the first one stored and keeps it. `s2` is the node as it stands
      after the first pass. */
  lemma {:induction false} SlotIdempotent(s: Py, s2: Py, k: string, v: Py, load: Loader)
    requires s.NDict? && s2.NDict? && s2.ctx == s.ctx && WF(v) && FlatLists(v)
    requires MergeSlot(s, k, v, load).err.None?
    requires k in s2.vals && s2.vals[k] == MergeSlot(s, k, v, load).tree
    ensures MergeSlot(s2, k, v, load) == Outcome(s2.vals[k], None)
    decreases v, 1
  {
    var x := s2.vals[k];
    if k in s.vals && IsNode(s.vals[k]) && CanMerge(s.vals[k], v) {
      var c := s.vals[k];
      if c.NList? {
        ListMergeIdempotent(c, v, load);
      } else {
        DictIdempotent(c, v, load);
      }
    } else {
      match v
      case PDict(_, _) =>
        ConvertAbsorbs(v, s.ctx, load);
      case PList(xs) =>
        assert x == Convert(v, s.ctx);
        assert x.items == xs by {
          forall i | 0 <= i < |xs| ensures x.items[i] == xs[i] {
            assert !IsIterable(xs[i]);
            ConvertShape(xs[i], s.ctx);
          }
        }
      case _ =>
    }
  }

  /** Merging the same flat dictionary twice into a mapping node is merging it
      once. */
  lemma {:induction false} DictIdempotent(c: Py, v: Py, load: Loader)
    requires c.NDict? && IsDict(v) && WF(v) && FlatLists(v)
    requires DictMergeFrom(c, v, 0, load).err.None?
    ensures var r := DictMergeFrom(c, v, 0, load).tree;
      DictMergeFrom(r, v, 0, load) == Outcome(r, None)
    decreases v, 0
  {
    var r := DictMergeFrom(c, v, 0, load).tree;
    DictMergeAdditive(c, v, load);
    forall j | 0 <= j < |v.keys|
      ensures v.keys[j] in r.vals && MergeSlot(r, v.keys[j], v.vals[v.keys[j]], load) == Outcome(r.vals[v.keys[j]], None)
    {
      var k := v.keys[j];
      SlotIdempotent(c, r, k, v.vals[k], load);
    }
    DictMergeNoop(r, v, 0, load);
  }

  /** Merging a flat dictionary into its own conversion changes nothing. */
  lemma {:induction false} ConvertAbsorbs(v: Py, ctx: Context, load: Loader)
    requires v.PDict? && WF(v) && FlatLists(v)
    ensures DictMergeFrom(Convert(v, ctx), v, 0, load) == Outcome(Convert(v, ctx), None)
    decreases v, 0
  {
    var c := Convert(v, ctx);
    var e := Empty(true, ctx);
    forall j | 0 <= j < |v.keys|
      ensures v.keys[j] in c.vals && MergeSlot(c, v.keys[j], v.vals[v.keys[j]], load) == Outcome(c.vals[v.keys[j]], None)
    {
      var k := v.keys[j];
      SlotIdempotent(e, c, k, v.vals[k], load);
    }
    DictMergeNoop(c, v, 0, load);
  }

  /** Re-merging is harmless: merging the same dictionary, whose sequences
      hold no containers, a second time leaves the tree as the first merge
      left it. */
  lemma MergeIdempotent(t: Py, d: Py, load: Loader)
    requires t.NDict? && d.PDict? && WF(d) && FlatLists(d)
    requires MergeOne(t, d, load).err.None?
    ensures MergeOne(MergeOne(t, d, load).tree, d, load) == MergeOne(t, d, load)
  {
    DictIdempotent(t, d, load);
  }

  /** `{"b": [{"x": 1}]}`, and the tree its first merge into an empty mapping
      node builds. */
  function ListOfDict(): Py {
    PDict(["b"], map["b" := PList([PDict(["x"], map["x" := PInt(1)])])])
  }

  function ListOfDictTree(ctx: Context): Py {
    NDict(["b"], map["b" := NList([NDict(["x"], map["x" := PInt(1)], ctx)], ctx)], ctx)
  }

  lemma ConvertListOfDict(ctx: Context)
    ensures Convert(ListOfDict(), ctx) == ListOfDictTree(ctx)
  {
    var elem := PDict(["x"], map["x" := PInt(1)]);
    var e := NDict(["x"], map["x" := PInt(1)], ctx);
    assert Convert(elem, ctx) == e by {
      assert Convert(elem, ctx).vals == e.vals;
    }
    var l := Convert(PList([elem]), ctx);
    assert l == NList([e], ctx) by {
      assert l.items == [e];
    }
    assert Convert(ListOfDict(), ctx).vals == ListOfDictTree(ctx).vals;
  }

  lemma ListOfDictOnce(ctx: Context, load: Loader)
    ensures MergeOne(Empty(true, ctx), ListOfDict(), load) == Outcome(ListOfDictTree(ctx), None)
  {
    ConstructMapping(ListOfDict(), ctx, load);
    ConvertListOfDict(ctx);
  }

  lemma ListOfDictSlot(ctx: Context, load: Loader)
    ensures MergeSlot(ListOfDictTree(ctx), "b", PList([PDict(["x"], map["x" := PInt(1)])]), load) ==
      Outcome(NList([PDict(["x"], map["x" := PInt(1)])], ctx), None)
  {
    var src := PList([PDict(["x"], map["x" := PInt(1)])]);
    var b := ListOfDictTree(ctx).vals["b"];
    assert CanMerge(b, src);
    assert MergeOne(b, src, load) == ListMerge(b, src);
  }

  lemma ListOfDictTwice(ctx: Context, load: Loader)
    ensures MergeOne(ListOfDictTree(ctx), ListOfDict(), load) ==
      Outcome(Put(ListOfDictTree(ctx), "b", NList([PDict(["x"], map["x" := PInt(1)])], ctx)), None)
  {
    ListOfDictSlot(ctx, load);
    DictMergeStep(ListOfDictTree(ctx), ListOfDict(), 0, load);
  }

  /** As written, the sequence merge stores the source elements without
      converting them, so re-merging a sequence of mappings is not harmless:
      after the first merge the element is a mapping node, after the second
      it is the plain dictionary again. */
  lemma ReMergeUnwrapsListElements(ctx: Context, load: Loader)
    ensures var elem := PDict(["x"], map["x" := PInt(1)]);
      var d := PDict(["b"], map["b" := PList([elem])]);
      var once := MergeOne(Empty(true, ctx), d, load);
      var twice := MergeOne(once.tree, d, load);
      && once.err.None? && twice.err.None?
      && "b" in once.tree.vals && "b" in twice.tree.vals
      && once.tree.vals["b"] == NList([NDict(["x"], map["x" := PInt(1)], ctx)], ctx)
      && twice.tree.vals["b"] == NList([elem], ctx)
      && twice.tree != once.tree
  {
    ListOfDictOnce(ctx, load);
    ListOfDictTwice(ctx, load);
  }
}
