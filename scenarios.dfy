/** Concrete runs of the engine: the behaviour the repository's tests expect,
    with the text loader fixed only on the texts involved. */
module Scenarios {
  import opened Values
  import opened Conversion
  import opened Merging
  import opened MergeLaws
  import opened NamespaceLaws

  function Dict1(k: string, v: Py): Py {
    PDict([k], map[k := v])
  }

  function Dict2(k1: string, v1: Py, k2: string, v2: Py): Py
    requires k1 != k2
  {
    PDict([k1, k2], map[k1 := v1, k2 := v2])
  }

  /** The first configuration document: `a: {a1: 1}` and `b: [1, 2, c]`,
      with `c` substituted from the context. */
  function Builtin(c: int): Py {
    Dict2("a", Dict1("a1", PInt(1)), "b", PList([PInt(1), PInt(2), PInt(c)]))
  }

  /** The trees of the run below: the root after construction, after the
      second document and after the third. */
  function A0(ctx: Context): Py {
    NDict(["a1"], map["a1" := PInt(1)], ctx)
  }

  function A1(ctx: Context): Py {
    NDict(["a1", "a2"], map["a1" := PInt(1), "a2" := PInt(2)], ctx)
  }

  function B0(ctx: Context): Py {
    NList([PInt(1), PInt(2), PInt(3)], ctx)
  }

  function Root0(ctx: Context): Py {
    NDict(["a", "b"], map["a" := A0(ctx), "b" := B0(ctx)], ctx)
  }

  function Root1(ctx: Context): Py {
    NDict(["a", "b"], map["a" := A1(ctx), "b" := B0(ctx)], ctx)
  }

  function Root2(ctx: Context): Py {
    NDict(["a", "b"], map["a" := A1(ctx), "b" := NList([PInt(4)], ctx)], ctx)
  }

  lemma BuiltinWF()
    ensures WF(Builtin(3))
  {
    assert WF(Dict1("a1", PInt(1)));
    assert WF(PList([PInt(1), PInt(2), PInt(3)]));
  }

  lemma ConvertA0(ctx: Context)
    ensures Convert(Dict1("a1", PInt(1)), ctx) == A0(ctx)
  {
    assert Convert(Dict1("a1", PInt(1)), ctx).vals == A0(ctx).vals;
  }

  lemma Root0Built(ctx: Context)
    ensures Put(Put(Empty(true, ctx), "a", A0(ctx)), "b", B0(ctx)) == Root0(ctx)
  {
    assert Put(Put(Empty(true, ctx), "a", A0(ctx)), "b", B0(ctx)).vals == Root0(ctx).vals;
  }

  lemma A1Built(ctx: Context)
    ensures Put(A0(ctx), "a2", PInt(2)) == A1(ctx)
  {
    assert Put(A0(ctx), "a2", PInt(2)).vals == A1(ctx).vals;
  }

  lemma Root1Built(ctx: Context)
    ensures Put(Root0(ctx), "a", A1(ctx)) == Root1(ctx)
  {
    assert Put(Root0(ctx), "a", A1(ctx)).vals == Root1(ctx).vals;
  }

  lemma Root2Built(ctx: Context)
    ensures Put(Root1(ctx), "b", NList([PInt(4)], ctx)) == Root2(ctx)
  {
    assert Put(Root1(ctx), "b", NList([PInt(4)], ctx)).vals == Root2(ctx).vals;
  }

  lemma SlotA0(ctx: Context, load: Loader)
    ensures MergeSlot(Empty(true, ctx), "a", Dict1("a1", PInt(1)), load) == Outcome(A0(ctx), None)
  {
    ConvertA0(ctx);
  }

  lemma SlotB0(ctx: Context, load: Loader)
    ensures MergeSlot(Put(Empty(true, ctx), "a", A0(ctx)), "b", PList([PInt(1), PInt(2), PInt(3)]), load)
      == Outcome(B0(ctx), None)
  {
  }

  lemma BuiltinFirstKey(ctx: Context, load: Loader)
    ensures WF(Builtin(3))
    ensures DictMergeFrom(Empty(true, ctx), Builtin(3), 0, load)
      == DictMergeFrom(Put(Empty(true, ctx), "a", A0(ctx)), Builtin(3), 1, load)
  {
    BuiltinWF();
    SlotA0(ctx, load);
    DictMergeStep(Empty(true, ctx), Builtin(3), 0, load);
  }

  lemma BuiltinSecondKey(ctx: Context, load: Loader)
    ensures WF(Builtin(3))
    ensures DictMergeFrom(Put(Empty(true, ctx), "a", A0(ctx)), Builtin(3), 1, load) == Outcome(Root0(ctx), None)
  {
    BuiltinWF();
    SlotB0(ctx, load);
    DictMergeStep(Put(Empty(true, ctx), "a", A0(ctx)), Builtin(3), 1, load);
    Root0Built(ctx);
  }

  /** Construction stores `a` as a mapping node and `b` as a sequence node. */
  lemma BuiltinConverted(ctx: Context, load: Loader)
    ensures WF(Builtin(3))
    ensures Construct(true, Builtin(3), ctx, load) == Outcome(Root0(ctx), None)
  {
    BuiltinFirstKey(ctx, load);
    BuiltinSecondKey(ctx, load);
    assert MergeOne(Empty(true, ctx), Builtin(3), load) == DictMergeFrom(Empty(true, ctx), Builtin(3), 0, load);
  }

  /** Deep merge: `a` is merged in place, keeping `a1` beside the new `a2`. */
  lemma SecondDocumentMerged(ctx: Context, load: Loader)
    ensures WF(Dict1("a", Dict1("a2", PInt(2))))
    ensures DictMergeFrom(Root0(ctx), Dict1("a", Dict1("a2", PInt(2))), 0, load) == Outcome(Root1(ctx), None)
  {
    var src := Dict1("a2", PInt(2));
    assert WF(src);
    DictMergeStep(A0(ctx), src, 0, load);
    A1Built(ctx);
    assert MergeOne(A0(ctx), src, load) == Outcome(A1(ctx), None);
    assert MergeSlot(Root0(ctx), "a", src, load) == Outcome(A1(ctx), None);
    DictMergeStep(Root0(ctx), Dict1("a", src), 0, load);
    Root1Built(ctx);
  }

  /** Sequence replacement: `b` becomes exactly the new sequence. */
  lemma ThirdDocumentMerged(ctx: Context, load: Loader)
    ensures WF(Dict1("b", PList([PInt(4)])))
    ensures DictMergeFrom(Root1(ctx), Dict1("b", PList([PInt(4)])), 0, load) == Outcome(Root2(ctx), None)
  {
    assert MergeOne(B0(ctx), PList([PInt(4)]), load) == Outcome(NList([PInt(4)], ctx), None);
    assert MergeSlot(Root1(ctx), "b", PList([PInt(4)]), load) == Outcome(NList([PInt(4)], ctx), None);
    DictMergeStep(Root1(ctx), Dict1("b", PList([PInt(4)])), 0, load);
    Root2Built(ctx);
  }

  lemma BuiltinText(ctx: Context, load: Loader, builtin: string)
    requires builtin != [] && load(builtin, ctx) == Builtin(3)
    ensures Construct(true, PStr(builtin), ctx, load) == Outcome(Root0(ctx), None)
  {
    BuiltinConverted(ctx, load);
    assert MergeOne(Empty(true, ctx), PStr(builtin), load) == DictMergeFrom(Empty(true, ctx), Builtin(3), 0, load);
  }

  lemma SecondText(ctx: Context, load: Loader, second: string)
    requires load(second, ctx) == Dict1("a", Dict1("a2", PInt(2)))
    ensures MergeOne(Root0(ctx), PStr(second), load) == Outcome(Root1(ctx), None)
  {
    SecondDocumentMerged(ctx, load);
  }

  lemma ThirdText(ctx: Context, load: Loader, third: string)
    requires load(third, ctx) == Dict1("b", PList([PInt(4)]))
    ensures MergeOne(Root1(ctx), PStr(third), load) == Outcome(Root2(ctx), None)
  {
    ThirdDocumentMerged(ctx, load);
  }

  /** A root built from text, then merged with a document adding `a.a2`, then
      with one giving `b` a single element: the first merge keeps `a1` beside
      the new `a2`, the second replaces the whole sequence. */
  lemma RootConstructorRun(ctx: Context, load: Loader, builtin: string, second: string, third: string)
    requires builtin != []
    requires load(builtin, ctx) == Builtin(3)
    requires load(second, ctx) == Dict1("a", Dict1("a2", PInt(2)))
    requires load(third, ctx) == Dict1("b", PList([PInt(4)]))
    ensures Construct(true, PStr(builtin), ctx, load) == Outcome(Root0(ctx), None)
    ensures MergeAll(Root0(ctx), [PStr(second), PStr(third)], load) == Outcome(Root2(ctx), None)
  {
    BuiltinText(ctx, load, builtin);
    SecondText(ctx, load, second);
    ThirdText(ctx, load, third);
    assert [PStr(second), PStr(third)][1..] == [PStr(third)];
    assert MergeAll(Root0(ctx), [PStr(second), PStr(third)], load) == MergeAll(Root1(ctx), [PStr(third)], load);
    MergeAllSingle(Root1(ctx), PStr(third), load);
  }

  /** What the test reads back at each stage: `a.a1` stays 1 after `a.a2`
      arrives, and `b` ends as the one-element sequence. */
  lemma RootRunReads(ctx: Context)
    ensures Walk(Root0(ctx), ["a", "a1"]) == Some(PInt(1))
    ensures Walk(Root0(ctx), ["b"]) == Some(NList([PInt(1), PInt(2), PInt(3)], ctx))
    ensures Walk(Root1(ctx), ["a", "a1"]) == Some(PInt(1)) && Walk(Root1(ctx), ["a", "a2"]) == Some(PInt(2))
    ensures Walk(Root2(ctx), ["a", "a1"]) == Some(PInt(1)) && Walk(Root2(ctx), ["a", "a2"]) == Some(PInt(2))
    ensures Walk(Root2(ctx), ["b"]) == Some(NList([PInt(4)], ctx))
    ensures |Root2(ctx).vals["b"].items| == 1
  {
    assert ["a", "a1"][1..] == ["a1"] && ["a", "a2"][1..] == ["a2"];
    assert ["a1"][1..] == [] && ["a2"][1..] == [] && ["b"][1..] == [];
  }

  /** A dotted key is one literal key: it does not create nested namespaces,
      and reading its first segment as an attribute fails. */
  lemma DottedKeyRun(ctx: Context, load: Loader, text: string)
    requires text != []
    requires load(text, ctx) == Dict1("server.token.salt", PInt(1345))
    ensures var r := Construct(true, PStr(text), ctx, load);
      && r.err.None?
      && r.tree.keys == ["server.token.salt"]
      && GetAttr(r.tree, "server.token.salt") == Ok(PInt(1345))
      && GetAttr(r.tree, "server") == Err(ConfigKeyError("server"))
  {
    var d := Dict1("server.token.salt", PInt(1345));
    var e := Empty(true, ctx);
    assert MergeSlot(e, "server.token.salt", PInt(1345), load) == Outcome(PInt(1345), None);
    DictMergeStep(e, d, 0, load);
    assert MergeOne(e, PStr(text), load) == DictMergeFrom(e, d, 0, load);
  }

  /** `{server: {host: 1}}` with the namespaces `server`, `token` ensured:
      `server` exists, so only `token` is created inside it, and `server.host`
      is kept beside it. */
  lemma NamespaceBesideEntry(ctx: Context)
    ensures var server := NDict(["host"], map["host" := PInt(1)], ctx);
      var t := NDict(["server"], map["server" := server], ctx);
      var r := EnsureNamespaces(t, ["server", "token"]);
      && r.1 == Ok(Empty(true, ctx))
      && Walk(r.0, ["server", "host"]) == Some(PInt(1))
      && Walk(r.0, ["server", "token"]) == Some(Empty(true, ctx))
  {
    var server := NDict(["host"], map["host" := PInt(1)], ctx);
    var t := NDict(["server"], map["server" := server], ctx);
    var path := ["server", "token"];
    EnsureLocal(t, path);
    assert path[1..] == ["token"];
    EnsureLocal(server, ["token"]);
    EnsureReaches(t, path);
    assert ["server", "host"][..1] == path[..1];
    EnsureOffPath(t, path, ["server", "host"], 1);
  }

  lemma ScalarStored(ctx: Context)
    ensures Put(NDict(["a"], map["a" := A0(ctx)], ctx), "a", PInt(5)) == NDict(["a"], map["a" := PInt(5)], ctx)
  {
    assert map["a" := A0(ctx)]["a" := PInt(5)] == map["a" := PInt(5)];
  }

  lemma MappingStored(ctx: Context)
    ensures Put(NDict(["a"], map["a" := PInt(5)], ctx), "a", A0(ctx)) == NDict(["a"], map["a" := A0(ctx)], ctx)
  {
    assert map["a" := PInt(5)]["a" := A0(ctx)] == map["a" := A0(ctx)];
  }

  /** A scalar replaces a mapping node: the node cannot absorb it. */
  lemma ScalarReplacesMapping(ctx: Context, load: Loader)
    ensures MergeOne(NDict(["a"], map["a" := A0(ctx)], ctx), Dict1("a", PInt(5)), load)
      == Outcome(NDict(["a"], map["a" := PInt(5)], ctx), None)
  {
    var t := NDict(["a"], map["a" := A0(ctx)], ctx);
    assert MergeSlot(t, "a", PInt(5), load) == Outcome(PInt(5), None);
    DictMergeStep(t, Dict1("a", PInt(5)), 0, load);
    ScalarStored(ctx);
  }

  /** A mapping replaces a scalar, converted into a mapping node. */
  lemma MappingReplacesScalar(ctx: Context, load: Loader)
    ensures MergeOne(NDict(["a"], map["a" := PInt(5)], ctx), Dict1("a", Dict1("a1", PInt(1))), load)
      == Outcome(NDict(["a"], map["a" := A0(ctx)], ctx), None)
  {
    var t := NDict(["a"], map["a" := PInt(5)], ctx);
    ConvertA0(ctx);
    assert MergeSlot(t, "a", Dict1("a1", PInt(1)), load) == Outcome(A0(ctx), None);
    DictMergeStep(t, Dict1("a", Dict1("a1", PInt(1))), 0, load);
    MappingStored(ctx);
  }

  /** Sequence merge replaces, never appends: `[1, 2, 3]` merged with `[4]`
      is `[4]`. */
  lemma SequenceReplaceRun(ctx: Context, load: Loader)
    ensures MergeOne(NList([PInt(1), PInt(2), PInt(3)], ctx), PList([PInt(4)]), load)
      == Outcome(NList([PInt(4)], ctx), None)
  {
    ListMergeReplaces(NList([PInt(1), PInt(2), PInt(3)], ctx), PList([PInt(4)]), load);
  }
}
