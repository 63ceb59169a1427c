/** The conversion layer: `isiterable` and `Mergable.make_mergable_if_possible`.
    Dictionaries become mapping nodes, other iterables (but not strings, bytes
    or class objects) become sequence nodes, and everything else is returned
    as it is. */
module Conversion {
  import opened Values

  /** `isiterable(o)`: false for str, bytes and class objects, otherwise
      whether `o` is an instance of `Iterable`. */
  predicate IsIterable(v: Py)
    ensures IsIterable(v) <==> HasIterAttr(v) && !(v.PStr? || v.PBytes? || v.PType?)
  {
    IsDict(v) || IsList(v)
  }

  /** `make_mergable_if_possible(data, context)`. A dictionary is wrapped by
      building a fresh mapping node and merging the dictionary into it, which
      stores each node value as its copy and converts each other value; an
      iterable is wrapped with its elements converted one by one. */
  function Convert(v: Py, ctx: Context): (r: Py)
    ensures IsIterable(v) ==> IsNode(r) && r.ctx == ctx
    ensures !IsIterable(v) ==> r == v
    decreases v
  {
    match v
    case PDict(ks, m) =>
      NDict(ks, map k | k in m :: if IsNode(m[k]) then m[k] else Convert(m[k], ctx), ctx)
    case NDict(ks, m, _) =>
      NDict(ks, map k | k in m :: if IsNode(m[k]) then m[k] else Convert(m[k], ctx), ctx)
    case PList(xs) =>
      NList(seq(|xs|, i requires 0 <= i < |xs| => Convert(xs[i], ctx)), ctx)
    case NList(xs, _) =>
      NList(seq(|xs|, i requires 0 <= i < |xs| => Convert(xs[i], ctx)), ctx)
    case _ => v
  }

  /** The value a mapping node stores for a key it does not merge into:
      the copy of a node, or the conversion of (a deep copy of) anything else. */
  function Replacement(v: Py, ctx: Context): (r: Py)
    ensures IsNode(v) ==> r == v
    ensures !IsNode(v) ==> r == Convert(v, ctx)
    ensures IsNode(r) || !IsIterable(r)
  {
    if IsNode(v) then v else Convert(v, ctx)
  }

  /** The plain data a tree stands for: every node unwrapped back into a plain
      container. The inverse of `Convert` on plain data. */
  function ToPlain(v: Py): (r: Py)
    decreases v
  {
    match v
    case NDict(ks, m, _) => PDict(ks, map k | k in m :: ToPlain(m[k]))
    case PDict(ks, m) => PDict(ks, map k | k in m :: ToPlain(m[k]))
    case NList(xs, _) => PList(seq(|xs|, i requires 0 <= i < |xs| => ToPlain(xs[i])))
    case PList(xs) => PList(seq(|xs|, i requires 0 <= i < |xs| => ToPlain(xs[i])))
    case _ => v
  }

  /** Every container in `v` is a node, and every node carries `ctx`. */
  predicate Wrapped(v: Py, ctx: Context)
    decreases v
  {
    match v
    case PDict(_, _) => false
    case PList(_) => false
    case NDict(_, m, c) => c == ctx && forall k :: k in m ==> Wrapped(m[k], ctx)
    case NList(xs, c) => c == ctx && forall i :: 0 <= i < |xs| ==> Wrapped(xs[i], ctx)
    case _ => true
  }

  /** Conversion keeps the shape: a dictionary becomes a mapping node with the
      same keys in the same order and the given context, each entry the
      replacement of the original entry (a node kept as it is, any other
      value converted); another iterable
      becomes a sequence node of the same length whose elements are the
      conversions of the original elements; any other value is unchanged. */
  lemma ConvertShape(v: Py, ctx: Context)
    ensures IsDict(v) ==>
      && Convert(v, ctx).NDict?
      && Convert(v, ctx).keys == v.keys
      && Convert(v, ctx).vals.Keys == v.vals.Keys
      && Convert(v, ctx).ctx == ctx
      && forall k :: k in v.vals ==> Convert(v, ctx).vals[k] == Replacement(v.vals[k], ctx)
    ensures IsList(v) ==>
      && Convert(v, ctx).NList?
      && |Convert(v, ctx).items| == |v.items|
      && Convert(v, ctx).ctx == ctx
      && forall i :: 0 <= i < |v.items| ==> Convert(v, ctx).items[i] == Convert(v.items[i], ctx)
    ensures !IsIterable(v) ==> Convert(v, ctx) == v
  {
  }

  /** Conversion turns well-formed data into well-formed data. */
  lemma {:induction false} ConvertWF(v: Py, ctx: Context)
    requires WF(v)
    ensures WF(Convert(v, ctx))
    decreases v
  {
    match v
    case PDict(ks, m) =>
      forall k | k in m && !IsNode(m[k]) ensures WF(Convert(m[k], ctx)) {
        ConvertWF(m[k], ctx);
      }
    case NDict(ks, m, _) =>
      forall k | k in m && !IsNode(m[k]) ensures WF(Convert(m[k], ctx)) {
        ConvertWF(m[k], ctx);
      }
    case PList(xs) =>
      forall i | 0 <= i < |xs| ensures WF(Convert(xs[i], ctx)) {
        ConvertWF(xs[i], ctx);
      }
    case NList(xs, _) =>
      forall i | 0 <= i < |xs| ensures WF(Convert(xs[i], ctx)) {
        ConvertWF(xs[i], ctx);
      }
    case _ =>
  }

  /** Converting plain data wraps every container in it, and every node
      created carries the context it was converted with. */
  lemma {:induction false} ConvertWraps(v: Py, ctx: Context)
    requires Plain(v)
    ensures Wrapped(Convert(v, ctx), ctx)
    decreases v
  {
    match v
    case PDict(ks, m) =>
      forall k | k in m ensures Wrapped(Convert(m[k], ctx), ctx) {
        ConvertWraps(m[k], ctx);
      }
    case PList(xs) =>
      forall i | 0 <= i < |xs| ensures Wrapped(Convert(xs[i], ctx), ctx) {
        ConvertWraps(xs[i], ctx);
      }
    case _ =>
  }

  /** Conversion loses nothing: unwrapping the conversion of plain data gives
      the data back. */
  lemma {:induction false} ConvertRoundTrip(v: Py, ctx: Context)
    requires Plain(v)
    ensures ToPlain(Convert(v, ctx)) == v
    decreases v
  {
    match v
    case PDict(ks, m) =>
      var c := Convert(v, ctx);
      forall k | k in m ensures ToPlain(c.vals[k]) == m[k] {
        ConvertRoundTrip(m[k], ctx);
      }
      assert ToPlain(c).vals == m;
    case PList(xs) =>
      var c := Convert(v, ctx);
      forall i | 0 <= i < |xs| ensures ToPlain(c.items[i]) == xs[i] {
        ConvertRoundTrip(xs[i], ctx);
      }
      assert ToPlain(c).items == xs;
    case _ =>
  }

  /** Converting twice is converting once. */
  lemma {:induction false} ConvertIdempotent(v: Py, ctx: Context)
    ensures Convert(Convert(v, ctx), ctx) == Convert(v, ctx)
    decreases v
  {
    match v
    case PDict(ks, m) =>
      var c := Convert(v, ctx);
      forall k | k in m && !IsNode(m[k]) ensures Convert(Convert(m[k], ctx), ctx) == Convert(m[k], ctx) {
        ConvertIdempotent(m[k], ctx);
      }
      ConvertKeepsNodes(m, ctx);
      assert Convert(c, ctx).vals == c.vals;
    case NDict(ks, m, _) =>
      var c := Convert(v, ctx);
      forall k | k in m && !IsNode(m[k]) ensures Convert(Convert(m[k], ctx), ctx) == Convert(m[k], ctx) {
        ConvertIdempotent(m[k], ctx);
      }
      ConvertKeepsNodes(m, ctx);
      assert Convert(c, ctx).vals == c.vals;
    case PList(xs) =>
      var c := Convert(v, ctx);
      forall i | 0 <= i < |xs| ensures Convert(Convert(xs[i], ctx), ctx) == Convert(xs[i], ctx) {
        ConvertIdempotent(xs[i], ctx);
      }
      assert Convert(c, ctx).items == c.items;
    case NList(xs, _) =>
      var c := Convert(v, ctx);
      forall i | 0 <= i < |xs| ensures Convert(Convert(xs[i], ctx), ctx) == Convert(xs[i], ctx) {
        ConvertIdempotent(xs[i], ctx);
      }
      assert Convert(c, ctx).items == c.items;
    case _ =>
  }

  /** A value that is not a node converts to a non-node only when it is not
      iterable, i.e. when conversion leaves it alone. */
  lemma ConvertKeepsNodes(m: map<string, Py>, ctx: Context)
    ensures forall k :: k in m && !IsNode(m[k]) ==> IsNode(Convert(m[k], ctx)) || Convert(m[k], ctx) == m[k]
  {
  }
}
