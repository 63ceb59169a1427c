/** Properties of the namespace helper `_ensure_namespaces`. */
module NamespaceLaws {
  import opened Values
  import opened Merging

  /** The chain of nested empty mapping nodes that a path creates from
      nothing: one mapping node per segment, each holding only the next. */
  function Chain(path: seq<string>, ctx: Context): (r: Py)
    ensures r.NDict? && r.ctx == ctx
    decreases |path|
  {
    if path == [] then Empty(true, ctx)
    else NDict([path[0]], map[path[0] := Chain(path[1..], ctx)], ctx)
  }

  /** An empty path yields the node itself, unchanged. */
  lemma EnsureEmptyPath(t: Py)
    requires IsNode(t)
    ensures EnsureNamespaces(t, []) == (t, Ok(t))
  {
  }

  /** On an empty mapping node, every segment is missing: the helper builds
      the whole chain, with the node's context everywhere, and returns the
      innermost (empty) namespace. */
  lemma {:induction false} EnsureOnEmpty(path: seq<string>, ctx: Context)
    ensures EnsureNamespaces(Empty(true, ctx), path) == (Chain(path, ctx), Ok(Empty(true, ctx)))
    decreases |path|
  {
    if path != [] {
      var e := Empty(true, ctx);
      var t1 := Put(e, path[0], e);
      assert t1 == NDict([path[0]], map[path[0] := e], ctx);
      EnsureOnEmpty(path[1..], ctx);
      assert Put(t1, path[0], Chain(path[1..], ctx)) == Chain(path, ctx) by {
        assert map[path[0] := e][path[0] := Chain(path[1..], ctx)] == map[path[0] := Chain(path[1..], ctx)];
      }
    }
  }

  /** On success the value returned is reached by following the path in the
      updated tree. */
  lemma {:induction false} EnsureReaches(t: Py, path: seq<string>)
    ensures var r := EnsureNamespaces(t, path);
      r.1.Ok? ==> Walk(r.0, path) == Some(r.1.value)
    decreases |path|
  {
    if IsNode(t) && path != [] && t.NDict? {
      var ns := path[0];
      var t1 := if ns in t.vals then t else Put(t, ns, Empty(true, t.ctx));
      EnsureReaches(t1.vals[ns], path[1..]);
    }
  }

  /** At the node it is called on, the helper touches only the first
      segment's entry, whether or not a deeper step fails: a missing segment
      is appended, holding the chain of the remaining path, and never fails;
      an existing one keeps its position and becomes what the helper makes of
      it with the rest of the path, whose result (or error) is returned;
      every other key keeps its value. */
  lemma EnsureLocal(t: Py, path: seq<string>)
    requires t.NDict? && path != []
    ensures path[0] !in t.vals ==> EnsureNamespaces(t, path).1.Ok?
    ensures var t2 := EnsureNamespaces(t, path).0;
      && t2.NDict? && t2.ctx == t.ctx
      && t2.keys == (if path[0] in t.vals then t.keys else t.keys + [path[0]])
      && t2.vals.Keys == t.vals.Keys + {path[0]}
      && (forall k :: k in t.vals && k != path[0] ==> t2.vals[k] == t.vals[k])
      && (path[0] !in t.vals ==> t2.vals[path[0]] == Chain(path[1..], t.ctx))
    ensures path[0] in t.vals ==>
      var inner := EnsureNamespaces(t.vals[path[0]], path[1..]);
      && EnsureNamespaces(t, path).0.vals[path[0]] == inner.0
      && EnsureNamespaces(t, path).1 == inner.1
  {
    if path[0] !in t.vals {
      EnsureOnEmpty(path[1..], t.ctx);
    }
  }

  /** Nothing off the path changes: a value reached by a key path `q` that
      leaves `path` at segment `j` (and holds a node at every step before it)
      is still reached, unchanged, after the helper ran. Existing entries
      beside a created namespace survive at every depth. */
  lemma {:induction false} EnsureOffPath(t: Py, path: seq<string>, q: seq<string>, j: nat)
    requires j < |path| && j < |q| && q[..j] == path[..j] && q[j] != path[j]
    requires IsNode(t) && Walk(t, q).Some?
    ensures Walk(EnsureNamespaces(t, path).0, q) == Walk(t, q)
    decreases j
  {
    var ns := path[0];
    var t2 := EnsureNamespaces(t, path).0;
    assert t.NDict? && q[0] in t.vals;
    if j == 0 {
      assert q[0] != ns;
      assert t2.vals[q[0]] == t.vals[q[0]];
    } else {
      assert q[0] == q[..j][0] == path[..j][0] == ns;
      var c := t.vals[ns];
      assert Walk(t, q) == Walk(c, q[1..]);
      assert |q[1..]| > 0;
      assert IsNode(c);
      assert q[1..][..j - 1] == q[..j][1..] && path[1..][..j - 1] == path[..j][1..];
      EnsureOffPath(c, path[1..], q[1..], j - 1);
      assert t2.vals[ns] == EnsureNamespaces(c, path[1..]).0;
    }
  }

  /** When the whole path already exists and ends in a node, nothing is
      created: the tree is unchanged and that node is returned. */
  lemma {:induction false} EnsureExisting(t: Py, path: seq<string>, n: Py)
    requires WF(t) && Walk(t, path) == Some(n) && IsNode(n) && (path != [] ==> t.NDict?)
    ensures EnsureNamespaces(t, path) == (t, Ok(n))
    decreases |path|
  {
    if path != [] {
      var ns := path[0];
      var c := t.vals[ns];
      if path[1..] != [] {
        assert c.NDict?;
      }
      EnsureExisting(c, path[1..], n);
      assert t.vals[ns := c] == t.vals;
    }
  }
}
