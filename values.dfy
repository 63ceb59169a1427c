/** The values the merge engine handles: Python scalars, plain containers as a
    parser produces them, and the two kinds of configuration node
    (mapping node and sequence node) with their substitution context. */
module Values {

  datatype Option<T> = None | Some(value: T)

  datatype Result<T, E> = Ok(value: T) | Err(error: E)

  /** Substitution variables handed to the text loader; only ever passed on. */
  type Context = map<string, string>

  newtype byte = x: int | 0 <= x < 256

  /** Failures the engine reports.
      CannotMerge     TypeError raised by `merge` when `can_merge` rejects a source
      NotIterable     TypeError raised by `list.extend` on an object that is not iterable
      ListIndexNotInt TypeError raised when a string key is assigned into a sequence node
      NoAttribute     AttributeError: the value reached has no namespace helper
      ConfigKeyError  an absent key read as an attribute */
  datatype Error =
    | CannotMerge
    | NotIterable
    | ListIndexNotInt
    | NoAttribute
    | ConfigKeyError(key: string)

  /** A Python value. `PDict` and `PList` are plain containers (a `dict`, a
      `list` or tuple); `NDict` and `NList` are configuration nodes, which are
      a `dict` and a `list` too, and carry a context. Dictionary keys keep
      their insertion order in `keys`. */
  datatype Py =
    | PNone
    | PBool(b: bool)
    | PInt(i: int)
    | PStr(s: string)
    | PBytes(bytes: seq<byte>)
    | PType(name: string, definesIter: bool)
    | PObject(id: nat)
    | PDict(keys: seq<string>, vals: map<string, Py>)
    | PList(items: seq<Py>)
    | NDict(keys: seq<string>, vals: map<string, Py>, ctx: Context)
    | NList(items: seq<Py>, ctx: Context)

  /** `isinstance(v, dict)` */
  predicate IsDict(v: Py) {
    v.PDict? || v.NDict?
  }

  /** `isinstance(v, Mergable)` */
  predicate IsNode(v: Py) {
    v.NDict? || v.NList?
  }

  /** `isinstance(v, list)`: plain sequences and sequence nodes */
  predicate IsList(v: Py) {
    v.PList? || v.NList?
  }

  /** Python truthiness: `bool(v)`. Type objects and opaque objects are true. */
  predicate Truthy(v: Py) {
    match v
    case PNone => false
    case PBool(b) => b
    case PInt(i) => i != 0
    case PStr(s) => s != []
    case PBytes(bs) => bs != []
    case PType(_, _) => true
    case PObject(_) => true
    case PDict(ks, _) => ks != []
    case PList(xs) => xs != []
    case NDict(ks, _, _) => ks != []
    case NList(xs, _) => xs != []
  }

  /** `hasattr(v, '__iter__')`: strings, bytes and containers have it, and so
      does a class object whose class defines `__iter__`. */
  predicate HasIterAttr(v: Py) {
    match v
    case PStr(_) => true
    case PBytes(_) => true
    case PType(_, definesIter) => definesIter
    case PDict(_, _) => true
    case PList(_) => true
    case NDict(_, _, _) => true
    case NList(_, _) => true
    case _ => false
  }

  /** What iterating over `v` yields, or None when `iter(v)` raises TypeError:
      the characters of a string, the integers of a bytes object, the keys of
      a dictionary in order, the elements of a sequence. */
  function Iteration(v: Py): (r: Option<seq<Py>>)
    ensures r.Some? ==> HasIterAttr(v) && !v.PType?
    ensures HasIterAttr(v) && !v.PType? ==> r.Some?
  {
    match v
    case PStr(s) => Some(seq(|s|, i requires 0 <= i < |s| => PStr([s[i]])))
    case PBytes(bs) => Some(seq(|bs|, i requires 0 <= i < |bs| => PInt(bs[i] as int)))
    case PDict(ks, _) => Some(seq(|ks|, i requires 0 <= i < |ks| => PStr(ks[i])))
    case NDict(ks, _, _) => Some(seq(|ks|, i requires 0 <= i < |ks| => PStr(ks[i])))
    case PList(xs) => Some(xs)
    case NList(xs, _) => Some(xs)
    case _ => None
  }

  /** The keys are pairwise distinct and are exactly the domain of the map:
      what an (ordered) Python dictionary always satisfies. */
  predicate DictShape(keys: seq<string>, vals: map<string, Py>) {
    && (forall i, j :: 0 <= i < j < |keys| ==> keys[i] != keys[j])
    && (forall k :: k in vals ==> k in keys)
    && (forall i :: 0 <= i < |keys| ==> keys[i] in vals)
  }

  /** A value that a Python program can actually hold: every dictionary in it
      has the dictionary shape. */
  predicate WF(v: Py)
    decreases v
  {
    match v
    case PDict(ks, m) => DictShape(ks, m) && forall k {:trigger WF(m[k])} :: k in m ==> WF(m[k])
    case NDict(ks, m, _) => DictShape(ks, m) && forall k {:trigger WF(m[k])} :: k in m ==> WF(m[k])
    case PList(xs) => forall i {:trigger WF(xs[i])} :: 0 <= i < |xs| ==> WF(xs[i])
    case NList(xs, _) => forall i {:trigger WF(xs[i])} :: 0 <= i < |xs| ==> WF(xs[i])
    case _ => true
  }

  /** Data as the text loader produces it: no configuration node anywhere. */
  predicate Plain(v: Py)
    decreases v
  {
    match v
    case PDict(_, m) => forall k :: k in m ==> Plain(m[k])
    case PList(xs) => forall i :: 0 <= i < |xs| ==> Plain(xs[i])
    case NDict(_, _, _) => false
    case NList(_, _) => false
    case _ => true
  }

  /** The external text loader (`load_string`): text and a context in, well-formed
      structured data out. It is a parameter of the model, not defined by it. */
  type Loader = f: (string, Context) -> Py | forall s, c :: WF(f(s, c))
    witness (s: string, c: Context) => PNone
}
