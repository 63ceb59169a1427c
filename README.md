# pymlconf merge engine in Dafny

pymlconf keeps application configuration as a tree. Mapping nodes (`MergableDict`, and `Root`, which is one) and sequence nodes (`MergableList`) hold scalar leaves and further nodes. Every node carries a *context*: the substitution variables that are handed to the YAML loader.

New data comes in as plain Python structures or as YAML text, and is merged into the tree in place. There are two merge rules:

- **Mapping nodes** merge deeply. Every source key is stored. An existing node that can absorb the new value is merged in place. Anything else is replaced by a converted copy.
- **Sequence nodes** are replaced wholesale.

The conversion layer (`isiterable`, `make_mergable_if_possible`) wraps raw containers into nodes. A namespace helper (`_ensure_namespaces`) creates empty mapping nodes along a key path.

The model has seven modules:

- `Values` defines the datatype `Py` for every value the engine handles. It covers:
  - Python scalars, strings, bytes, class objects and opaque objects;
  - plain dictionaries and sequences;
  - the two node kinds, each with its context.

  A dictionary keeps its insertion order as a key sequence beside a map. `WF` says that every dictionary in a value has distinct keys that are exactly its map's domain.
- `Conversion` contains:
  - `isiterable` and `make_mergable_if_possible`, as `IsIterable` and `Convert`;
  - `Replacement`, the value a mapping node stores when it does not merge in place;
  - `ToPlain`, the inverse of `Convert` on plain data.
- `Merging` states every merge rule as a function over values:
  - `can_merge` as `CanMerge`;
  - the two `_merge` methods as `ListMerge` and `DictMergeFrom`/`MergeSlot`;
  - `merge` as `MergeOne`/`MergeAll`;
  - construction as `Construct`;
  - `_ensure_namespaces`, as `EnsureNamespaces`;
  - `__getattr__`, as `GetAttr`.

  A Python merge can raise after it has already changed part of the tree. So each merge yields an `Outcome`: the tree as it then stands, plus the error if one was raised.
- `MergeLaws`, `NamespaceLaws` and `Remerge` prove the engine's properties about those functions:
  - additivity;
  - insertion order;
  - deep merge;
  - replacement;
  - list replacement;
  - shape errors;
  - left-to-right application of sources;
  - conversion round trips;
  - copy;
  - namespace creation;
  - when a merge cannot fail;
  - re-merge idempotence.
- `Config` is the object view. A class `Node` has the fields the Python objects update in place. Its methods `Merge`, `MergeMapping`, `MergeSequence`, `EnsureNamespaces`, `SetItem`, `GetAttribute` and `Copy` work step by step as the Python methods do. Each is proved to leave the node exactly as the matching function of `Merging` says.
- `Scenarios` replays these concrete runs:
  - the repository's own test runs (`test_root.py`);
  - a scalar replacing a mapping and a mapping replacing a scalar;
  - `[1, 2, 3]` merged with `[4]` giving `[4]`.

External inputs:

- The YAML loader `load_string` is a parameter of type `Loader`: any function from text and context to well-formed data.

Behaviour as written: where the documented behaviour and the code differ, the model follows the code.

- `MergableList._merge` stores the source elements as they are. It does not convert them into nodes. A sequence of mappings therefore holds plain dictionaries after a merge into an existing sequence node. `Remerge.ReMergeUnwrapsListElements` shows the consequence: merging the same document twice is not idempotent once a sequence holds containers. Python's `==` still holds between the two trees, because a mapping node compares equal to the plain dictionary with the same items; the change shows in attribute access: `root.b[0].x` works after the first merge and raises `AttributeError` after the second. The documented claim that identical re-merging leaves the tree unchanged is proved for sources whose sequences hold no containers (`Remerge.MergeIdempotent`).
- `MergableList.can_merge` accepts any true value that has `__iter__`. That includes dictionaries, which merge as their key list. It also includes strings, but `merge` parses every string source first, so only a string the loader returns (a YAML document that is a bare string) merges as its characters (`MergeLaws.TextSource`); a mapping node rejects such a string with `TypeError`. It also includes class objects whose class defines `__iter__`. For those, `extend` raises after the list was already emptied.
- A string merged into a nested sequence node is parsed by the loader, because `merge` parses every string source.
- `copy` constructs `ConfigDict`/`ConfigList`, names the module never defines. The model takes the evident intent: a node of the same kind with equal contents and the same context. `MergeLaws.CopySequence` shows that this is also what building a fresh sequence node from the copied node gives. `MergeLaws.CopyMapping` shows the same for a mapping node whose entries are all nodes or values that are not containers, which is what the merge stores (`MergeLaws.DictMergeKeepsWrapped`). A plain container stored with `self[k] = x` is not covered: building a fresh node from the copied node would wrap it, while the model's copy keeps it as it is.
- `_ensure_namespaces` inserts `ConfigNamespace`, which is also undefined. It is modelled as an empty mapping node carrying the parent's context.

## Model

| member | source | states |
|---|---|---|
| `Values.Iteration` | pymlconf/models.py:189-191 | iterating a value succeeds exactly when it has `__iter__` and is not a class object, which is when `extend` accepts it |
| `Conversion.IsIterable` | pymlconf/models.py:11-14 | a value is iterable exactly when it has `__iter__` and is not a string, bytes or a class object |
| `Conversion.Convert` | pymlconf/models.py:73-89 | every iterable value becomes a node carrying the given context, and every other value is returned as it is; the entries and elements are stated by `ConvertShape`, and `ConvertRoundTrip` shows `ToPlain` inverts it |
| `Conversion.Replacement` | pymlconf/models.py:146-150 | a node is stored as it is, anything else as its conversion; either way what is stored is a node or not a container |
| `Conversion.ConvertShape` | pymlconf/models.py:73-89 | a dictionary becomes a mapping node with the same keys in the same order and the given context, each entry a node kept as it is or a converted value; another iterable becomes a sequence node of the same length whose elements are the conversions; any other value is returned unchanged |
| `Conversion.ConvertWF` | pymlconf/models.py:73-89 | conversion maps well-formed data to well-formed data |
| `Conversion.ConvertWraps` | pymlconf/models.py:73-89 | converting plain data leaves no plain container anywhere and gives every node the given context |
| `Conversion.ConvertRoundTrip` | pymlconf/models.py:73-89 | unwrapping the conversion of plain data gives the data back: conversion loses nothing |
| `Conversion.ConvertIdempotent` | pymlconf/models.py:73-89 | converting an already converted value changes nothing |
| `Merging.CanMerge` | pymlconf/models.py:135-187 | both `can_merge` methods (lines 135-136 and 186-187): whatever either node kind accepts is not `None` and has `__iter__`; the exact acceptance rules are stated by `CanMergeMapping` and `CanMergeSequence` |
| `Merging.ListMerge` | pymlconf/models.py:189-191 | the sequence node keeps its context; it succeeds exactly when the source can be iterated and then holds exactly the source's elements in order; otherwise it is left empty with the iteration error |
| `Merging.Put` | pymlconf/models.py:126 | storing under a key: an existing key keeps its position, a new one is appended, exactly that key changes and the context stays |
| `Merging.MergeSlot` | pymlconf/models.py:142-150 | one pass of the key loop can fail only by merging into an existing node that accepts the value, and always stores a node or a value that is not a container |
| `Merging.DictMergeFrom` | pymlconf/models.py:138-150 | the mapping merge keeps the node's kind and context, and the old key sequence is a prefix of the new one |
| `Merging.MergeOne` | pymlconf/models.py:91-113 | a merge keeps the node's kind and context |
| `Merging.MergeAll` | pymlconf/models.py:99-113 | merging several sources keeps the node's kind and context |
| `Merging.Construct` | pymlconf/models.py:22-35 | construction yields a node of the requested kind carrying the given context |
| `Merging.EnsureNamespaces` | pymlconf/models.py:115-123 | the node keeps its kind and context; a value that is not a node has no such helper and fails with no attribute; on success the value returned is a node |
| `Merging.GetAttr` | pymlconf/models.py:152-155 | reading a key succeeds exactly when it is present, giving its entry; otherwise it raises `ConfigKeyError` with that key |
| `MergeLaws.CanMergeMapping` | pymlconf/models.py:135-136 | a mapping node accepts exactly the dictionaries and never `None` |
| `MergeLaws.CanMergeSequence` | pymlconf/models.py:186-187 | a sequence node rejects every false value and accepts exactly the true values with `__iter__`, non-empty dictionaries and strings included |
| `MergeLaws.MergeRejectsShape` | pymlconf/models.py:107-113 | on the normalised source (text loaded with the node's context, anything else as given), unless it is text that loads to a false value: the merge raises `TypeError` when `can_merge` rejects it and leaves the node untouched; otherwise it is the node's own `_merge` on that source |
| `MergeLaws.TextSource` | pymlconf/models.py:99-105 | text that loads to a false value is skipped with no change and no error; text that loads to other data that is not text merges that data; text that loads to non-empty text raises `TypeError` on a mapping node and gives a sequence node the loaded text's characters |
| `MergeLaws.ListMergeReplaces` | pymlconf/models.py:189-191 | merging a non-empty sequence into a sequence node yields exactly the source's elements, whatever the node held, so the length is the source's length |
| `MergeLaws.ListMergeTakesDictKeys` | pymlconf/models.py:186-191 | a non-empty dictionary merged into a sequence node succeeds and leaves the node holding the dictionary's keys, as strings, in order |
| `MergeLaws.ListMergeClassObject` | pymlconf/models.py:186-191 | a class object whose class defines `__iter__` passes `can_merge`, then `extend` raises after the node was emptied |
| `MergeLaws.PutShape` | pymlconf/models.py:126 | storing under a key keeps a dictionary's shape |
| `MergeLaws.SlotLocal` | pymlconf/models.py:142-150 | what one loop pass stores under a key depends only on the entry under that key |
| `MergeLaws.DictMergeFromValues` | pymlconf/models.py:138-150 | from any point of the loop on: no key is removed, only source keys are added, keys not yet visited keep their values, and on success each visited key holds the merge of its original entry with the source value |
| `MergeLaws.DictMergeAdditive` | pymlconf/models.py:138-150 | the mapping merge is additive: every old key stays, only source keys appear, on success every source key is present holding the merge of its old entry with the source value, and keys the source does not mention keep their values |
| `MergeLaws.DictMergeFromOrder` | pymlconf/models.py:138-150 | on success the keys are the old keys in their old order, followed by the source's new keys in the source's order |
| `MergeLaws.DictMergeFromShape` | pymlconf/models.py:138-150 | the mapping merge keeps the node a well-shaped ordered dictionary, on success and on failure |
| `MergeLaws.GetAttrAfterMerge` | pymlconf/models.py:152-155 | after a successful merge every source key can be read as an attribute; a key in neither the node nor the source raises `ConfigKeyError` |
| `MergeLaws.MergeAllAppend` | pymlconf/models.py:99-113 | merging `a + b` is merging `a` and then, if that raised nothing, `b` |
| `MergeLaws.MergeAllSingle` | pymlconf/models.py:91-113 | `merge(x)` with one source is one step of the driver |
| `MergeLaws.FillFrom` | pymlconf/models.py:138-150 | merging a dictionary into a fresh node stores each key's converted value in the source's order and never fails |
| `MergeLaws.ConstructMapping` | pymlconf/models.py:81-82 | `MergableDict(data=d, context=ctx)` never fails and is exactly the conversion of `d` |
| `MergeLaws.ConstructSequence` | pymlconf/models.py:83-87 | `MergableList(data=[converted elements], context=ctx)` never fails and is exactly the conversion of the sequence |
| `MergeLaws.DictMergeKeepsWrapped` | pymlconf/models.py:146-150 | the mapping merge only stores nodes and values that are not containers |
| `MergeLaws.CopyMapping` | pymlconf/models.py:163-164 | building a fresh mapping node with the same context from a mapping node whose entries are wrapped gives that node itself |
| `MergeLaws.CopySequence` | pymlconf/models.py:193-194 | building a fresh sequence node with the same context from a sequence node gives that node itself |
| `NamespaceLaws.EnsureEmptyPath` | pymlconf/models.py:122-123 | an empty path returns the node itself, unchanged |
| `NamespaceLaws.EnsureOnEmpty` | pymlconf/models.py:115-123 | on an empty root, the path is created as a chain of nested mapping nodes, one per segment, all with the root's context, and the innermost empty namespace is returned |
| `NamespaceLaws.EnsureReaches` | pymlconf/models.py:115-123 | on success the value returned is reached by following the path in the updated tree |
| `NamespaceLaws.EnsureLocal` | pymlconf/models.py:117-121 | only the first segment's entry changes, even when a deeper step fails: a missing segment is appended holding the chain for the rest of the path and never fails; an existing one keeps its position and becomes what the helper makes of it with the rest of the path, whose result or error is returned; every other entry keeps its value |
| `NamespaceLaws.EnsureOffPath` | pymlconf/models.py:115-123 | every value reached by a key path that leaves the ensured path at some segment is still reached, unchanged, afterwards, at any depth |
| `NamespaceLaws.EnsureExisting` | pymlconf/models.py:118-121 | when the whole path exists and ends in a node, the tree is unchanged and that node is returned |
| `Remerge.MergeIntoListFreeSucceeds` | pymlconf/models.py:138-150 | merging a dictionary into a mapping node with no sequence node below it never fails: errors come only from sequence nodes |
| `Remerge.ListMergeIdempotent` | pymlconf/models.py:189-191 | merging the same source into a sequence node a second time finds it as the first merge left it and keeps it |
| `Remerge.DictMergeNoop` | pymlconf/models.py:138-150 | a mapping merge in which every key already holds what it would store changes nothing |
| `Remerge.SlotIdempotent` | pymlconf/models.py:142-150 | a key merged twice with the same value, whose sequences hold no containers, keeps what the first pass stored |
| `Remerge.DictIdempotent` | pymlconf/models.py:138-150 | a mapping merge repeated with the same such dictionary keeps the tree the first one produced |
| `Remerge.ConvertAbsorbs` | pymlconf/models.py:146-150 | merging such a dictionary into its own conversion changes nothing |
| `Remerge.MergeIdempotent` | pymlconf/models.py:91-113 | merging the same dictionary, whose sequences hold no containers, twice in a row gives the tree and outcome of merging it once |
| `Remerge.ReMergeUnwrapsListElements` | pymlconf/models.py:189-191 | re-merging a sequence of mappings is not idempotent: the first merge stores a mapping node, the second the plain dictionary (equal under Python's `==`, but no longer readable by attribute) |
| `Config.Node.constructor` | pymlconf/models.py:22-35 | a node of the given kind and context, with no content |
| `Config.Node.New` | pymlconf/models.py:22-35 | `__init__(data, context)` leaves a fresh well-shaped node as the construction function says, with the error a failing merge raised |
| `Config.Node.SetItem` | pymlconf/models.py:126 | `self[k] = x` updates the fields as storing under a key says, and keeps the node well-shaped |
| `Config.Node.Merge` | pymlconf/models.py:91-113 | the driver loop leaves the node, and returns the error, exactly as merging the sources in order says, and keeps the node well-shaped |
| `Config.Node.MergeMapping` | pymlconf/models.py:138-150 | the in-place loop over the source keys leaves the node exactly as the mapping merge says, stopping at the first nested error |
| `Config.Node.MergeSequence` | pymlconf/models.py:189-191 | clearing then extending leaves the node exactly as the sequence merge says |
| `Config.Node.EnsureNamespaces` | pymlconf/models.py:115-123 | the in-place helper leaves the node and returns the namespace as the namespace function says |
| `Config.Node.GetAttribute` | pymlconf/models.py:152-155 | reading an attribute succeeds exactly when the key is present, giving its entry; otherwise it raises `ConfigKeyError` with that key |
| `Config.Node.Copy` | pymlconf/models.py:163-164 | a fresh node of the same kind holding the same contents and context |
| `Config.CopyThenMerge` | pymlconf/models.py:163-164 | merging into a copy leaves the original unchanged, and the copy ends as the merge of the original's contents |
| `Scenarios.RootConstructorRun` | pymlconf/tests/test_root.py:24-46 | the root built from the first document is its conversion; merging then adds `a.a2` beside `a.a1`, and a later document replaces `b` by `[4]` |
| `Scenarios.RootRunReads` | pymlconf/tests/test_root.py:25-46 | the values the test reads back at each stage: `a.a1` is 1, `a.a2` is 2, and `b` is `[1, 2, 3]` and then `[4]` |
| `Scenarios.DottedKeyRun` | pymlconf/tests/test_root.py:48-54 | a dotted key stays one literal key; its first segment is not an attribute |
| `Scenarios.NamespaceBesideEntry` | pymlconf/models.py:115-123 | ensuring `server`, `token` on `{server: {host: 1}}` creates only `server.token`, returns it, and keeps `server.host` |
| `Scenarios.ScalarReplacesMapping` | pymlconf/models.py:146-150 | a scalar source value replaces a mapping node |
| `Scenarios.MappingReplacesScalar` | pymlconf/models.py:146-150 | a mapping source value replaces a scalar, converted into a mapping node |
| `Scenarios.SequenceReplaceRun` | pymlconf/tests/test_root.py:41-46 | `[1, 2, 3]` merged with `[4]` is `[4]` |

## Left out

- YAML parsing and context substitution (`load_string`): external library code. The loader is a parameter that returns well-formed data. It is total: a `load_string` that raises (a YAML syntax error, or a `%(name)s` placeholder whose variable is missing from the context) is not modelled. The tags `!!python/name` and `!!python/object` are parser behaviour.
- `Root.load_file`: file I/O. It also refers to names the module never defines.
- `DeferredRoot`: a process-wide lazy singleton over a foreign proxy class whose source is not part of this model.
- `MergableDict.__setattr__`: Python attribute plumbing. Only item assignment `self[k] = x` is modelled (`Config.Node.SetItem`). An assignment such as `root.a.a3 = 3` to a key that is absent writes an instance attribute instead, and is not modelled.
- `Mergable.empty`: a trivial class method.
- `copy.deepcopy`: Dafny values are immutable, which gives the same independence.
- Aliasing of nested nodes: nested nodes are values inside their parent. So a node object shared by two parents, and mutated through one of them, is not modelled. Only the root is an object, `Config.Node`. This also leaves out merging a node into itself: `node.merge({'b': node.b})` reaches `node.b.merge(node.b)`, whose `del self[:]` empties the very list `extend` then reads, so `b` ends empty in Python while the model, merging values, keeps `b` as it was.
- Attribute lookup shadowing: `getattr(node, key)` finds a dictionary or list method before `__getattr__` when the key names one (`keys`, `items`, `copy`, …), and finds the instance attribute `context` (set at `__init__`) before an entry named `context`. The model reads every key as an entry, in `GetAttr` and `EnsureNamespaces`.
- Dictionary keys are strings only. YAML can also produce integer, boolean or null keys, which the model does not represent.
- Class objects: `hasattr(cls, '__iter__')` is a flag of the value. Iterating a class object always fails in the model, so a class whose metaclass makes it iterable is not covered.
- Other Python values: sets, generators, floats and other objects are not modelled. Tuples and lists are both `PList`. Any other object is an opaque, true value without `__iter__`.
- The text of the `TypeError` message: only the kind of error is modelled.
