/** Normalising checkpoint metadata: from a graph of host objects to a JSON-shaped tree.

    The host's values may share objects and may contain themselves.  Normalising walks them with the
    set of containers under way, and bounds depth, sizes and string lengths. */
module MetadataNormalization {
  import opened Prelude
  import opened Metadata

  const MAX_DEPTH: nat := 16
  const MAX_ITEMS: nat := 1000
  const MAX_STRING: nat := 65536
  const MAX_KEY: nat := 255

  datatype Key = StrKey(s: string) | OtherKey

  /** A host value: a scalar, something that is never allowed, or a container by its identity. */
  datatype Ref =
    | NoneRef | BoolRef(b: bool) | IntRef(i: int) | FloatRef(r: real) | InfiniteRef
    | StrRef(s: string) | OtherRef | Container(id: nat)

  datatype Node = Mapping(entries: seq<(Key, Ref)>) | Sequence(items: seq<Ref>)

  type Heap = map<nat, Node>

  function Measure(depth: nat): nat {
    if depth > MAX_DEPTH then 0 else MAX_DEPTH + 1 - depth
  }

  /** With `checks` false, the set of containers under way is not looked at. */
  function Normalize(heap: Heap, v: Ref, depth: nat, seen: set<nat>, checks: bool): Option<Json>
    decreases Measure(depth), 0
  {
    if depth > MAX_DEPTH then None
    else
      match v
      case NoneRef => Some(Null)
      case BoolRef(b) => Some(Bool(b))
      case IntRef(i) => Some(Int(i))
      case FloatRef(r) => Some(Float(r))
      case InfiniteRef => None
      case StrRef(s) => if |s| > MAX_STRING then None else Some(Str(s))
      case OtherRef => None
      case Container(id) =>
        if id !in heap || (checks && id in seen) then None
        else
          match heap[id]
          case Mapping(entries) =>
            if |entries| > MAX_ITEMS then None
            else
              (match NormalizeEntries(heap, entries, depth + 1, seen + {id}, checks)
               case None => None
               case Some(fields) => Some(Object(fields)))
          case Sequence(items) =>
            if |items| > MAX_ITEMS then None
            else
              (match NormalizeItems(heap, items, depth + 1, seen + {id}, checks)
               case None => None
               case Some(list) => Some(List(list)))
  }

  function NormalizeItems(heap: Heap, items: seq<Ref>, depth: nat, seen: set<nat>, checks: bool): Option<seq<Json>>
    decreases Measure(depth), |items| + 1
  {
    if items == [] then Some([])
    else
      match NormalizeItems(heap, Front(items), depth, seen, checks)
      case None => None
      case Some(list) =>
        match Normalize(heap, Last(items), depth, seen, checks)
        case None => None
        case Some(j) => Some(list + [j])
  }

  function NormalizeEntries(
      heap: Heap, entries: seq<(Key, Ref)>, depth: nat, seen: set<nat>, checks: bool): Option<seq<Field>>
    decreases Measure(depth), |entries| + 1
  {
    if entries == [] then Some([])
    else
      match NormalizeEntries(heap, Front(entries), depth, seen, checks)
      case None => None
      case Some(fields) =>
        var (key, v) := Last(entries);
        if key.OtherKey? || |key.s| > MAX_KEY then None
        else
          match Normalize(heap, v, depth, seen, checks)
          case None => None
          case Some(j) => Some(fields + [Field(key.s, j)])
  }

  // ----- the walk, with one set of containers under way -----

  class Walk {
    var seen: set<nat>

    constructor ()
      ensures seen == {}
    {
      seen := {};
    }

    /** Whatever the outcome, the set is afterwards what it was. */
    method NormalizeValue(heap: Heap, v: Ref, depth: nat) returns (result: Option<Json>)
      modifies this
      ensures result == Normalize(heap, v, depth, old(seen), true) && seen == old(seen)
      decreases Measure(depth), 0
    {
      if depth > MAX_DEPTH {
        return None;
      }
      match v {
        case NoneRef => return Some(Null);
        case BoolRef(b) => return Some(Bool(b));
        case IntRef(i) => return Some(Int(i));
        case FloatRef(r) => return Some(Float(r));
        case InfiniteRef => return None;
        case StrRef(s) => return if |s| > MAX_STRING then None else Some(Str(s));
        case OtherRef => return None;
        case Container(id) =>
          if id !in heap || id in seen {
            return None;
          }
          match heap[id] {
            case Mapping(entries) =>
              if |entries| > MAX_ITEMS {
                return None;
              }
              seen := seen + {id};
              var fields := NormalizeMapping(heap, entries, depth + 1);
              seen := seen - {id};
              return match fields case None => None case Some(fs) => Some(Object(fs));
            case Sequence(items) =>
              if |items| > MAX_ITEMS {
                return None;
              }
              seen := seen + {id};
              var list := NormalizeSequence(heap, items, depth + 1);
              seen := seen - {id};
              return match list case None => None case Some(js) => Some(List(js));
          }
      }
    }

    method NormalizeMapping(heap: Heap, entries: seq<(Key, Ref)>, depth: nat) returns (result: Option<seq<Field>>)
      modifies this
      ensures result == NormalizeEntries(heap, entries, depth, old(seen), true) && seen == old(seen)
      decreases Measure(depth), |entries| + 1
    {
      var normalized: seq<Field> := [];
      for i := 0 to |entries|
        invariant seen == old(seen)
        invariant NormalizeEntries(heap, entries[..i], depth, seen, true) == Some(normalized)
      {
        assert Front(entries[..i + 1]) == entries[..i] && Last(entries[..i + 1]) == entries[i];
        var (key, v) := entries[i];
        if key.OtherKey? || |key.s| > MAX_KEY {
          EntriesStop(heap, entries, i + 1, depth, seen, true);
          return None;
        }
        var nested := NormalizeValue(heap, v, depth);
        if nested.None? {
          EntriesStop(heap, entries, i + 1, depth, seen, true);
          return None;
        }
        normalized := normalized + [Field(key.s, nested.value)];
      }
      assert entries[..|entries|] == entries;
      return Some(normalized);
    }

    method NormalizeSequence(heap: Heap, items: seq<Ref>, depth: nat) returns (result: Option<seq<Json>>)
      modifies this
      ensures result == NormalizeItems(heap, items, depth, old(seen), true) && seen == old(seen)
      decreases Measure(depth), |items| + 1
    {
      var normalized: seq<Json> := [];
      for i := 0 to |items|
        invariant seen == old(seen)
        invariant NormalizeItems(heap, items[..i], depth, seen, true) == Some(normalized)
      {
        assert Front(items[..i + 1]) == items[..i] && Last(items[..i + 1]) == items[i];
        var nested := NormalizeValue(heap, items[i], depth);
        if nested.None? {
          ItemsStop(heap, items, i + 1, depth, seen, true);
          return None;
        }
        normalized := normalized + [nested.value];
      }
      assert items[..|items|] == items;
      return Some(normalized);
    }
  }

  /** A rejected part rejects the whole. */
  lemma {:induction false} EntriesStop(
      heap: Heap, entries: seq<(Key, Ref)>, n: nat, depth: nat, seen: set<nat>, checks: bool)
    requires n <= |entries| && NormalizeEntries(heap, entries[..n], depth, seen, checks).None?
    ensures NormalizeEntries(heap, entries, depth, seen, checks).None?
  {
    if n == |entries| {
      assert entries[..n] == entries;
    } else {
      assert Front(entries)[..n] == entries[..n];
      EntriesStop(heap, Front(entries), n, depth, seen, checks);
    }
  }

  lemma {:induction false} ItemsStop(heap: Heap, items: seq<Ref>, n: nat, depth: nat, seen: set<nat>, checks: bool)
    requires n <= |items| && NormalizeItems(heap, items[..n], depth, seen, checks).None?
    ensures NormalizeItems(heap, items, depth, seen, checks).None?
  {
    if n == |items| {
      assert items[..n] == items;
    } else {
      assert Front(items)[..n] == items[..n];
      ItemsStop(heap, Front(items), n, depth, seen, checks);
    }
  }

  lemma {:induction false} ItemRejected(heap: Heap, items: seq<Ref>, k: nat, depth: nat, seen: set<nat>, checks: bool)
    requires k < |items| && Normalize(heap, items[k], depth, seen, checks).None?
    ensures NormalizeItems(heap, items, depth, seen, checks).None?
  {
    assert Last(items[..k + 1]) == items[k];
    ItemsStop(heap, items, k + 1, depth, seen, checks);
  }

  lemma {:induction false} EntryRejected(
      heap: Heap, entries: seq<(Key, Ref)>, k: nat, depth: nat, seen: set<nat>, checks: bool)
    requires k < |entries| && Normalize(heap, entries[k].1, depth, seen, checks).None?
    ensures NormalizeEntries(heap, entries, depth, seen, checks).None?
  {
    assert Last(entries[..k + 1]) == entries[k];
    EntriesStop(heap, entries, k + 1, depth, seen, checks);
  }

  // ----- the cycle check never changes the outcome -----

  function Children(node: Node): seq<Ref> {
    match node
    case Mapping(entries) => seq(|entries|, i requires 0 <= i < |entries| => entries[i].1)
    case Sequence(items) => items
  }

  /** Every container of the set has a child in the set. */
  ghost predicate Endless(heap: Heap, s: set<nat>) {
    forall id :: id in s ==> id in heap && ChildIn(heap[id], s)
  }

  ghost predicate ChildIn(node: Node, s: set<nat>) {
    exists k :: 0 <= k < |Children(node)| && Children(node)[k].Container? && Children(node)[k].id in s
  }

  lemma {:induction false} ChildRejected(heap: Heap, id: nat, k: nat, depth: nat, seen: set<nat>)
    requires id in heap && k < |Children(heap[id])|
    requires Normalize(heap, Children(heap[id])[k], depth + 1, seen + {id}, false).None?
    ensures Normalize(heap, Container(id), depth, seen, false).None?
  {
    match heap[id]
    case Mapping(entries) => EntryRejected(heap, entries, k, depth + 1, seen + {id}, false);
    case Sequence(items) => ItemRejected(heap, items, k, depth + 1, seen + {id}, false);
  }

  lemma EndlessChild(heap: Heap, s: set<nat>, id: nat) returns (k: nat)
    requires Endless(heap, s) && id in s
    ensures id in heap && k < |Children(heap[id])|
    ensures Children(heap[id])[k].Container? && Children(heap[id])[k].id in s
  {
    var node := heap[id];
    assert ChildIn(node, s);
    hide Endless;
    k :| 0 <= k < |Children(node)| && Children(node)[k].Container? && Children(node)[k].id in s;
  }

  /** Following an endless set down runs into the depth limit. */
  lemma {:induction false} EndlessIsRejected(heap: Heap, s: set<nat>, id: nat, depth: nat, seen: set<nat>)
    requires Endless(heap, s) && id in s
    ensures Normalize(heap, Container(id), depth, seen, false).None?
    decreases Measure(depth)
  {
    hide Endless, Children;
    if depth <= MAX_DEPTH {
      var k := EndlessChild(heap, s, id);
      hide Normalize;
      EndlessIsRejected(heap, s, Children(heap[id])[k].id, depth + 1, seen + {id});
      ChildRejected(heap, id, k, depth, seen);
    }
  }

  /** The containers under way, outermost first, each a child of the one before. */
  ghost predicate Path(heap: Heap, path: seq<nat>) {
    && (forall k :: 0 <= k < |path| ==> path[k] in heap)
    && forall k :: 0 <= k < |path| - 1 ==> Container(path[k + 1]) in Children(heap[path[k]])
  }

  ghost predicate Next(heap: Heap, path: seq<nat>, v: Ref) {
    Path(heap, path) && (path != [] ==> v in Children(heap[Last(path)]))
  }

  ghost function Ids(path: seq<nat>): set<nat> {
    set k | 0 <= k < |path| :: path[k]
  }

  /** Coming back to a container under way closes an endless set. */
  lemma {:induction false} LoopIsEndless(heap: Heap, path: seq<nat>, j: nat)
    requires j < |path| && Next(heap, path, Container(path[j]))
    ensures Endless(heap, Ids(path[j..]))
  {
    var s := Ids(path[j..]);
    forall id | id in s ensures id in heap && ChildIn(heap[id], s) {
      var k :| 0 <= k < |path[j..]| && path[j..][k] == id;
      var next := if j + k + 1 < |path| then path[j + k + 1] else path[j];
      assert path[j + k] == id && Container(next) in Children(heap[id]);
      assert next in s by {
        if j + k + 1 < |path| { assert path[j..][k + 1] == next; } else { assert path[j..][0] == next; }
      }
      var c :| 0 <= c < |Children(heap[id])| && Children(heap[id])[c] == Container(next);
    }
  }

  lemma {:induction false} CheckIsRedundantAt(heap: Heap, v: Ref, depth: nat, path: seq<nat>, other: set<nat>)
    requires Next(heap, path, v)
    ensures Normalize(heap, v, depth, Ids(path), true) == Normalize(heap, v, depth, other, false)
    decreases Measure(depth), 1
  {
    if depth <= MAX_DEPTH && v.Container? && v.id in heap {
      if v.id in Ids(path) {
        var j :| 0 <= j < |path| && path[j] == v.id;
        LoopIsEndless(heap, path, j);
        assert path[j..][0] == v.id;
        EndlessIsRejected(heap, Ids(path[j..]), v.id, depth, other);
      } else {
        ChildrenAgree(heap, v.id, depth, path, other);
      }
    }
  }

  lemma {:induction false} ChildrenAgree(heap: Heap, id: nat, depth: nat, path: seq<nat>, other: set<nat>)
    requires Next(heap, path, Container(id)) && id in heap && depth <= MAX_DEPTH && id !in Ids(path)
    ensures Normalize(heap, Container(id), depth, Ids(path), true)
            == Normalize(heap, Container(id), depth, other, false)
    decreases Measure(depth), 0
  {
    var longer := path + [id];
    assert Ids(longer) == Ids(path) + {id} by {
      assert forall k :: 0 <= k < |path| ==> longer[k] == path[k];
      assert longer[|path|] == id;
    }
    assert Path(heap, longer);
    match heap[id]
    case Mapping(entries) =>
      forall k | 0 <= k < |entries| ensures Next(heap, longer, entries[k].1) {
        assert Children(heap[id])[k] == entries[k].1;
      }
      EntriesAgree(heap, entries, depth + 1, longer, other + {id});
    case Sequence(items) =>
      forall k | 0 <= k < |items| ensures Next(heap, longer, items[k]) {}
      ItemsAgree(heap, items, depth + 1, longer, other + {id});
  }

  lemma {:induction false} ItemsAgree(heap: Heap, items: seq<Ref>, depth: nat, path: seq<nat>, other: set<nat>)
    requires forall k :: 0 <= k < |items| ==> Next(heap, path, items[k])
    ensures NormalizeItems(heap, items, depth, Ids(path), true) == NormalizeItems(heap, items, depth, other, false)
    decreases Measure(depth), |items| + 1
  {
    if items != [] {
      ItemsAgree(heap, Front(items), depth, path, other);
      CheckIsRedundantAt(heap, Last(items), depth, path, other);
    }
  }

  lemma {:induction false} EntriesAgree(
      heap: Heap, entries: seq<(Key, Ref)>, depth: nat, path: seq<nat>, other: set<nat>)
    requires forall k :: 0 <= k < |entries| ==> Next(heap, path, entries[k].1)
    ensures NormalizeEntries(heap, entries, depth, Ids(path), true)
            == NormalizeEntries(heap, entries, depth, other, false)
    decreases Measure(depth), |entries| + 1
  {
    if entries != [] {
      EntriesAgree(heap, Front(entries), depth, path, other);
      CheckIsRedundantAt(heap, Last(entries).1, depth, path, other);
    }
  }

  /** The set of containers under way rejects nothing that the depth limit would not reject too. */
  lemma {:induction false} CycleCheckIsRedundant(heap: Heap, v: Ref)
    ensures Normalize(heap, v, 0, {}, true) == Normalize(heap, v, 0, {}, false)
  {
    assert Ids([]) == {};
    CheckIsRedundantAt(heap, v, 0, [], {});
  }

  // ----- what is accepted -----

  /** The value, followed through its containers, is this tree. */
  ghost predicate Unfolds(heap: Heap, v: Ref, j: Json)
    decreases j
  {
    match j
    case Null => v.NoneRef?
    case Bool(b) => v == BoolRef(b)
    case Int(i) => v == IntRef(i)
    case Float(r) => v == FloatRef(r)
    case Str(s) => v == StrRef(s)
    case List(js) =>
      && v.Container? && v.id in heap && heap[v.id].Sequence? && |heap[v.id].items| == |js|
      && forall k :: 0 <= k < |js| ==> Unfolds(heap, heap[v.id].items[k], js[k])
    case Object(fs) =>
      && v.Container? && v.id in heap && heap[v.id].Mapping? && |heap[v.id].entries| == |fs|
      && forall k :: 0 <= k < |fs| ==>
           heap[v.id].entries[k].0 == StrKey(fs[k].key) && Unfolds(heap, heap[v.id].entries[k].1, fs[k].value)
  }

  /** The limits on a tree at a depth. */
  ghost predicate Within(j: Json, depth: nat)
    decreases j
  {
    && depth <= MAX_DEPTH
    && match j
       case Str(s) => |s| <= MAX_STRING
       case List(js) => |js| <= MAX_ITEMS && forall k :: 0 <= k < |js| ==> Within(js[k], depth + 1)
       case Object(fs) =>
         |fs| <= MAX_ITEMS && forall k :: 0 <= k < |fs| ==> |fs[k].key| <= MAX_KEY && Within(fs[k].value, depth + 1)
       case _ => true
  }

  lemma {:induction false} AcceptedUnfolds(heap: Heap, v: Ref, depth: nat, seen: set<nat>)
    requires Normalize(heap, v, depth, seen, false).Some?
    ensures var j := Normalize(heap, v, depth, seen, false).value; Unfolds(heap, v, j) && Within(j, depth)
    decreases Measure(depth), 0
  {
    if v.Container? {
      match heap[v.id]
      case Mapping(entries) => EntriesUnfold(heap, entries, depth + 1, seen + {v.id});
      case Sequence(items) => ItemsUnfold(heap, items, depth + 1, seen + {v.id});
    }
  }

  lemma {:induction false} ItemsUnfold(heap: Heap, items: seq<Ref>, depth: nat, seen: set<nat>)
    requires NormalizeItems(heap, items, depth, seen, false).Some?
    ensures var js := NormalizeItems(heap, items, depth, seen, false).value;
            |js| == |items| && forall k :: 0 <= k < |js| ==> Unfolds(heap, items[k], js[k]) && Within(js[k], depth)
    decreases Measure(depth), |items| + 1
  {
    if items != [] {
      ItemsUnfold(heap, Front(items), depth, seen);
      AcceptedUnfolds(heap, Last(items), depth, seen);
    }
  }

  lemma {:induction false} EntriesUnfold(heap: Heap, entries: seq<(Key, Ref)>, depth: nat, seen: set<nat>)
    requires NormalizeEntries(heap, entries, depth, seen, false).Some?
    ensures var fs := NormalizeEntries(heap, entries, depth, seen, false).value;
            && |fs| == |entries|
            && forall k :: 0 <= k < |fs| ==>
                 && entries[k].0 == StrKey(fs[k].key) && |fs[k].key| <= MAX_KEY
                 && Unfolds(heap, entries[k].1, fs[k].value) && Within(fs[k].value, depth)
    decreases Measure(depth), |entries| + 1
  {
    if entries != [] {
      EntriesUnfold(heap, Front(entries), depth, seen);
      AcceptedUnfolds(heap, Last(entries).1, depth, seen);
    }
  }

  lemma {:induction false} UnfoldedIsAccepted(heap: Heap, v: Ref, j: Json, depth: nat, seen: set<nat>)
    requires Unfolds(heap, v, j) && Within(j, depth)
    ensures Normalize(heap, v, depth, seen, false) == Some(j)
    decreases j, 0
  {
    match j
    case List(js) =>
      ItemsAccepted(heap, heap[v.id].items, j, |js|, depth + 1, seen + {v.id});
      assert heap[v.id].items[..|js|] == heap[v.id].items && js[..|js|] == js;
    case Object(fs) =>
      EntriesAccepted(heap, heap[v.id].entries, j, |fs|, depth + 1, seen + {v.id});
      assert heap[v.id].entries[..|fs|] == heap[v.id].entries && fs[..|fs|] == fs;
    case _ =>
  }

  lemma {:induction false} ItemsAccepted(heap: Heap, items: seq<Ref>, j: Json, n: nat, depth: nat, seen: set<nat>)
    requires j.List? && |items| == |j.items| && n <= |items|
    requires forall k :: 0 <= k < |items| ==> Unfolds(heap, items[k], j.items[k]) && Within(j.items[k], depth)
    ensures NormalizeItems(heap, items[..n], depth, seen, false) == Some(j.items[..n])
    decreases j, 0, n
  {
    hide Unfolds, Within, Normalize;
    if n > 0 {
      ItemsAccepted(heap, items, j, n - 1, depth, seen);
      UnfoldedIsAccepted(heap, items[n - 1], j.items[n - 1], depth, seen);
      assert Front(items[..n]) == items[..n - 1] && j.items[..n] == j.items[..n - 1] + [j.items[n - 1]];
    }
  }

  lemma {:induction false} EntriesAccepted(
      heap: Heap, entries: seq<(Key, Ref)>, j: Json, n: nat, depth: nat, seen: set<nat>)
    requires j.Object? && |entries| == |j.fields| && n <= |entries|
    requires forall k :: 0 <= k < |entries| ==>
               && entries[k].0 == StrKey(j.fields[k].key) && |j.fields[k].key| <= MAX_KEY
               && Unfolds(heap, entries[k].1, j.fields[k].value) && Within(j.fields[k].value, depth)
    ensures NormalizeEntries(heap, entries[..n], depth, seen, false) == Some(j.fields[..n])
    decreases j, 0, n
  {
    hide Unfolds, Within, Normalize;
    if n > 0 {
      EntriesAccepted(heap, entries, j, n - 1, depth, seen);
      UnfoldedIsAccepted(heap, entries[n - 1].1, j.fields[n - 1].value, depth, seen);
      assert Front(entries[..n]) == entries[..n - 1] && j.fields[..n] == j.fields[..n - 1] + [j.fields[n - 1]];
    }
  }

  /** Normalising accepts exactly the values that unfold to a tree within the limits, and returns
      that tree; so a value that contains itself is rejected, and shared containers are copied. */
  lemma {:induction false} NormalizationIsExact(heap: Heap, v: Ref, j: Json)
    ensures Normalize(heap, v, 0, {}, true) == Some(j) <==> Unfolds(heap, v, j) && Within(j, 0)
  {
    CycleCheckIsRedundant(heap, v);
    if Normalize(heap, v, 0, {}, false) == Some(j) { AcceptedUnfolds(heap, v, 0, {}); }
    if Unfolds(heap, v, j) && Within(j, 0) { UnfoldedIsAccepted(heap, v, j, 0, {}); }
  }

  /** Host mappings do not repeat a key. */
  ghost predicate MappingsKeyed(heap: Heap) {
    forall id, i, j :: id in heap && heap[id].Mapping? && 0 <= i < j < |heap[id].entries| ==>
      heap[id].entries[i].0 != heap[id].entries[j].0
  }

  /** And the tree is one that the comparison form tells apart from every other. */
  lemma {:induction false} UnfoldedIsWellKeyed(heap: Heap, v: Ref, j: Json)
    requires MappingsKeyed(heap) && Unfolds(heap, v, j)
    ensures WellKeyed(j)
    decreases j
  {
    match j
    case List(js) =>
      forall k | 0 <= k < |js| ensures WellKeyed(js[k]) { UnfoldedIsWellKeyed(heap, heap[v.id].items[k], js[k]); }
    case Object(fs) =>
      forall k | 0 <= k < |fs| ensures WellKeyed(fs[k].value) {
        UnfoldedIsWellKeyed(heap, heap[v.id].entries[k].1, fs[k].value);
      }
      forall a, b | 0 <= a < b < |fs| ensures fs[a].key != fs[b].key {
        assert heap[v.id].entries[a].0 != heap[v.id].entries[b].0;
      }
    case _ =>
  }
}
