/** Checkpoint metadata and its comparison form.

    A metadata tree is JSON-shaped.  Two trees are compared through tagged nested tuples, and the
    tuples are compared with the host language's own equality, for which true, 1 and 1.0 are all
    equal.  The tags are what keeps the comparison exact. */
module Metadata {
  import opened Prelude
  import opened KeyOrder

  datatype Json =
    | Null
    | Bool(b: bool)
    | Int(i: int)
    | Float(r: real)
    | Str(s: string)
    | List(items: seq<Json>)
    | Object(fields: seq<Field>)

  /** Objects keep their insertion order. */
  datatype Field = Field(key: string, value: Json)

  ghost predicate DistinctKeys(fields: seq<Field>) {
    forall i, j :: 0 <= i < j < |fields| ==> fields[i].key != fields[j].key
  }

  /** A tree whose objects are mappings: no object repeats a key. */
  ghost predicate WellKeyed(j: Json) {
    match j
    case List(items) => forall i | 0 <= i < |items| :: WellKeyed(items[i])
    case Object(fields) =>
      DistinctKeys(fields) && forall i | 0 <= i < |fields| :: WellKeyed(fields[i].value)
    case _ => true
  }

  /** The same typed tree: equal scalars of the same type, lists in order, objects as mappings. */
  ghost predicate SameTree(a: Json, b: Json)
    decreases a
  {
    match a
    case List(xs) =>
      b.List? && |xs| == |b.items| && forall i | 0 <= i < |xs| :: SameTree(xs[i], b.items[i])
    case Object(fs) => b.Object? && SameFields(fs, b.fields)
    case _ => a == b
  }

  ghost predicate SameFields(fs: seq<Field>, gs: seq<Field>)
    decreases fs
  {
    && (forall i | 0 <= i < |fs| :: FieldMatched(fs[i], gs))
    && (forall k | 0 <= k < |gs| :: exists i | 0 <= i < |fs| :: fs[i].key == gs[k].key)
  }

  ghost predicate FieldMatched(f: Field, gs: seq<Field>)
    decreases f
  {
    exists k | 0 <= k < |gs| :: f.key == gs[k].key && SameTree(f.value, gs[k].value)
  }

  // ----- comparison form -----

  datatype Canon = Atom(scalar: Json) | Tuple(parts: seq<Canon>)

  datatype Row = Row(key: string, value: Canon)

  function Tag(name: string, payload: seq<Canon>): Canon {
    Tuple([Atom(Str(name))] + payload)
  }

  function Canonicalize(j: Json): Canon {
    match j
    case Null => Tag("null", [])
    case Bool(_) => Tag("bool", [Atom(j)])
    case Int(_) => Tag("int", [Atom(j)])
    case Float(_) => Tag("float", [Atom(j)])
    case Str(_) => Tag("str", [Atom(j)])
    case List(items) => Tag("list", [Tuple(CanonicalizeAll(items))])
    case Object(fields) => Tag("object", [Tuple(Pairs(SortRows(RowsOf(fields))))])
  }

  function CanonicalizeAll(items: seq<Json>): (r: seq<Canon>)
    ensures |r| == |items|
    ensures forall i :: 0 <= i < |items| ==> r[i] == Canonicalize(items[i])
  {
    if items == [] then [] else [Canonicalize(items[0])] + CanonicalizeAll(items[1..])
  }

  function RowsOf(fields: seq<Field>): (r: seq<Row>)
    ensures |r| == |fields|
    ensures forall i :: 0 <= i < |fields| ==> r[i] == Row(fields[i].key, Canonicalize(fields[i].value))
  {
    if fields == [] then []
    else [Row(fields[0].key, Canonicalize(fields[0].value))] + RowsOf(fields[1..])
  }

  function Pairs(rows: seq<Row>): (r: seq<Canon>)
    ensures |r| == |rows|
    ensures forall i :: 0 <= i < |rows| ==> r[i] == Tuple([Atom(Str(rows[i].key)), rows[i].value])
  {
    seq(|rows|, i requires 0 <= i < |rows| => Tuple([Atom(Str(rows[i].key)), rows[i].value]))
  }

  // ----- key order -----

  ghost predicate Sorted(rows: seq<Row>) {
    forall i, j :: 0 <= i < j < |rows| ==> !Before(rows[j].key, rows[i].key)
  }

  ghost predicate DistinctRows(rows: seq<Row>) {
    forall i, j :: 0 <= i < j < |rows| ==> rows[i].key != rows[j].key
  }

  function RowKey(row: Row): string {
    row.key
  }

  function SortRows(rows: seq<Row>): (r: seq<Row>)
    ensures multiset(r) == multiset(rows)
  {
    Sort(RowKey, rows)
  }

  lemma SortSorted(rows: seq<Row>)
    ensures Sorted(SortRows(rows))
  {
    SortOrdered(RowKey, rows);
  }

  lemma DistinctSort(rows: seq<Row>)
    requires DistinctRows(rows)
    ensures DistinctRows(SortRows(rows))
  {
    SortApart(RowKey, rows);
  }

  // ----- equality of the host language -----

  function Number(j: Json): Option<real> {
    match j
    case Bool(b) => Some(if b then 1.0 else 0.0)
    case Int(i) => Some(i as real)
    case Float(r) => Some(r)
    case _ => None
  }

  /** Scalar equality: numbers of every type compare by value. */
  predicate LooseEq(a: Json, b: Json) {
    a == b || (Number(a).Some? && Number(a) == Number(b))
  }

  /** Equality of whole trees: dictionaries compare by key, whatever their order. */
  predicate HostEq(a: Json, b: Json)
    decreases a
  {
    match a
    case List(xs) => b.List? && |xs| == |b.items| && forall i | 0 <= i < |xs| :: HostEq(xs[i], b.items[i])
    case Object(fs) => b.Object? && |fs| == |b.fields| && forall i | 0 <= i < |fs| :: HostField(fs[i], b.fields)
    case _ => LooseEq(a, b)
  }

  predicate HostField(f: Field, gs: seq<Field>)
    decreases f
  {
    exists k | 0 <= k < |gs| :: gs[k].key == f.key && HostEq(f.value, gs[k].value)
  }

  lemma {:induction false} HostEqReflexive(a: Json)
    ensures HostEq(a, a)
    decreases a
  {
    match a
    case List(items) =>
      forall i | 0 <= i < |items| ensures HostEq(items[i], items[i]) { HostEqReflexive(items[i]); }
    case Object(fields) =>
      forall i | 0 <= i < |fields| ensures HostField(fields[i], fields) { HostEqReflexive(fields[i].value); }
    case _ =>
  }

  predicate CanonEq(a: Canon, b: Canon) {
    match a
    case Atom(x) => b.Atom? && LooseEq(x, b.scalar)
    case Tuple(xs) =>
      b.Tuple? && |xs| == |b.parts| && forall i | 0 <= i < |xs| :: CanonEq(xs[i], b.parts[i])
  }

  // ----- exactness -----

  ghost predicate HasKey(rows: seq<Row>, key: string) {
    exists r :: r in rows && r.key == key
  }

  ghost predicate KeysWithin(a: seq<Row>, b: seq<Row>) {
    forall r :: r in a ==> HasKey(b, r.key)
  }

  lemma TailKeysWithin(a: seq<Row>, b: seq<Row>)
    requires a != [] && b != [] && a[0].key == b[0].key
    requires DistinctRows(a) && KeysWithin(a, b)
    ensures KeysWithin(a[1..], b[1..])
  {
    forall r | r in a[1..] ensures HasKey(b[1..], r.key) {
      var i :| 0 <= i < |a[1..]| && a[1..][i] == r;
      assert r == a[i + 1];
      var s :| s in b && s.key == r.key;
      var k :| 0 <= k < |b| && b[k] == s;
      assert k > 0 && b[1..][k - 1] == s;
    }
  }

  /** Sorted rows with the same keys line up. */
  lemma {:induction false} SortedUnique(a: seq<Row>, b: seq<Row>)
    requires Sorted(a) && Sorted(b) && DistinctRows(a) && DistinctRows(b)
    requires KeysWithin(a, b) && KeysWithin(b, a)
    ensures |a| == |b| && forall i :: 0 <= i < |a| ==> a[i].key == b[i].key
  {
    if a != [] { assert a[0] in a; }
    if b != [] { assert b[0] in b; }
    if a != [] && b != [] {
      assert a[0].key == b[0].key by {
        BeforeTotal(a[0].key, b[0].key);
        assert a[0] in a && b[0] in b && HasKey(b, a[0].key) && HasKey(a, b[0].key);
      }
      TailKeysWithin(a, b);
      TailKeysWithin(b, a);
      SortedUnique(a[1..], b[1..]);
      forall i | 0 <= i < |a| ensures a[i].key == b[i].key {
        if i > 0 { assert a[i] == a[1..][i - 1] && b[i] == b[1..][i - 1]; }
      }
    }
  }

  /** Sorting keeps exactly the rows there were. */
  lemma SortKeepsRows(rows: seq<Row>)
    ensures forall r :: r in SortRows(rows) <==> r in rows
  {
    assert forall r :: r in SortRows(rows) <==> r in multiset(SortRows(rows));
  }

  ghost predicate RowsEq(a: seq<Row>, b: seq<Row>) {
    |a| == |b| && forall i :: 0 <= i < |a| ==> a[i].key == b[i].key && CanonEq(a[i].value, b[i].value)
  }

  ghost predicate Matched(r: Row, rows: seq<Row>) {
    exists s :: s in rows && r.key == s.key && CanonEq(r.value, s.value)
  }

  ghost predicate AllMatched(a: seq<Row>, b: seq<Row>) {
    forall r :: r in a ==> Matched(r, b)
  }

  lemma RowsEqMatched(a: seq<Row>, b: seq<Row>)
    requires RowsEq(a, b)
    ensures AllMatched(a, b) && KeysWithin(b, a)
  {
    forall r | r in a ensures Matched(r, b) {
      var p :| 0 <= p < |a| && a[p] == r;
      assert b[p] in b;
    }
    forall s | s in b ensures HasKey(a, s.key) {
      var p :| 0 <= p < |b| && b[p] == s;
      assert a[p] in a;
    }
  }

  lemma MatchedRowsEq(a: seq<Row>, b: seq<Row>)
    requires Sorted(a) && Sorted(b) && DistinctRows(a) && DistinctRows(b)
    requires AllMatched(a, b) && KeysWithin(b, a)
    ensures RowsEq(a, b)
  {
    forall r | r in a ensures HasKey(b, r.key) { assert Matched(r, b); }
    SortedUnique(a, b);
    forall i | 0 <= i < |a| ensures CanonEq(a[i].value, b[i].value) {
      assert a[i] in a && Matched(a[i], b);
      var s :| s in b && a[i].key == s.key && CanonEq(a[i].value, s.value);
      var k :| 0 <= k < |b| && b[k] == s;
      assert k == i;
    }
  }

  lemma SortedRowsEq(a: seq<Row>, b: seq<Row>)
    requires DistinctRows(a) && DistinctRows(b)
    ensures RowsEq(SortRows(a), SortRows(b)) <==> AllMatched(a, b) && KeysWithin(b, a)
  {
    var sa, sb := SortRows(a), SortRows(b);
    SortSorted(a); SortSorted(b);
    DistinctSort(a); DistinctSort(b);
    SortKeepsRows(a); SortKeepsRows(b);
    assert AllMatched(a, b) <==> AllMatched(sa, sb) by {
      assert forall r :: Matched(r, b) <==> Matched(r, sb);
    }
    assert KeysWithin(b, a) <==> KeysWithin(sb, sa) by {
      assert forall key :: HasKey(a, key) <==> HasKey(sa, key);
    }
    if RowsEq(sa, sb) { RowsEqMatched(sa, sb); }
    if AllMatched(sa, sb) && KeysWithin(sb, sa) { MatchedRowsEq(sa, sb); }
  }

  lemma PairsEq(a: seq<Row>, b: seq<Row>)
    ensures CanonEq(Tuple(Pairs(a)), Tuple(Pairs(b))) <==> RowsEq(a, b)
  {
    forall x: Row, y: Row
      ensures CanonEq(Tuple([Atom(Str(x.key)), x.value]), Tuple([Atom(Str(y.key)), y.value]))
              <==> x.key == y.key && CanonEq(x.value, y.value)
    {
      var p, q := [Atom(Str(x.key)), x.value], [Atom(Str(y.key)), y.value];
      assert CanonEq(p[0], q[0]) <==> x.key == y.key;
      if x.key == y.key && CanonEq(x.value, y.value) {
        assert forall i | 0 <= i < |p| :: CanonEq(p[i], q[i]);
      }
      if CanonEq(Tuple(p), Tuple(q)) {
        assert CanonEq(p[0], q[0]) && CanonEq(p[1], q[1]);
      }
    }
  }

  /** Tagged tuples are equal exactly when the tags and the payloads are. */
  lemma TagEq(m: string, p: seq<Canon>, n: string, q: seq<Canon>)
    ensures CanonEq(Tag(m, p), Tag(n, q)) <==>
            m == n && |p| == |q| && forall i | 0 <= i < |p| :: CanonEq(p[i], q[i])
  {
    var x, y := [Atom(Str(m))] + p, [Atom(Str(n))] + q;
    if CanonEq(Tuple(x), Tuple(y)) {
      assert CanonEq(x[0], y[0]);
      forall i | 0 <= i < |p| ensures CanonEq(p[i], q[i]) {
        assert CanonEq(x[i + 1], y[i + 1]);
      }
    }
    if m == n && |p| == |q| && forall i | 0 <= i < |p| :: CanonEq(p[i], q[i]) {
      forall i | 0 <= i < |x| ensures CanonEq(x[i], y[i]) {
        if i > 0 { assert x[i] == p[i - 1] && y[i] == q[i - 1]; }
      }
    }
  }

  function TagOf(j: Json): string {
    match j
    case Null => "null"
    case Bool(_) => "bool"
    case Int(_) => "int"
    case Float(_) => "float"
    case Str(_) => "str"
    case List(_) => "list"
    case Object(_) => "object"
  }

  function PayloadOf(j: Json): seq<Canon> {
    match j
    case Null => []
    case List(items) => [Tuple(CanonicalizeAll(items))]
    case Object(fields) => [Tuple(Pairs(SortRows(RowsOf(fields))))]
    case _ => [Atom(j)]
  }

  /** Comparison forms are equal exactly for equal typed trees, whatever the key order. */
  lemma {:induction false} CanonicalExact(a: Json, b: Json)
    requires WellKeyed(a) && WellKeyed(b)
    ensures CanonEq(Canonicalize(a), Canonicalize(b)) <==> SameTree(a, b)
    decreases a
  {
    var p, q := PayloadOf(a), PayloadOf(b);
    assert Canonicalize(a) == Tag(TagOf(a), p) && Canonicalize(b) == Tag(TagOf(b), q);
    TagEq(TagOf(a), p, TagOf(b), q);
    if TagOf(a) == TagOf(b) && p != [] && q != [] {
      assert (forall i | 0 <= i < |p| :: CanonEq(p[i], q[i])) <==> CanonEq(p[0], q[0]);
    }
    match a
    case List(xs) =>
      if b.List? {
        forall i | 0 <= i < |xs| && |xs| == |b.items|
          ensures CanonEq(CanonicalizeAll(xs)[i], CanonicalizeAll(b.items)[i]) <==> SameTree(xs[i], b.items[i])
        {
          CanonicalExact(xs[i], b.items[i]);
        }
      }
    case Object(fs) =>
      if b.Object? {
        ObjectExact(fs, b.fields);
      }
    case _ =>
  }

  lemma AllMatchedByIndex(x: seq<Row>, y: seq<Row>)
    ensures AllMatched(x, y) <==> forall i | 0 <= i < |x| :: Matched(x[i], y)
  {}

  lemma {:induction false} ObjectExact(fs: seq<Field>, gs: seq<Field>)
    requires DistinctKeys(fs) && DistinctKeys(gs)
    requires forall i | 0 <= i < |fs| :: WellKeyed(fs[i].value)
    requires forall k | 0 <= k < |gs| :: WellKeyed(gs[k].value)
    ensures CanonEq(Tuple(Pairs(SortRows(RowsOf(fs)))), Tuple(Pairs(SortRows(RowsOf(gs)))))
            <==> SameFields(fs, gs)
    decreases fs
  {
    hide CanonEq, SortRows, Pairs, Matched, FieldMatched, KeysWithin;
    var x, y := RowsOf(fs), RowsOf(gs);
    assert AllMatched(x, y) <==> forall i | 0 <= i < |fs| :: FieldMatched(fs[i], gs) by {
      forall i | 0 <= i < |fs| ensures Matched(x[i], y) <==> FieldMatched(fs[i], gs) {
        FieldExact(fs[i], gs);
      }
      AllMatchedByIndex(x, y);
    }
    assert CanonEq(Tuple(Pairs(SortRows(x))), Tuple(Pairs(SortRows(y)))) <==>
           AllMatched(x, y) && KeysWithin(y, x) by {
      PairsEq(SortRows(x), SortRows(y));
      SortedRowsEq(x, y);
    }
    FieldKeys(fs, gs);
  }

  lemma {:induction false} FieldExact(f: Field, gs: seq<Field>)
    requires WellKeyed(f.value) && forall k | 0 <= k < |gs| :: WellKeyed(gs[k].value)
    ensures Matched(Row(f.key, Canonicalize(f.value)), RowsOf(gs)) <==> FieldMatched(f, gs)
    decreases f
  {
    var r, y := Row(f.key, Canonicalize(f.value)), RowsOf(gs);
    forall k | 0 <= k < |gs| ensures CanonEq(r.value, y[k].value) <==> SameTree(f.value, gs[k].value) {
      CanonicalExact(f.value, gs[k].value);
    }
    if Matched(r, y) {
      var s :| s in y && r.key == s.key && CanonEq(r.value, s.value);
      var k :| 0 <= k < |y| && y[k] == s;
      assert f.key == gs[k].key && SameTree(f.value, gs[k].value);
    }
    if FieldMatched(f, gs) {
      var k :| 0 <= k < |gs| && f.key == gs[k].key && SameTree(f.value, gs[k].value);
      assert y[k] in y && r.key == y[k].key && CanonEq(r.value, y[k].value);
    }
  }

  lemma {:induction false} FieldKeys(fs: seq<Field>, gs: seq<Field>)
    ensures KeysWithin(RowsOf(gs), RowsOf(fs)) <==>
            forall k | 0 <= k < |gs| :: exists i | 0 <= i < |fs| :: fs[i].key == gs[k].key
  {
    var x, y := RowsOf(fs), RowsOf(gs);
    if KeysWithin(y, x) {
      forall k | 0 <= k < |gs| ensures exists i | 0 <= i < |fs| :: fs[i].key == gs[k].key {
        assert y[k] in y && HasKey(x, y[k].key);
        var r :| r in x && r.key == y[k].key;
        var i :| 0 <= i < |x| && x[i] == r;
        assert fs[i].key == gs[k].key;
      }
    }
    if forall k | 0 <= k < |gs| :: exists i | 0 <= i < |fs| :: fs[i].key == gs[k].key {
      forall s | s in y ensures HasKey(x, s.key) {
        var k :| 0 <= k < |y| && y[k] == s;
        assert gs[k].key == s.key;
        var i :| 0 <= i < |fs| && fs[i].key == gs[k].key;
        assert x[i] in x && x[i].key == s.key;
      }
    }
  }

  /** Without the tags the host equality would merge true, 1 and 1.0. */
  lemma UntaggedScalarsCollide()
    ensures CanonEq(Atom(Bool(true)), Atom(Int(1))) && CanonEq(Atom(Int(1)), Atom(Float(1.0)))
    ensures !CanonEq(Canonicalize(Bool(true)), Canonicalize(Int(1)))
    ensures !CanonEq(Canonicalize(Int(1)), Canonicalize(Float(1.0)))
  {
    CanonicalExact(Bool(true), Int(1));
    CanonicalExact(Int(1), Float(1.0));
  }
}
