/** For which annotations validation is exactly membership. */
module SchemaExactness {
  import opened Prelude
  import opened Schema

  /** Some value passes for the annotation. */
  predicate HasValue(t: PyType)
    decreases t
  {
    match t
    case LiteralT(values) => values != []
    case UnionT(members) => exists i :: 0 <= i < |members| && HasValue(members[i])
    case TypedDictT(fields) => forall i :: 0 <= i < |fields| ==> HasValue(fields[i].annotation)
    case _ => true
  }

  /** No `None`, and no dictionary that can have an entry, wherever a value can get to. */
  predicate Tight(t: PyType)
    decreases t
  {
    match t
    case NoneT => false
    case ListT(item) => Tight(item)
    case DictT(value) => !HasValue(value)
    case UnionT(members) => forall i :: 0 <= i < |members| ==> Tight(members[i])
    case TypedDictT(fields) => !HasValue(t) || forall i :: 0 <= i < |fields| ==> Tight(fields[i].annotation)
    case _ => true
  }

  datatype Kind = ListKind | DictKind | UnionKind | OtherKind

  function KindOf(t: PyType): Kind {
    match t
    case ListT(_) => ListKind
    case DictT(_) => DictKind
    case TypedDictT(_) => DictKind
    case UnionT(_) => UnionKind
    case _ => OtherKind
  }

  /** Field names are distinct, unions are flat, and a list or dictionary that is not tight is the only
      one of its kind in its union. */
  predicate Tidy(t: PyType)
    decreases t
  {
    match t
    case ListT(item) => Tidy(item)
    case DictT(value) => Tidy(value)
    case UnionT(members) =>
      && (forall i :: 0 <= i < |members| ==> Tidy(members[i]) && !members[i].UnionT?)
      && (forall i, j :: 0 <= i < |members| && 0 <= j < |members| && i != j && !Tight(members[i])
                         && KindOf(members[i]) != OtherKind ==>
            KindOf(members[j]) != KindOf(members[i]))
    case TypedDictT(fields) =>
      && (forall i :: 0 <= i < |fields| ==> Tidy(fields[i].annotation))
      && (forall i, j :: 0 <= i < j < |fields| ==> fields[i].name != fields[j].name)
    case _ => true
  }

  // ----- tight annotations -----

  lemma {:induction false} NothingFits(t: PyType, v: Value)
    requires !HasValue(t)
    ensures !Fits(t, v)
    decreases t
  {
    match t
    case UnionT(members) =>
      forall i | 0 <= i < |members| ensures !Fits(members[i], v) { NothingFits(members[i], v); }
    case TypedDictT(fields) =>
      var i :| 0 <= i < |fields| && !HasValue(fields[i].annotation);
      if v.Dict? {
        var found := Lookup(v.entries, StrKey(fields[i].name));
        if found.Some? { NothingFits(fields[i].annotation, found.value); }
        assert !FieldFits(fields[i], v);
      }
    case _ =>
  }

  lemma {:induction false} TightBelongs(t: PyType, v: Value)
    requires Tight(t) && Fits(t, v)
    ensures Belongs(t, v)
    decreases t
  {
    match t
    case ListT(item) =>
      forall i | 0 <= i < |v.items| ensures Belongs(item, v.items[i]) { TightBelongs(item, v.items[i]); }
    case DictT(value) =>
      if v.entries != [] { NothingFits(value, v.entries[0].value); }
    case UnionT(members) =>
      var i :| 0 <= i < |members| && Fits(members[i], v);
      TightBelongs(members[i], v);
    case TypedDictT(fields) =>
      if !HasValue(t) {
        NothingFits(t, v);
      } else {
        forall i | 0 <= i < |fields|
          ensures Lookup(v.entries, StrKey(fields[i].name)).Some?
                  && Belongs(fields[i].annotation, Lookup(v.entries, StrKey(fields[i].name)).value)
        {
          assert FieldFits(fields[i], v);
          TightBelongs(fields[i].annotation, Lookup(v.entries, StrKey(fields[i].name)).value);
        }
      }
    case _ =>
  }

  // ----- annotations that are not -----

  function DictOf(fields: seq<FieldT>, values: seq<Value>): (entries: seq<Entry>)
    requires |fields| == |values|
  {
    if fields == [] then []
    else [Entry(StrKey(fields[0].name), values[0])] + DictOf(fields[1..], values[1..])
  }

  lemma {:induction false} DictOfAt(fields: seq<FieldT>, values: seq<Value>, i: nat)
    requires |fields| == |values| && i < |fields|
    requires forall j, k :: 0 <= j < k < |fields| ==> fields[j].name != fields[k].name
    ensures Lookup(DictOf(fields, values), StrKey(fields[i].name)) == Some(values[i])
  {
    var entries := DictOf(fields, values);
    assert entries[1..] == DictOf(fields[1..], values[1..]);
    if i > 0 { DictOfAt(fields[1..], values[1..], i - 1); }
  }

  /** A dictionary of the named values fits, or belongs, as its values do. */
  lemma {:induction false} RecordOf(fields: seq<FieldT>, values: seq<Value>)
    requires |fields| == |values| && forall j, k :: 0 <= j < k < |fields| ==> fields[j].name != fields[k].name
    ensures var v := Dict(DictOf(fields, values));
            && (Fits(TypedDictT(fields), v) <==>
                  forall i :: 0 <= i < |fields| ==> Fits(fields[i].annotation, values[i]))
            && (Belongs(TypedDictT(fields), v) <==>
                  forall i :: 0 <= i < |fields| ==> Belongs(fields[i].annotation, values[i]))
  {
    var v := Dict(DictOf(fields, values));
    forall i | 0 <= i < |fields| ensures Lookup(v.entries, StrKey(fields[i].name)) == Some(values[i]) {
      DictOfAt(fields, values, i);
    }
    hide DictOf, Lookup;
    forall i | 0 <= i < |fields| ensures FieldFits(fields[i], v) <==> Fits(fields[i].annotation, values[i]) {}
  }

  /** A value that passes. */
  lemma {:induction false} Sample(t: PyType) returns (v: Value)
    requires HasValue(t) && Tidy(t)
    ensures Fits(t, v)
    decreases t, 0
  {
    match t
    case StrT => v := Str("");
    case IntT => v := Int(0);
    case FloatT => v := Int(0);
    case BoolT => v := Bool(true);
    case NoneT => v := Null;
    case LiteralT(values) => v := Str(values[0]);
    case ListT(_) => v := List([]);
    case DictT(_) => v := Dict([]);
    case UnionT(members) =>
      var i :| 0 <= i < |members| && HasValue(members[i]);
      v := Sample(members[i]);
    case TypedDictT(fields) =>
      var values := Samples(fields);
      v := Dict(DictOf(fields, values));
      RecordOf(fields, values);
  }

  lemma {:induction false} Samples(fields: seq<FieldT>) returns (values: seq<Value>)
    requires forall i :: 0 <= i < |fields| ==> HasValue(fields[i].annotation) && Tidy(fields[i].annotation)
    ensures |values| == |fields| && forall i :: 0 <= i < |fields| ==> Fits(fields[i].annotation, values[i])
    decreases fields, 1
  {
    if fields == [] {
      values := [];
    } else {
      var first := Sample(fields[0].annotation);
      var rest := Samples(fields[1..]);
      values := [first] + rest;
    }
  }

  ghost predicate OfKind(kind: Kind, v: Value) {
    match kind
    case ListKind => v.List?
    case DictKind => v.Dict?
    case OtherKind => v.Opaque?
    case UnionKind => true
  }

  lemma OtherKindsDoNotBelong(t: PyType, v: Value)
    requires !t.UnionT? && (v.List? || v.Dict? || v.Opaque?) && !(v.List? && t.ListT?)
    requires v.Dict? ==> KindOf(t) != DictKind
    ensures !Belongs(t, v)
  {}

  /** What one member of a tidy union lets through belongs to no other. */
  lemma {:induction false} UnionLeaks(members: seq<PyType>, i: nat, v: Value)
    requires Tidy(UnionT(members)) && i < |members| && !Tight(members[i])
    requires !Belongs(members[i], v) && OfKind(KindOf(members[i]), v)
    ensures !Belongs(UnionT(members), v)
  {
    hide Tight, Fits;
    forall j | 0 <= j < |members| ensures !Belongs(members[j], v) {
      if j != i {
        assert !members[i].UnionT? && !members[j].UnionT?;
        assert KindOf(members[i]) != OtherKind ==> KindOf(members[j]) != KindOf(members[i]);
        OtherKindsDoNotBelong(members[j], v);
      }
    }
  }

  /** A value of the annotation's kind that passes and does not belong. */
  lemma {:induction false} Leak(t: PyType) returns (v: Value)
    requires Tidy(t) && !Tight(t)
    ensures Fits(t, v) && !Belongs(t, v) && OfKind(KindOf(t), v)
    decreases t
  {
    match t
    case NoneT => v := Opaque(0);
    case ListT(item) =>
      var inner := Leak(item);
      v := List([inner]);
      assert !Belongs(item, v.items[0]);
    case DictT(value) =>
      var inner := Sample(value);
      v := Dict([Entry(OtherKey(0), inner)]);
      assert !v.entries[0].key.StrKey?;
    case UnionT(members) =>
      var i :| 0 <= i < |members| && !Tight(members[i]);
      v := Leak(members[i]);
      hide Tight, Tidy, Belongs;
      UnionLeaks(members, i, v);
    case TypedDictT(fields) =>
      var i :| 0 <= i < |fields| && !Tight(fields[i].annotation);
      var values := Samples(fields);
      var inner := Leak(fields[i].annotation);
      hide Tight, Belongs, Fits;
      v := Dict(DictOf(fields, values[i := inner]));
      RecordOf(fields, values[i := inner]);
      assert values[i := inner][i] == inner;
  }

  // ----- the condition -----

  ghost predicate Exact(t: PyType) {
    forall v, path :: Issues(v, CompileOrEmpty(t), path) == [] <==> Belongs(t, v)
  }

  /** A tight annotation is validated exactly, on every value. */
  lemma {:induction false} TightIsExact(t: PyType)
    requires Tight(t)
    ensures Exact(t)
  {
    forall v, path ensures Issues(v, CompileOrEmpty(t), path) == [] <==> Belongs(t, v) {
      CompileExact(t, v, path);
      if Fits(t, v) { TightBelongs(t, v); } else if Belongs(t, v) { MembersFit(t, v); }
    }
  }

  /** Among tidy annotations no others are. */
  lemma {:induction false} ExactIff(t: PyType)
    requires Tidy(t)
    ensures Exact(t) <==> Tight(t)
  {
    if Tight(t) {
      TightIsExact(t);
    } else {
      var v := Leak(t);
      CompileExact(t, v, []);
    }
  }

  /** Outside them a second dictionary in a union may take in what the first one lets through. */
  lemma OpenDictionaryCovers()
    ensures var t := UnionT([DictT(IntT), TypedDictT([])]); Exact(t) && !Tight(t)
  {
    var t := UnionT([DictT(IntT), TypedDictT([])]);
    forall v, path ensures Issues(v, CompileOrEmpty(t), path) == [] <==> Belongs(t, v) {
      CompileExact(t, v, path);
      assert v.Dict? ==> Belongs(t.members[1], v);
      assert !v.Dict? ==> !Fits(t.members[0], v) && !Fits(t.members[1], v);
      if Belongs(t, v) { MembersFit(t, v); }
    }
    assert !Tight(t.members[0]);
  }
}
