/** Native schemas: compiling annotations, and checking values against what they compile to. */
module Schema {
  import opened Prelude
  import KeyOrder

  /** The annotations covered: primitives, string literals, lists, string-keyed dictionaries, unions,
      total typed dictionaries, and `None` as it occurs in optional types. */
  datatype PyType =
    | StrT | IntT | FloatT | BoolT | NoneT
    | LiteralT(values: seq<string>)
    | ListT(item: PyType)
    | DictT(value: PyType)
    | UnionT(members: seq<PyType>)
    | TypedDictT(fields: seq<FieldT>)

  datatype FieldT = FieldT(name: string, annotation: PyType)

  datatype Key = StrKey(s: string) | OtherKey(i: int)

  datatype Value =
    | Null | Bool(b: bool) | Int(i: int) | Float(r: real) | Str(s: string) | Opaque(i: int)
    | List(items: seq<Value>) | Tuple(items: seq<Value>)
    | Dict(entries: seq<Entry>)

  datatype Entry = Entry(key: Key, value: Value)

  /** A schema dictionary with the entries it has. */
  datatype Schema = Schema(
    anyOf: Alternatives,
    enumeration: Option<seq<string>>,
    expected: Option<string>,
    required: Option<seq<string>>,
    properties: Properties,
    additional: Option<Schema>,
    items: Option<Schema>)

  datatype Property = Property(name: string, schema: Schema)

  datatype Alternatives = NoAlternatives | Alternatives(all: seq<Schema>)

  datatype Properties = NoProperties | Properties(all: seq<Property>)

  const EMPTY := Schema(NoAlternatives, None, None, None, NoProperties, None, None)

  // ----- compiling -----

  function Compile(t: PyType): Option<Schema>
    decreases t, 0
  {
    match t
    case StrT => Some(EMPTY.(expected := Some("string")))
    case IntT => Some(EMPTY.(expected := Some("integer")))
    case FloatT => Some(EMPTY.(expected := Some("number")))
    case BoolT => Some(EMPTY.(expected := Some("boolean")))
    case NoneT => None
    case LiteralT(values) =>
      Some(EMPTY.(enumeration := Some(values), expected := if values == [] then None else Some("string")))
    case ListT(item) => Some(EMPTY.(expected := Some("array"), items := Compile(item)))
    case DictT(value) => Some(EMPTY.(expected := Some("object"), additional := Compile(value)))
    case UnionT(members) => Some(EMPTY.(anyOf := Alternatives(CompileAll(members))))
    case TypedDictT(fields) =>
      Some(EMPTY.(expected := Some("object"),
                  properties := Properties(CompileFields(fields)),
                  required := if fields == [] then None else Some(SortedNames(fields))))
  }

  /** `schema_for_type(...) or {}`. */
  function CompileOrEmpty(t: PyType): Schema
    decreases t, 1
  {
    match Compile(t) case Some(schema) => schema case None => EMPTY
  }

  function CompileAll(ts: seq<PyType>): (r: seq<Schema>)
    ensures |r| == |ts| && forall i :: 0 <= i < |ts| ==> r[i] == CompileOrEmpty(ts[i])
  {
    if ts == [] then [] else [CompileOrEmpty(ts[0])] + CompileAll(ts[1..])
  }

  function CompileFields(fields: seq<FieldT>): (r: seq<Property>)
    ensures |r| == |fields|
    ensures forall i :: 0 <= i < |fields| ==> r[i] == Property(fields[i].name, CompileOrEmpty(fields[i].annotation))
  {
    if fields == [] then []
    else [Property(fields[0].name, CompileOrEmpty(fields[0].annotation))] + CompileFields(fields[1..])
  }

  /** The field names, each once. */
  function NamesOf(fields: seq<FieldT>): (r: seq<string>)
    ensures forall n :: n in r <==> exists i :: 0 <= i < |fields| && fields[i].name == n
  {
    if fields == [] then [] else
      var rest := NamesOf(fields[1..]);
      if fields[0].name in rest then rest else [fields[0].name] + rest
  }

  function Name(s: string): string {
    s
  }

  function SortedNames(fields: seq<FieldT>): (r: seq<string>)
    ensures forall n :: n in r <==> exists i :: 0 <= i < |fields| && fields[i].name == n
  {
    KeyOrder.SortMembers(Name, NamesOf(fields));
    KeyOrder.Sort(Name, NamesOf(fields))
  }

  /** What the leaves compile to; string literals say their type beside their values. */
  lemma LeavesCompileTo(values: seq<string>)
    ensures Compile(StrT) == Some(EMPTY.(expected := Some("string")))
    ensures Compile(IntT) == Some(EMPTY.(expected := Some("integer")))
    ensures Compile(FloatT) == Some(EMPTY.(expected := Some("number")))
    ensures Compile(BoolT) == Some(EMPTY.(expected := Some("boolean")))
    ensures Compile(NoneT) == None
    ensures values != [] ==>
              Compile(LiteralT(values)) == Some(EMPTY.(enumeration := Some(values), expected := Some("string")))
    ensures Compile(LiteralT([])) == Some(EMPTY.(enumeration := Some([])))
  {}

  // ----- the order of required names -----

  ghost predicate InNameOrder(names: seq<string>) {
    forall i, j :: 0 <= i < j < |names| ==> KeyOrder.Before(names[i], names[j])
  }

  lemma {:induction false} NamesApart(fields: seq<FieldT>)
    ensures KeyOrder.KeysApart(Name, NamesOf(fields))
  {
    if fields != [] {
      NamesApart(fields[1..]);
      var rest := NamesOf(fields[1..]);
      forall i | 0 <= i < |rest| ensures rest[i] in rest {}
    }
  }

  /** The required names of a schema are in order, each once. */
  lemma {:induction false} RequiredInOrder(fields: seq<FieldT>)
    ensures InNameOrder(SortedNames(fields))
  {
    NamesApart(fields);
    KeyOrder.SortStrict(Name, NamesOf(fields));
    var r := SortedNames(fields);
    forall i, j | 0 <= i < j < |r| ensures KeyOrder.Before(r[i], r[j]) {
      assert r == KeyOrder.Sort(Name, NamesOf(fields));
      assert KeyOrder.Before(Name(r[i]), Name(r[j]));
    }
  }

  // ----- checking -----

  datatype PathStep = Member(key: Key) | Index(index: nat)

  type Path = seq<PathStep>

  datatype Issue =
    | NoMatch(path: Path)
    | NotOneOf(path: Path, values: seq<string>)
    | WrongType(path: Path, expected: string)
    | Missing(path: Path)

  predicate MatchesType(v: Value, expected: string) {
    if expected == "object" then v.Dict?
    else if expected == "array" then v.List? || v.Tuple?
    else if expected == "string" then v.Str?
    else if expected == "integer" then v.Int?
    else if expected == "number" then v.Int? || v.Float?
    else if expected == "boolean" then v.Bool?
    else if expected == "null" then v.Null?
    else true
  }

  function Lookup(entries: seq<Entry>, key: Key): Option<Value> {
    if entries == [] then None
    else if entries[0].key == key then Some(entries[0].value)
    else Lookup(entries[1..], key)
  }

  function Issues(v: Value, schema: Schema, path: Path): seq<Issue>
    decreases schema, 2, 0
  {
    if schema.anyOf.Alternatives? then
      if MatchesAny(v, schema, path) then [] else [NoMatch(path)]
    else if schema.enumeration.Some? && !(v.Str? && v.s in schema.enumeration.value) then
      [NotOneOf(path, schema.enumeration.value)]
    else if schema.expected.Some? && !MatchesType(v, schema.expected.value) then
      [WrongType(path, schema.expected.value)]
    else if schema.expected == Some("object") && v.Dict? then ObjectIssues(v.entries, schema, path)
    else if schema.expected == Some("array") && (v.List? || v.Tuple?) && schema.items.Some? then
      ItemIssues(v.items, schema.items.value, path, 0)
    else []
  }

  function ObjectIssues(entries: seq<Entry>, schema: Schema, path: Path): seq<Issue>
    decreases schema, 1, |(if schema.properties.Properties? then schema.properties.all else [])| + 1
  {
    (if schema.required.Some? then RequiredIssues(entries, schema.required.value, path) else [])
    + (if schema.properties.Properties? then PropertyIssues(entries, schema, path, 0) else [])
    + (if schema.additional.Some? then
         AdditionalIssues(entries, schema.additional.value, Known(schema.properties), path, 0)
       else [])
  }

  predicate MatchesAny(v: Value, schema: Schema, path: Path)
    requires schema.anyOf.Alternatives?
    decreases schema, 1, 0
  {
    exists i :: 0 <= i < |schema.anyOf.all| && Issues(v, schema.anyOf.all[i], path) == []
  }

  function RequiredIssues(entries: seq<Entry>, required: seq<string>, path: Path): seq<Issue> {
    if required == [] then []
    else (if Lookup(entries, StrKey(required[0])).None? then [Missing(path + [Member(StrKey(required[0]))])] else [])
         + RequiredIssues(entries, required[1..], path)
  }

  function PropertyIssues(entries: seq<Entry>, schema: Schema, path: Path, i: nat): seq<Issue>
    requires schema.properties.Properties? && i <= |schema.properties.all|
    decreases schema, 1, |schema.properties.all| - i
  {
    if i == |schema.properties.all| then []
    else
      var property := schema.properties.all[i];
      var key := StrKey(property.name);
      (match Lookup(entries, key)
       case None => []
       case Some(nested) => Issues(nested, property.schema, path + [Member(key)]))
      + PropertyIssues(entries, schema, path, i + 1)
  }

  function Known(properties: Properties): set<string> {
    match properties case NoProperties => {} case Properties(ps) => set p | p in ps :: p.name
  }

  function AdditionalIssues(entries: seq<Entry>, schema: Schema, known: set<string>, path: Path, i: nat): seq<Issue>
    requires i <= |entries|
    decreases schema, 3, |entries| - i
  {
    if i == |entries| then []
    else
      (if entries[i].key.StrKey? && entries[i].key.s in known then []
       else Issues(entries[i].value, schema, path + [Member(entries[i].key)]))
      + AdditionalIssues(entries, schema, known, path, i + 1)
  }

  function ItemIssues(items: seq<Value>, schema: Schema, path: Path, i: nat): seq<Issue>
    requires i <= |items|
    decreases schema, 3, |items| - i
  {
    if i == |items| then []
    else Issues(items[i], schema, path + [Index(i)]) + ItemIssues(items, schema, path, i + 1)
  }

  // ----- where issues are -----

  /** Every issue is reported at the place checked or below it. */
  ghost predicate Below(path: Path, issues: seq<Issue>) {
    forall issue :: issue in issues ==> path <= issue.path
  }

  lemma {:induction false} IssuesBelow(v: Value, schema: Schema, path: Path)
    ensures Below(path, Issues(v, schema, path))
    decreases schema, 2, 0
  {
    if schema.expected == Some("object") && v.Dict? {
      hide PropertyIssues, RequiredIssues, AdditionalIssues;
      if schema.required.Some? { RequiredBelow(v.entries, schema.required.value, path); }
      if schema.properties.Properties? { PropertiesBelow(v.entries, schema, path, 0); }
      if schema.additional.Some? {
        AdditionalBelow(v.entries, schema.additional.value, Known(schema.properties), path, 0);
      }
    } else if schema.items.Some? && (v.List? || v.Tuple?) {
      ItemsBelow(v.items, schema.items.value, path, 0);
    }
  }

  lemma BelowStep(path: Path, step: PathStep, issues: seq<Issue>)
    requires Below(path + [step], issues)
    ensures Below(path, issues)
  {
    forall issue | issue in issues ensures path <= issue.path {
      assert path == (path + [step])[..|path|];
    }
  }

  lemma {:induction false} RequiredBelow(entries: seq<Entry>, required: seq<string>, path: Path)
    ensures Below(path, RequiredIssues(entries, required, path))
  {
    if required != [] { RequiredBelow(entries, required[1..], path); }
  }

  lemma {:induction false} PropertiesBelow(entries: seq<Entry>, schema: Schema, path: Path, i: nat)
    requires schema.properties.Properties? && i <= |schema.properties.all|
    ensures Below(path, PropertyIssues(entries, schema, path, i))
    decreases schema, 1, |schema.properties.all| - i
  {
    if i < |schema.properties.all| {
      var property := schema.properties.all[i];
      var found := Lookup(entries, StrKey(property.name));
      PropertiesBelow(entries, schema, path, i + 1);
      if found.Some? {
        IssuesBelow(found.value, property.schema, path + [Member(StrKey(property.name))]);
        BelowStep(path, Member(StrKey(property.name)),
                  Issues(found.value, property.schema, path + [Member(StrKey(property.name))]));
      }
    }
  }

  lemma {:induction false} AdditionalBelow(entries: seq<Entry>, schema: Schema, known: set<string>, path: Path, i: nat)
    requires i <= |entries|
    ensures Below(path, AdditionalIssues(entries, schema, known, path, i))
    decreases schema, 3, |entries| - i
  {
    if i < |entries| {
      AdditionalBelow(entries, schema, known, path, i + 1);
      IssuesBelow(entries[i].value, schema, path + [Member(entries[i].key)]);
      BelowStep(path, Member(entries[i].key), Issues(entries[i].value, schema, path + [Member(entries[i].key)]));
    }
  }

  lemma {:induction false} ItemsBelow(items: seq<Value>, schema: Schema, path: Path, i: nat)
    requires i <= |items|
    ensures Below(path, ItemIssues(items, schema, path, i))
    decreases schema, 3, |items| - i
  {
    if i < |items| {
      ItemsBelow(items, schema, path, i + 1);
      IssuesBelow(items[i], schema, path + [Index(i)]);
      BelowStep(path, Index(i), Issues(items[i], schema, path + [Index(i)]));
    }
  }

  // ----- the accumulator the code appends to -----

  class IssueList {
    var issues: seq<Issue>

    constructor ()
      ensures issues == []
    {
      issues := [];
    }

    method Append(issue: Issue)
      modifies this
      ensures issues == old(issues) + [issue]
    {
      issues := issues + [issue];
    }
  }

  method CollectSchemaIssues(v: Value, schema: Schema, path: Path, into: IssueList)
    modifies into
    ensures into.issues == old(into.issues) + Issues(v, schema, path)
    decreases schema, 2
  {
    if schema.anyOf.Alternatives? {
      var matched := false;
      for i := 0 to |schema.anyOf.all|
        invariant into.issues == old(into.issues)
        invariant matched <==> exists k :: 0 <= k < i && Issues(v, schema.anyOf.all[k], path) == []
      {
        if !matched {
          var own := new IssueList();
          CollectSchemaIssues(v, schema.anyOf.all[i], path, own);
          matched := own.issues == [];
        }
      }
      if !matched {
        into.Append(NoMatch(path));
      }
      return;
    }
    if schema.enumeration.Some? && !(v.Str? && v.s in schema.enumeration.value) {
      into.Append(NotOneOf(path, schema.enumeration.value));
      return;
    }
    if schema.expected.Some? && !MatchesType(v, schema.expected.value) {
      into.Append(WrongType(path, schema.expected.value));
      return;
    }
    if schema.expected == Some("object") && v.Dict? {
      CollectObject(v.entries, schema, path, into);
    }
    if schema.expected == Some("array") && (v.List? || v.Tuple?) && schema.items.Some? {
      CollectItems(v.items, schema.items.value, path, into);
    }
  }

  method CollectObject(entries: seq<Entry>, schema: Schema, path: Path, into: IssueList)
    modifies into
    ensures into.issues == old(into.issues) + ObjectIssues(entries, schema, path)
    decreases schema, 1, 1
  {
    hide RequiredIssues, PropertyIssues, AdditionalIssues, Known;
    if schema.required.Some? {
      CollectRequired(entries, schema.required.value, path, into);
    }
    if schema.properties.Properties? {
      CollectProperties(entries, schema, path, into);
    }
    if schema.additional.Some? {
      CollectAdditional(entries, schema.additional.value, Known(schema.properties), path, into);
    }
  }

  method CollectRequired(entries: seq<Entry>, required: seq<string>, path: Path, into: IssueList)
    modifies into
    ensures into.issues == old(into.issues) + RequiredIssues(entries, required, path)
  {
    for i := 0 to |required|
      invariant into.issues + RequiredIssues(entries, required[i..], path)
                == old(into.issues) + RequiredIssues(entries, required, path)
    {
      assert required[i..][1..] == required[i + 1..];
      if Lookup(entries, StrKey(required[i])).None? {
        into.Append(Missing(path + [Member(StrKey(required[i]))]));
      }
    }
  }

  method CollectProperties(entries: seq<Entry>, schema: Schema, path: Path, into: IssueList)
    requires schema.properties.Properties?
    modifies into
    ensures into.issues == old(into.issues) + PropertyIssues(entries, schema, path, 0)
    decreases schema, 1, 0
  {
    for i := 0 to |schema.properties.all|
      invariant into.issues + PropertyIssues(entries, schema, path, i)
                == old(into.issues) + PropertyIssues(entries, schema, path, 0)
    {
      var property := schema.properties.all[i];
      var nested := Lookup(entries, StrKey(property.name));
      if nested.Some? {
        CollectSchemaIssues(nested.value, property.schema, path + [Member(StrKey(property.name))], into);
      }
    }
  }

  method CollectAdditional(
      entries: seq<Entry>, schema: Schema, known: set<string>, path: Path, into: IssueList)
    modifies into
    ensures into.issues == old(into.issues) + AdditionalIssues(entries, schema, known, path, 0)
    decreases schema, 3
  {
    for i := 0 to |entries|
      invariant into.issues + AdditionalIssues(entries, schema, known, path, i)
                == old(into.issues) + AdditionalIssues(entries, schema, known, path, 0)
    {
      if !(entries[i].key.StrKey? && entries[i].key.s in known) {
        CollectSchemaIssues(entries[i].value, schema, path + [Member(entries[i].key)], into);
      }
    }
  }

  method CollectItems(items: seq<Value>, schema: Schema, path: Path, into: IssueList)
    modifies into
    ensures into.issues == old(into.issues) + ItemIssues(items, schema, path, 0)
    decreases schema, 3
  {
    for i := 0 to |items|
      invariant into.issues + ItemIssues(items, schema, path, i)
                == old(into.issues) + ItemIssues(items, schema, path, 0)
    {
      CollectSchemaIssues(items[i], schema, path + [Index(i)], into);
    }
  }

  // ----- membership -----

  /** What an annotation means: integers count as floats, booleans not as integers, tuples as lists;
      a typed dictionary may have other keys besides. */
  ghost predicate Belongs(t: PyType, v: Value)
    decreases t
  {
    match t
    case StrT => v.Str?
    case IntT => v.Int?
    case FloatT => v.Int? || v.Float?
    case BoolT => v.Bool?
    case NoneT => v.Null?
    case LiteralT(values) => v.Str? && v.s in values
    case ListT(item) => (v.List? || v.Tuple?) && forall i :: 0 <= i < |v.items| ==> Belongs(item, v.items[i])
    case DictT(value) =>
      v.Dict? && forall i :: 0 <= i < |v.entries| ==> v.entries[i].key.StrKey? && Belongs(value, v.entries[i].value)
    case UnionT(members) => exists i :: 0 <= i < |members| && Belongs(members[i], v)
    case TypedDictT(fields) =>
      v.Dict? && forall i :: 0 <= i < |fields| ==>
        Lookup(v.entries, StrKey(fields[i].name)).Some?
        && Belongs(fields[i].annotation, Lookup(v.entries, StrKey(fields[i].name)).value)
  }

  /** What the compiled schema checks: keys of a dictionary may be anything, and `None` allows all. */
  ghost predicate Fits(t: PyType, v: Value)
    decreases t
  {
    match t
    case NoneT => true
    case ListT(item) => (v.List? || v.Tuple?) && forall i :: 0 <= i < |v.items| ==> Fits(item, v.items[i])
    case DictT(value) => v.Dict? && forall i :: 0 <= i < |v.entries| ==> Fits(value, v.entries[i].value)
    case UnionT(members) => exists i :: 0 <= i < |members| && Fits(members[i], v)
    case TypedDictT(fields) => v.Dict? && forall i :: 0 <= i < |fields| ==> FieldFits(fields[i], v)
    case _ => Belongs(t, v)
  }

  ghost predicate FieldFits(field: FieldT, v: Value)
    requires v.Dict?
    decreases field
  {
    var found := Lookup(v.entries, StrKey(field.name));
    found.Some? && Fits(field.annotation, found.value)
  }

  // ----- empty issue lists -----

  lemma {:induction false} RequiredClean(entries: seq<Entry>, required: seq<string>, path: Path)
    ensures RequiredIssues(entries, required, path) == [] <==>
              forall name :: name in required ==> Lookup(entries, StrKey(name)).Some?
  {
    if required != [] {
      RequiredClean(entries, required[1..], path);
      assert required == [required[0]] + required[1..];
    }
  }

  lemma {:induction false} PropertiesClean(entries: seq<Entry>, schema: Schema, path: Path, i: nat)
    requires schema.properties.Properties? && i <= |schema.properties.all|
    ensures PropertyIssues(entries, schema, path, i) == [] <==>
              forall k :: i <= k < |schema.properties.all| ==> PropertyClean(entries, schema.properties.all[k], path)
    decreases |schema.properties.all| - i
  {
    if i < |schema.properties.all| { PropertiesClean(entries, schema, path, i + 1); }
  }

  ghost predicate PropertyClean(entries: seq<Entry>, property: Property, path: Path) {
    var found := Lookup(entries, StrKey(property.name));
    found.Some? ==> Issues(found.value, property.schema, path + [Member(StrKey(property.name))]) == []
  }

  lemma {:induction false} AdditionalClean(entries: seq<Entry>, schema: Schema, path: Path, i: nat)
    requires i <= |entries|
    ensures AdditionalIssues(entries, schema, {}, path, i) == [] <==>
              forall k :: i <= k < |entries| ==> Issues(entries[k].value, schema, path + [Member(entries[k].key)]) == []
    decreases |entries| - i
  {
    if i < |entries| { AdditionalClean(entries, schema, path, i + 1); }
  }

  lemma {:induction false} ItemsClean(items: seq<Value>, schema: Schema, path: Path, i: nat)
    requires i <= |items|
    ensures ItemIssues(items, schema, path, i) == [] <==>
              forall k :: i <= k < |items| ==> Issues(items[k], schema, path + [Index(k)]) == []
    decreases |items| - i
  {
    if i < |items| { ItemsClean(items, schema, path, i + 1); }
  }

  // ----- compilation is exact -----

  /** Checking a value against a compiled annotation finds no issue exactly when the value fits it. */
  lemma {:induction false} CompileExact(t: PyType, v: Value, path: Path)
    ensures Issues(v, CompileOrEmpty(t), path) == [] <==> Fits(t, v)
    decreases t, 0
  {
    match t
    case ListT(item) => ListExact(item, v, path);
    case DictT(value) => DictExact(value, v, path);
    case UnionT(members) => UnionExact(members, v, path);
    case TypedDictT(fields) => TypedDictExact(fields, v, path);
    case LiteralT(values) =>
      if values == [] { assert !Fits(t, v); }
    case _ =>
  }

  lemma ListIssuesAre(item: PyType, v: Value, path: Path)
    ensures var issues := Issues(v, CompileOrEmpty(ListT(item)), path);
            if v.List? || v.Tuple? then
              issues == (if Compile(item).Some? then ItemIssues(v.items, CompileOrEmpty(item), path, 0) else [])
            else issues != []
  {}

  lemma {:induction false} ListExact(item: PyType, v: Value, path: Path)
    ensures Issues(v, CompileOrEmpty(ListT(item)), path) == [] <==> Fits(ListT(item), v)
    decreases item, 1
  {
    hide Issues, ItemIssues;
    ListIssuesAre(item, v, path);
    if v.List? || v.Tuple? {
      forall i | 0 <= i < |v.items|
        ensures Issues(v.items[i], CompileOrEmpty(item), path + [Index(i)]) == [] <==> Fits(item, v.items[i])
      {
        CompileExact(item, v.items[i], path + [Index(i)]);
      }
      ItemsClean(v.items, CompileOrEmpty(item), path, 0);
    }
  }

  lemma DictIssuesAre(value: PyType, v: Value, path: Path)
    ensures var issues := Issues(v, CompileOrEmpty(DictT(value)), path);
            if v.Dict? then
              issues == (if Compile(value).Some? then AdditionalIssues(v.entries, CompileOrEmpty(value), {}, path, 0)
                         else [])
            else issues != []
  {}

  lemma {:induction false} DictExact(value: PyType, v: Value, path: Path)
    ensures Issues(v, CompileOrEmpty(DictT(value)), path) == [] <==> Fits(DictT(value), v)
    decreases value, 1
  {
    hide Issues, AdditionalIssues;
    DictIssuesAre(value, v, path);
    if v.Dict? {
      forall i | 0 <= i < |v.entries|
        ensures Issues(v.entries[i].value, CompileOrEmpty(value), path + [Member(v.entries[i].key)]) == []
                <==> Fits(value, v.entries[i].value)
      {
        CompileExact(value, v.entries[i].value, path + [Member(v.entries[i].key)]);
      }
      AdditionalClean(v.entries, CompileOrEmpty(value), path, 0);
    }
  }

  lemma {:induction false} UnionExact(members: seq<PyType>, v: Value, path: Path)
    ensures Issues(v, CompileOrEmpty(UnionT(members)), path) == [] <==> Fits(UnionT(members), v)
    decreases members, 1
  {
    forall i | 0 <= i < |members|
      ensures Issues(v, CompileAll(members)[i], path) == [] <==> Fits(members[i], v)
    {
      CompileExact(members[i], v, path);
    }
  }

  lemma {:induction false} TypedDictExact(fields: seq<FieldT>, v: Value, path: Path)
    ensures Issues(v, CompileOrEmpty(TypedDictT(fields)), path) == [] <==> Fits(TypedDictT(fields), v)
    decreases fields, 1
  {
    hide SortedNames;
    if v.Dict? {
      var schema := EMPTY.(expected := Some("object"), properties := Properties(CompileFields(fields)),
                           required := if fields == [] then None else Some(SortedNames(fields)));
      assert CompileOrEmpty(TypedDictT(fields)) == schema;
      forall i | 0 <= i < |fields|
        ensures Lookup(v.entries, StrKey(fields[i].name)).Some? ==>
                  (PropertyClean(v.entries, schema.properties.all[i], path) <==> FieldFits(fields[i], v))
      {
        var found := Lookup(v.entries, StrKey(fields[i].name));
        if found.Some? { CompileExact(fields[i].annotation, found.value, path + [Member(StrKey(fields[i].name))]); }
      }
      PropertiesClean(v.entries, schema, path, 0);
      if fields != [] { RequiredClean(v.entries, SortedNames(fields), path); }
      FieldsRequired(fields, v.entries);
    }
  }

  lemma FieldsRequired(fields: seq<FieldT>, entries: seq<Entry>)
    ensures (forall name :: name in SortedNames(fields) ==> Lookup(entries, StrKey(name)).Some?) <==>
              forall i :: 0 <= i < |fields| ==> Lookup(entries, StrKey(fields[i].name)).Some?
  {
    forall i | 0 <= i < |fields| ensures fields[i].name in SortedNames(fields) {}
  }

  // ----- when that is membership -----

  predicate NoneFree(t: PyType)
    decreases t
  {
    match t
    case NoneT => false
    case ListT(item) => NoneFree(item)
    case DictT(value) => NoneFree(value)
    case UnionT(members) => forall i :: 0 <= i < |members| ==> NoneFree(members[i])
    case TypedDictT(fields) => forall i :: 0 <= i < |fields| ==> NoneFree(fields[i].annotation)
    case _ => true
  }

  /** No dictionary inside has a key that is not a string. */
  predicate StringKeyed(v: Value)
    decreases v
  {
    match v
    case List(items) => forall i :: 0 <= i < |items| ==> StringKeyed(items[i])
    case Tuple(items) => forall i :: 0 <= i < |items| ==> StringKeyed(items[i])
    case Dict(entries) =>
      forall i :: 0 <= i < |entries| ==> entries[i].key.StrKey? && StringKeyed(entries[i].value)
    case _ => true
  }

  lemma {:induction false} LookupFinds(entries: seq<Entry>, key: Key) returns (i: nat)
    requires Lookup(entries, key).Some?
    ensures i < |entries| && entries[i].value == Lookup(entries, key).value
  {
    if entries[0].key == key {
      i := 0;
    } else {
      i := LookupFinds(entries[1..], key);
      i := i + 1;
    }
  }

  lemma {:induction false} FitsIsBelongs(t: PyType, v: Value)
    requires NoneFree(t) && StringKeyed(v)
    ensures Fits(t, v) <==> Belongs(t, v)
    decreases t
  {
    match t
    case ListT(item) =>
      if v.List? || v.Tuple? {
        forall i | 0 <= i < |v.items| ensures Fits(item, v.items[i]) <==> Belongs(item, v.items[i]) {
          FitsIsBelongs(item, v.items[i]);
        }
      }
    case DictT(value) =>
      if v.Dict? {
        forall i | 0 <= i < |v.entries|
          ensures Fits(value, v.entries[i].value) <==> Belongs(value, v.entries[i].value)
        {
          FitsIsBelongs(value, v.entries[i].value);
        }
      }
    case UnionT(members) =>
      forall i | 0 <= i < |members| ensures Fits(members[i], v) <==> Belongs(members[i], v) {
        FitsIsBelongs(members[i], v);
      }
    case TypedDictT(fields) =>
      if v.Dict? {
        forall i | 0 <= i < |fields| && Lookup(v.entries, StrKey(fields[i].name)).Some?
          ensures FieldFits(fields[i], v)
                  <==> Belongs(fields[i].annotation, Lookup(v.entries, StrKey(fields[i].name)).value)
        {
          var j := LookupFinds(v.entries, StrKey(fields[i].name));
          FitsIsBelongs(fields[i].annotation, v.entries[j].value);
        }
      }
    case _ =>
  }

  /** Schema compilation is exact: on annotations without `None`, a value with string keys passes
      exactly when it belongs to the annotation. */
  lemma {:induction false} ValidationIsMembership(t: PyType, v: Value, path: Path)
    requires NoneFree(t) && StringKeyed(v)
    ensures Issues(v, CompileOrEmpty(t), path) == [] <==> Belongs(t, v)
  {
    CompileExact(t, v, path);
    FitsIsBelongs(t, v);
  }

  lemma {:induction false} MembersFit(t: PyType, v: Value)
    requires Belongs(t, v)
    ensures Fits(t, v)
    decreases t
  {
    match t
    case ListT(item) =>
      forall i | 0 <= i < |v.items| ensures Fits(item, v.items[i]) { MembersFit(item, v.items[i]); }
    case DictT(value) =>
      forall i | 0 <= i < |v.entries| ensures Fits(value, v.entries[i].value) { MembersFit(value, v.entries[i].value); }
    case UnionT(members) =>
      var i :| 0 <= i < |members| && Belongs(members[i], v);
      MembersFit(members[i], v);
    case TypedDictT(fields) =>
      forall i | 0 <= i < |fields| ensures FieldFits(fields[i], v) {
        MembersFit(fields[i].annotation, Lookup(v.entries, StrKey(fields[i].name)).value);
      }
    case _ =>
  }

  /** Validation never rejects a member, of any covered annotation, whatever its keys. */
  lemma {:induction false} MembersPass(t: PyType, v: Value, path: Path)
    requires Belongs(t, v)
    ensures Issues(v, CompileOrEmpty(t), path) == []
  {
    MembersFit(t, v);
    CompileExact(t, v, path);
  }

  /** Dictionary keys are not checked: a dictionary keyed by an integer passes for `dict[str, int]`. */
  lemma KeysGoUnchecked(path: Path)
    ensures var v := Dict([Entry(OtherKey(1), Int(2))]);
            Issues(v, CompileOrEmpty(DictT(IntT)), path) == [] && !Belongs(DictT(IntT), v)
  {
    var v := Dict([Entry(OtherKey(1), Int(2))]);
    CompileExact(DictT(IntT), v, path);
    assert !v.entries[0].key.StrKey?;
  }

  /** An optional annotation checks nothing: any value passes for it. */
  lemma OptionalAcceptsAnything(t: PyType, v: Value, path: Path)
    ensures Issues(v, CompileOrEmpty(UnionT([t, NoneT])), path) == []
  {
    var union := UnionT([t, NoneT]);
    assert Fits(union.members[1], v);
    CompileExact(union, v, path);
  }
}
