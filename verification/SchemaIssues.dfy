/** What an issue says is so, at the place that it names. */
module SchemaIssues {
  import opened Prelude
  import opened Schema

  /** A host value: dictionaries repeat no key. */
  ghost predicate KeyedOnce(v: Value)
    decreases v
  {
    match v
    case List(items) => forall i :: 0 <= i < |items| ==> KeyedOnce(items[i])
    case Tuple(items) => forall i :: 0 <= i < |items| ==> KeyedOnce(items[i])
    case Dict(entries) =>
      && (forall i :: 0 <= i < |entries| ==> KeyedOnce(entries[i].value))
      && (forall i, j :: 0 <= i < j < |entries| ==> entries[i].key != entries[j].key)
    case _ => true
  }

  /** The value that a path leads to. */
  function ValueAt(v: Value, steps: Path): Option<Value>
    decreases |steps|
  {
    if steps == [] then Some(v)
    else
      match steps[0]
      case Member(key) =>
        if v.Dict? && Lookup(v.entries, key).Some? then ValueAt(Lookup(v.entries, key).value, steps[1..]) else None
      case Index(i) =>
        if (v.List? || v.Tuple?) && i < |v.items| then ValueAt(v.items[i], steps[1..]) else None
  }

  /** The host's types under their schema names; integers are numbers, booleans are not. */
  ghost predicate IsA(v: Value, name: string) {
    && (name == "object" ==> v.Dict?) && (name == "array" ==> v.List? || v.Tuple?)
    && (name == "string" ==> v.Str?) && (name == "integer" ==> v.Int?)
    && (name == "number" ==> v.Int? || v.Float?) && (name == "boolean" ==> v.Bool?)
    && (name == "null" ==> v.Null?)
  }

  ghost predicate SoAt(v: Value, issue: Issue, steps: Path) {
    match issue
    case WrongType(_, expected) => ValueAt(v, steps).Some? && !IsA(ValueAt(v, steps).value, expected)
    case NotOneOf(_, values) =>
      ValueAt(v, steps).Some? && forall s :: s in values ==> ValueAt(v, steps).value != Str(s)
    case NoMatch(_) => ValueAt(v, steps).Some?
    case Missing(_) =>
      && steps != [] && Last(steps).Member? && Last(steps).key.StrKey?
      && ValueAt(v, Front(steps)).Some? && ValueAt(v, Front(steps)).value.Dict?
      && Lookup(ValueAt(v, Front(steps)).value.entries, Last(steps).key).None?
  }

  ghost predicate So(v: Value, path: Path, issue: Issue) {
    exists steps :: issue.path == path + steps && SoAt(v, issue, steps)
  }

  ghost predicate AllSo(v: Value, path: Path, issues: seq<Issue>) {
    forall issue :: issue in issues ==> So(v, path, issue)
  }

  lemma SoHere(v: Value, path: Path, issue: Issue)
    requires issue.path == path && SoAt(v, issue, [])
    ensures So(v, path, issue)
  {
    assert path == path + [];
  }

  /** What is so inside a part is so of the whole. */
  lemma {:induction false} SoInside(v: Value, step: PathStep, part: Value, path: Path, issues: seq<Issue>)
    requires ValueAt(v, [step]) == Some(part) && AllSo(part, path + [step], issues)
    ensures AllSo(v, path, issues)
  {
    forall issue | issue in issues ensures So(v, path, issue) {
      var steps :| issue.path == path + [step] + steps && SoAt(part, issue, steps);
      assert path + [step] + steps == path + ([step] + steps);
      Deeper(v, step, part, steps);
      if issue.Missing? {
        Deeper(v, step, part, Front(steps));
        assert Front([step] + steps) == [step] + Front(steps);
      }
      assert SoAt(v, issue, [step] + steps);
    }
  }

  lemma Deeper(v: Value, step: PathStep, part: Value, steps: Path)
    requires ValueAt(v, [step]) == Some(part)
    ensures ValueAt(v, [step] + steps) == ValueAt(part, steps)
  {
    assert ([step] + steps)[1..] == steps && [step][1..] == [];
  }

  lemma {:induction false} EntryFound(entries: seq<Entry>, i: nat)
    requires i < |entries| && forall j, k :: 0 <= j < k < |entries| ==> entries[j].key != entries[k].key
    ensures Lookup(entries, entries[i].key) == Some(entries[i].value)
  {
    if i > 0 { EntryFound(entries[1..], i - 1); }
  }

  /** Every issue names a place in the value and says what is so there: a value that is not of the named
      type or not one of the named strings, a dictionary without the named field, or a value that no
      alternative takes. */
  lemma {:induction false} IssuesAreSo(v: Value, schema: Schema, path: Path)
    requires KeyedOnce(v)
    ensures AllSo(v, path, Issues(v, schema, path))
    decreases schema, 2, 0
  {
    forall issue | issue in Issues(v, schema, path) && issue.path == path && SoAt(v, issue, [])
      ensures So(v, path, issue)
    {
      SoHere(v, path, issue);
    }
    if schema.anyOf.Alternatives? || (schema.enumeration.Some? && !(v.Str? && v.s in schema.enumeration.value))
       || (schema.expected.Some? && !MatchesType(v, schema.expected.value)) {
    } else if schema.expected == Some("object") && v.Dict? {
      hide PropertyIssues, RequiredIssues, AdditionalIssues, AllSo;
      if schema.required.Some? { RequiredAreSo(v, schema.required.value, path); }
      if schema.properties.Properties? { PropertiesAreSo(v, schema, path, 0); }
      if schema.additional.Some? { AdditionalAreSo(v, schema.additional.value, Known(schema.properties), path, 0); }
      SoTogether(v, path, if schema.required.Some? then RequiredIssues(v.entries, schema.required.value, path) else [],
                 if schema.properties.Properties? then PropertyIssues(v.entries, schema, path, 0) else [],
                 if schema.additional.Some? then
                   AdditionalIssues(v.entries, schema.additional.value, Known(schema.properties), path, 0)
                 else []);
    } else if schema.expected == Some("array") && (v.List? || v.Tuple?) && schema.items.Some? {
      ItemsAreSo(v, schema.items.value, path, 0);
    }
  }

  lemma SoTogether(v: Value, path: Path, a: seq<Issue>, b: seq<Issue>, c: seq<Issue>)
    requires (a == [] || AllSo(v, path, a)) && (b == [] || AllSo(v, path, b)) && (c == [] || AllSo(v, path, c))
    ensures AllSo(v, path, a + b + c)
  {}

  lemma {:induction false} RequiredAreSo(v: Value, required: seq<string>, path: Path)
    requires v.Dict?
    ensures AllSo(v, path, RequiredIssues(v.entries, required, path))
  {
    if required != [] {
      RequiredAreSo(v, required[1..], path);
      var step := Member(StrKey(required[0]));
      if Lookup(v.entries, step.key).None? {
        assert Front([step]) == [] && SoAt(v, Missing(path + [step]), [step]);
      }
    }
  }

  lemma {:induction false} PropertiesAreSo(v: Value, schema: Schema, path: Path, i: nat)
    requires v.Dict? && KeyedOnce(v) && schema.properties.Properties? && i <= |schema.properties.all|
    ensures AllSo(v, path, PropertyIssues(v.entries, schema, path, i))
    decreases schema, 1, |schema.properties.all| - i
  {
    if i < |schema.properties.all| {
      var property := schema.properties.all[i];
      var key := StrKey(property.name);
      PropertiesAreSo(v, schema, path, i + 1);
      if Lookup(v.entries, key).Some? {
        var nested := Lookup(v.entries, key).value;
        var j := LookupFinds(v.entries, key);
        IssuesAreSo(nested, property.schema, path + [Member(key)]);
        assert ValueAt(v, [Member(key)]) == Some(nested);
        SoInside(v, Member(key), nested, path, Issues(nested, property.schema, path + [Member(key)]));
      }
    }
  }

  lemma {:induction false} AdditionalAreSo(v: Value, schema: Schema, known: set<string>, path: Path, i: nat)
    requires v.Dict? && KeyedOnce(v) && i <= |v.entries|
    ensures AllSo(v, path, AdditionalIssues(v.entries, schema, known, path, i))
    decreases schema, 3, |v.entries| - i
  {
    if i < |v.entries| {
      var entry := v.entries[i];
      AdditionalAreSo(v, schema, known, path, i + 1);
      IssuesAreSo(entry.value, schema, path + [Member(entry.key)]);
      EntryFound(v.entries, i);
      assert ValueAt(v, [Member(entry.key)]) == Some(entry.value);
      SoInside(v, Member(entry.key), entry.value, path, Issues(entry.value, schema, path + [Member(entry.key)]));
    }
  }

  lemma {:induction false} ItemsAreSo(v: Value, schema: Schema, path: Path, i: nat)
    requires (v.List? || v.Tuple?) && KeyedOnce(v) && i <= |v.items|
    ensures AllSo(v, path, ItemIssues(v.items, schema, path, i))
    decreases schema, 3, |v.items| - i
  {
    if i < |v.items| {
      ItemsAreSo(v, schema, path, i + 1);
      IssuesAreSo(v.items[i], schema, path + [Index(i)]);
      assert ValueAt(v, [Index(i)]) == Some(v.items[i]);
      SoInside(v, Index(i), v.items[i], path, Issues(v.items[i], schema, path + [Index(i)]));
    }
  }
}
