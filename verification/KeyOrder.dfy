/** The order of strings by code point, and sorting any list by a string key. */
module KeyOrder {
  /** Lexicographic order by code point. */
  predicate Before(a: string, b: string) {
    if b == "" then false
    else if a == "" then true
    else a[0] < b[0] || (a[0] == b[0] && Before(a[1..], b[1..]))
  }

  lemma BeforeTransitive(a: string, b: string, c: string)
    requires Before(a, b) && Before(b, c)
    ensures Before(a, c)
  {}

  lemma {:induction false} BeforeTotal(a: string, b: string)
    ensures a == b || Before(a, b) || Before(b, a)
    ensures !(Before(a, b) && Before(b, a)) && !Before(a, a)
  {
    if a == "" || b == "" {
      if a != "" { BeforeTotal(a[1..], a[1..]); }
    } else {
      BeforeTotal(a[1..], b[1..]);
      BeforeTotal(a[1..], a[1..]);
      if a[0] == b[0] && a[1..] == b[1..] {
        assert a == [a[0]] + a[1..] && b == [b[0]] + b[1..];
      }
    }
  }

  function Insert<T>(key: T -> string, x: T, list: seq<T>): (r: seq<T>)
    ensures multiset(r) == multiset(list) + multiset{x}
  {
    if list == [] || Before(key(x), key(list[0])) then [x] + list
    else
      assert list == [list[0]] + list[1..];
      [list[0]] + Insert(key, x, list[1..])
  }

  function Sort<T>(key: T -> string, list: seq<T>): (r: seq<T>)
    ensures multiset(r) == multiset(list)
  {
    if list == [] then []
    else
      assert list == [list[0]] + list[1..];
      Insert(key, list[0], Sort(key, list[1..]))
  }

  ghost predicate Ordered<T>(key: T -> string, list: seq<T>) {
    forall i, j :: 0 <= i < j < |list| ==> !Before(key(list[j]), key(list[i]))
  }

  ghost predicate KeysApart<T>(key: T -> string, list: seq<T>) {
    forall i, j :: 0 <= i < j < |list| ==> key(list[i]) != key(list[j])
  }

  lemma SortMembers<T>(key: T -> string, list: seq<T>)
    ensures forall x :: x in Sort(key, list) <==> x in list
  {
    forall x ensures x in Sort(key, list) <==> x in list {
      assert x in Sort(key, list) <==> x in multiset(Sort(key, list));
    }
  }

  lemma {:induction false} InsertOrdered<T>(key: T -> string, x: T, list: seq<T>)
    requires Ordered(key, list)
    ensures Ordered(key, Insert(key, x, list))
  {
    if list == [] {
    } else if Before(key(x), key(list[0])) {
      forall j | 0 <= j < |list| ensures !Before(key(list[j]), key(x)) {
        BeforeTotal(key(list[0]), key(list[0]));
        if Before(key(list[j]), key(x)) { BeforeTransitive(key(list[j]), key(x), key(list[0])); }
      }
    } else {
      var tail := Insert(key, x, list[1..]);
      InsertOrdered(key, x, list[1..]);
      forall j | 0 <= j < |tail| ensures !Before(key(tail[j]), key(list[0])) {
        assert tail[j] in multiset(tail);
        assert tail[j] == x || tail[j] in list[1..];
      }
    }
  }

  lemma {:induction false} SortOrdered<T>(key: T -> string, list: seq<T>)
    ensures Ordered(key, Sort(key, list))
  {
    if list != [] {
      SortOrdered(key, list[1..]);
      InsertOrdered(key, list[0], Sort(key, list[1..]));
    }
  }

  lemma {:induction false} InsertApart<T>(key: T -> string, x: T, list: seq<T>)
    requires KeysApart(key, list) && forall y :: y in list ==> key(y) != key(x)
    ensures KeysApart(key, Insert(key, x, list))
  {
    if list != [] && !Before(key(x), key(list[0])) {
      var tail := Insert(key, x, list[1..]);
      InsertApart(key, x, list[1..]);
      forall j | 0 <= j < |tail| ensures key(tail[j]) != key(list[0]) {
        assert tail[j] in multiset(tail);
        assert tail[j] == x || tail[j] in list[1..];
      }
    }
  }

  /** Distinctness of keys survives sorting. */
  lemma {:induction false} SortApart<T>(key: T -> string, list: seq<T>)
    requires KeysApart(key, list)
    ensures KeysApart(key, Sort(key, list))
  {
    if list != [] {
      var tail := Sort(key, list[1..]);
      SortApart(key, list[1..]);
      forall y | y in tail ensures key(y) != key(list[0]) {
        assert y in multiset(list[1..]);
        var k :| 0 <= k < |list[1..]| && list[1..][k] == y;
        assert list[k + 1] == y;
      }
      InsertApart(key, list[0], tail);
    }
  }

  /** Sorting a list of distinct keys orders it strictly. */
  lemma {:induction false} SortStrict<T>(key: T -> string, list: seq<T>)
    requires KeysApart(key, list)
    ensures var r := Sort(key, list); forall i, j :: 0 <= i < j < |r| ==> Before(key(r[i]), key(r[j]))
  {
    SortOrdered(key, list);
    SortApart(key, list);
    var r := Sort(key, list);
    forall i, j | 0 <= i < j < |r| ensures Before(key(r[i]), key(r[j])) {
      BeforeTotal(key(r[i]), key(r[j]));
    }
  }
}
