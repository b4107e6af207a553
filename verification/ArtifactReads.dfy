/** Reads of the artifact stores: lookups by key and listings by run, while others publish. */
module ArtifactReads {
  import opened Prelude
  import opened KeyOrder
  import opened Artifacts

  // ----- what a listing is -----

  ghost predicate KeyOrdered(list: seq<StoredArtifact>) {
    forall i, j :: 0 <= i < j < |list| ==> Before(list[i].storageKey, list[j].storageKey)
  }

  ghost predicate OfRun(items: Items, runId: string, a: StoredArtifact) {
    a.storageKey in items && items[a.storageKey].artifact == a && a.runId == runId
  }

  /** The artifacts of a run, each once, by storage key. */
  ghost predicate IsListing(items: Items, runId: string, list: seq<StoredArtifact>) {
    KeyOrdered(list) && forall a :: a in list <==> OfRun(items, runId, a)
  }

  /** There is only one listing, so two stores with the same items list the same. */
  lemma {:induction false} ListingUnique(a: seq<StoredArtifact>, b: seq<StoredArtifact>)
    requires KeyOrdered(a) && KeyOrdered(b) && forall x :: x in a <==> x in b
    ensures a == b
  {
    FirstIsMember(a);
    FirstIsMember(b);
    if a != [] && b != [] {
      SameFirst(a, b);
      TailMembers(a);
      TailMembers(b);
      ListingUnique(a[1..], b[1..]);
    }
  }

  lemma FirstIsMember<T>(s: seq<T>)
    ensures s == [] || s[0] in s
  {}

  lemma SameFirst(a: seq<StoredArtifact>, b: seq<StoredArtifact>)
    requires KeyOrdered(a) && KeyOrdered(b) && a != [] && b != [] && forall x :: x in a <==> x in b
    ensures a[0] == b[0]
  {
    assert a[0] in b && b[0] in a;
    var i :| 0 <= i < |b| && b[i] == a[0];
    var j :| 0 <= j < |a| && a[j] == b[0];
    if i > 0 && j > 0 { BeforeTotal(a[0].storageKey, b[0].storageKey); }
  }

  lemma TailMembers(a: seq<StoredArtifact>)
    requires KeyOrdered(a) && a != []
    ensures forall x :: x in a[1..] <==> x in a && x != a[0]
    ensures KeyOrdered(a[1..])
  {
    forall i | 1 <= i < |a| ensures a[i] != a[0] { BeforeTotal(a[0].storageKey, a[0].storageKey); }
    assert a == [a[0]] + a[1..];
  }

  // ----- sorting by key -----

  function StorageKey(a: StoredArtifact): string {
    a.storageKey
  }

  lemma SortedListing(list: seq<StoredArtifact>)
    requires KeysApart(StorageKey, list)
    ensures KeyOrdered(Sort(StorageKey, list))
    ensures forall x :: x in Sort(StorageKey, list) <==> x in list
  {
    SortStrict(StorageKey, list);
    SortMembers(StorageKey, list);
  }

  // ----- the memory store -----

  method MemoryListForRun(items: Items, runId: string) returns (list: seq<StoredArtifact>)
    requires forall key :: key in items ==> items[key].artifact.storageKey == key
    ensures IsListing(items, runId, list)
  {
    var result: seq<StoredArtifact> := [];
    var rest := items.Keys;
    while rest != {}
      invariant rest <= items.Keys
      invariant KeysApart(StorageKey, result)
      invariant forall a :: a in result <==> OfRun(items, runId, a) && a.storageKey !in rest
    {
      var key :| key in rest;
      var artifact := items[key].artifact;
      if artifact.runId == runId {
        forall i | 0 <= i < |result| ensures result[i].storageKey != artifact.storageKey { assert result[i] in result; }
        result := result + [artifact];
      }
      rest := rest - {key};
    }
    SortedListing(result);
    list := Sort(StorageKey, result);
  }

  // ----- the filesystem store -----

  function ReadManifest(sha: Hashes, shelf: Shelf, name: Digest): Result<StoredArtifact, Error> {
    if name !in shelf.manifests then Err(MissingManifest)
    else if sha.ident(shelf.manifests[name].storageKey) != name then Err(KeyMismatch)
    else Ok(shelf.manifests[name])
  }

  /** A listing looks at the presence and the size of a body, not at its content. */
  function CheckBodyEntry(shelf: Shelf, artifact: StoredArtifact): Option<Error> {
    if artifact.digest !in shelf.bodies then Some(MissingBody)
    else if |shelf.bodies[artifact.digest]| != artifact.size then Some(SizeMismatch)
    else None
  }

  /** The walk names the manifests there are; the shelf each file is then read from may already
      have grown. */
  ghost predicate Unfolds(sha: Hashes, start: Shelf, names: seq<Digest>, manifests: seq<Shelf>, bodies: seq<Shelf>) {
    && Sound(sha, start)
    && |manifests| == |names| == |bodies|
    && (forall name :: name in names <==> name in start.manifests)
    && (forall i, j :: 0 <= i < j < |names| ==> names[i] != names[j])
    && (forall i :: 0 <= i < |names| ==> Grows(start, manifests[i]) && Grows(start, bodies[i]))
  }

  /** One file of the walk, read later: as it was, and its body with it. */
  lemma {:induction false} ReadAsItWas(sha: Hashes, start: Shelf, name: Digest, later: Shelf, last: Shelf)
    requires Sound(sha, start) && name in start.manifests && Grows(start, later) && Grows(start, last)
    ensures ReadManifest(sha, later, name) == Ok(start.manifests[name])
    ensures CheckBodyEntry(last, start.manifests[name]) == None
  {}

  /** While any number of writers publish, a listing does not fail and is the listing of what was
      published when its walk began. */
  method ListForRun(
      sha: Hashes, names: seq<Digest>, manifests: seq<Shelf>, bodies: seq<Shelf>, runId: string,
      ghost start: Shelf, ghost items: Items) returns (result: Result<seq<StoredArtifact>, Error>)
    requires |manifests| == |names| == |bodies|
    ensures Unfolds(sha, start, names, manifests, bodies) && Mirrors(sha, start, items) ==>
              result.Ok? && IsListing(items, runId, result.value)
  {
    ghost var unfolds := Unfolds(sha, start, names, manifests, bodies);
    var artifacts: seq<StoredArtifact> := [];
    for i := 0 to |names|
      invariant unfolds ==> KeysApart(StorageKey, artifacts) && Collected(start, names, i, runId, artifacts)
    {
      ghost var before := artifacts;
      if unfolds { ReadAsItWas(sha, start, names[i], manifests[i], bodies[i]); }
      var artifact := ReadManifest(sha, manifests[i], names[i]);
      if artifact.Err? {
        return Err(artifact.error);
      }
      if artifact.value.runId == runId {
        var refusal := CheckBodyEntry(bodies[i], artifact.value);
        if refusal.Some? {
          return Err(refusal.value);
        }
        artifacts := artifacts + [artifact.value];
      }
      if unfolds { CollectNext(sha, start, names, i, runId, before, artifacts); }
    }
    result := Ok(Sort(StorageKey, artifacts));
    if unfolds {
      SortedListing(artifacts);
      if Mirrors(sha, start, items) { CollectedAll(sha, start, names, runId, artifacts, items); }
    }
  }

  ghost predicate Collected(start: Shelf, names: seq<Digest>, n: nat, runId: string, list: seq<StoredArtifact>)
    requires n <= |names|
  {
    forall a :: a in list <==> a.runId == runId && exists i :: 0 <= i < n && InShelf(start, names[i], a)
  }

  ghost predicate InShelf(start: Shelf, name: Digest, a: StoredArtifact) {
    name in start.manifests && start.manifests[name] == a
  }

  lemma {:induction false} CollectNext(
      sha: Hashes, start: Shelf, names: seq<Digest>, n: nat, runId: string,
      before: seq<StoredArtifact>, after: seq<StoredArtifact>)
    requires Sound(sha, start) && n < |names| && names[n] in start.manifests
    requires forall i :: 0 <= i < n ==> names[i] != names[n]
    requires KeysApart(StorageKey, before) && Collected(start, names, n, runId, before)
    requires var a := start.manifests[names[n]]; after == (if a.runId == runId then before + [a] else before)
    ensures KeysApart(StorageKey, after) && Collected(start, names, n + 1, runId, after)
  {
    var a := start.manifests[names[n]];
    forall k | 0 <= k < |before| ensures before[k].storageKey != a.storageKey {
      assert before[k] in before;
      var i :| 0 <= i < n && InShelf(start, names[i], before[k]);
    }
    forall x ensures x in after <==> x.runId == runId && exists i :: 0 <= i < n + 1 && InShelf(start, names[i], x) {
      if x == a { assert InShelf(start, names[n], x); }
    }
  }

  lemma {:induction false} CollectedAll(
      sha: Hashes, start: Shelf, names: seq<Digest>, runId: string, list: seq<StoredArtifact>, items: Items)
    requires Mirrors(sha, start, items) && Collected(start, names, |names|, runId, list)
    requires forall name :: name in names <==> name in start.manifests
    ensures forall a :: a in list <==> OfRun(items, runId, a)
  {
    forall a ensures a in list <==> OfRun(items, runId, a) {
      if OfRun(items, runId, a) {
        var name := sha.ident(a.storageKey);
        var i :| 0 <= i < |names| && names[i] == name;
        assert InShelf(start, names[i], a);
      }
    }
  }

  // ----- in runs -----

  /** Whatever later states of a run a listing reads its files from, it lists the reference items of
      the state in which its walk began. */
  lemma {:induction false} ListingsUnfold(
      sha: Hashes, states: seq<System>, actions: seq<Action>, i: nat, names: seq<Digest>,
      manifests: seq<Shelf>, bodies: seq<Shelf>, at: seq<nat>, at': seq<nat>)
    requires Run(sha, states, actions) && i < |states|
    requires forall name :: name in names <==> name in states[i].shelf.manifests
    requires forall k, l :: 0 <= k < l < |names| ==> names[k] != names[l]
    requires |manifests| == |bodies| == |at| == |at'| == |names|
    requires forall k :: 0 <= k < |names| ==>
               && i <= at[k] <= at'[k] < |states|
               && manifests[k] == states[at[k]].shelf && bodies[k] == states[at'[k]].shelf
    ensures Unfolds(sha, states[i].shelf, names, manifests, bodies)
    ensures Mirrors(sha, states[i].shelf, Replay(sha, states[i].log))
  {
    RunsAreSound(sha, states, actions, i);
    hide Run, WritersOk;
    forall k | 0 <= k < |names| ensures Grows(states[i].shelf, manifests[k]) && Grows(states[i].shelf, bodies[k]) {
      PublishedForGood(sha, states, actions, i, at[k]);
      PublishedForGood(sha, states, actions, i, at'[k]);
    }
  }

  /** A get reads its manifest in one state and its body in a later one: while any number of writers
      publish in between, it finds what was under the file name in the first of the two, and answers as
      the reference does there exactly when no other stored key has that name. */
  lemma {:induction false} GetsLinearize(
      sha: Hashes, states: seq<System>, actions: seq<Action>, i: nat, j: nat, storageKey: string)
    requires Run(sha, states, actions) && i <= j < |states|
    ensures var items := Replay(sha, states[i].log);
            var found := ReadAcross(sha, states[i].shelf, states[j].shelf, storageKey);
            && found == Ok(Lookup(sha, items, storageKey))
            && (found == Ok(MemGet(items, storageKey)) <==> NameIsOwn(sha, items, storageKey))
  {
    RunsAreSound(sha, states, actions, i);
    PublishedForGood(sha, states, actions, i, j);
    hide Run, WritersOk, ReadAcross, Lookup;
    ReadsMirror(sha, states[i].shelf, states[j].shelf, Replay(sha, states[i].log), storageKey);
  }

  /** A key that a get has read is read the same by every later get. */
  lemma {:induction false} ReadsAreStable(
      sha: Hashes, states: seq<System>, actions: seq<Action>, i: nat, j: nat, k: nat, l: nat, storageKey: string)
    requires Run(sha, states, actions) && i <= j < |states| && i <= k <= l < |states|
    requires var found := ReadAcross(sha, states[i].shelf, states[j].shelf, storageKey); found.Ok? && found.value.Some?
    ensures ReadAcross(sha, states[k].shelf, states[l].shelf, storageKey)
            == ReadAcross(sha, states[i].shelf, states[j].shelf, storageKey)
  {
    RunsAreSound(sha, states, actions, i);
    PublishedForGood(sha, states, actions, i, j);
    PublishedForGood(sha, states, actions, i, k);
    PublishedForGood(sha, states, actions, k, l);
    hide Run, WritersOk, Replay, Mirrors;
  }
}
