/** Snapshots of the approval workflow's in-memory saver: nested dictionaries to rows and back. */
module Saver {
  import opened Prelude

  type Typed = (string, Bytes)

  type Text = (string, string)

  /** Base64 (section 4 of RFC 4648), as an unknown pair of functions. */
  datatype Codec = Codec(encode: Bytes -> string, decode: string -> Bytes)

  ghost predicate Faithful(codec: Codec) {
    forall body :: codec.decode(codec.encode(body)) == body
  }

  function ToText(codec: Codec, v: Typed): Text {
    (v.0, codec.encode(v.1))
  }

  function FromText(codec: Codec, t: Text): Typed {
    (t.0, codec.decode(t.1))
  }

  datatype Stored = Stored(checkpoint: Typed, metadata: Typed, parent: Option<string>)

  datatype Write = Write(taskId: string, channel: string, value: Typed, path: string)

  type Namespaces = map<string, map<string, Stored>>

  type Storage = map<string, Namespaces>

  type WriteKey = (string, string, string)

  type Writes = map<WriteKey, map<(string, int), Write>>

  type Blobs = map<(string, string, string, string), Typed>

  datatype Saver = Saver(storage: Storage, writes: Writes, blobs: Blobs)

  datatype StorageRow = StorageRow(
    thread: string, namespace: string, id: string, checkpoint: Text, metadata: Text, parent: Option<string>)

  datatype WriteRow = WriteRow(
    key: WriteKey, task: (string, int), taskId: string, channel: string, value: Text, path: string)

  datatype BlobRow = BlobRow(key: (string, string, string, string), value: Text)

  datatype Payload = Payload(storage: seq<StorageRow>, writes: seq<WriteRow>, blobs: seq<BlobRow>)

  // ----- rows that list a saver: each entry once, in any order -----

  function StoredAt(s: Storage, thread: string, namespace: string, id: string): Option<Stored> {
    if thread in s && namespace in s[thread] && id in s[thread][namespace] then Some(s[thread][namespace][id]) else None
  }

  function StorageRowOf(codec: Codec, thread: string, namespace: string, id: string, v: Stored): StorageRow {
    StorageRow(thread, namespace, id, ToText(codec, v.checkpoint), ToText(codec, v.metadata), v.parent)
  }

  predicate SamePlace(a: StorageRow, b: StorageRow) {
    a.thread == b.thread && a.namespace == b.namespace && a.id == b.id
  }

  ghost predicate InStorage(codec: Codec, s: Storage, row: StorageRow) {
    var v := StoredAt(s, row.thread, row.namespace, row.id);
    && v.Some? && row.parent == v.value.parent
    && row.checkpoint == (v.value.checkpoint.0, codec.encode(v.value.checkpoint.1))
    && row.metadata == (v.value.metadata.0, codec.encode(v.value.metadata.1))
  }

  ghost predicate ListsStorage(codec: Codec, rows: seq<StorageRow>, s: Storage) {
    && (forall row :: row in rows <==> InStorage(codec, s, row))
    && (forall i, j :: 0 <= i < j < |rows| ==> !SamePlace(rows[i], rows[j]))
  }

  function WriteAt(w: Writes, key: WriteKey, task: (string, int)): Option<Write> {
    if key in w && task in w[key] then Some(w[key][task]) else None
  }

  function WriteRowOf(codec: Codec, key: WriteKey, task: (string, int), v: Write): WriteRow {
    WriteRow(key, task, v.taskId, v.channel, ToText(codec, v.value), v.path)
  }

  ghost predicate InWrites(codec: Codec, w: Writes, row: WriteRow) {
    var v := WriteAt(w, row.key, row.task);
    && v.Some? && row.taskId == v.value.taskId && row.channel == v.value.channel && row.path == v.value.path
    && row.value == (v.value.value.0, codec.encode(v.value.value.1))
  }

  ghost predicate ListsWrites(codec: Codec, rows: seq<WriteRow>, w: Writes) {
    && (forall row :: row in rows <==> InWrites(codec, w, row))
    && (forall i, j :: 0 <= i < j < |rows| ==> rows[i].key != rows[j].key || rows[i].task != rows[j].task)
  }

  ghost predicate ListsBlobs(codec: Codec, rows: seq<BlobRow>, b: Blobs) {
    && (forall row :: row in rows <==> row.key in b && row.value == (b[row.key].0, codec.encode(b[row.key].1)))
    && (forall i, j :: 0 <= i < j < |rows| ==> rows[i].key != rows[j].key)
  }

  ghost predicate Lists(codec: Codec, payload: Payload, saver: Saver) {
    && ListsStorage(codec, payload.storage, saver.storage)
    && ListsWrites(codec, payload.writes, saver.writes)
    && ListsBlobs(codec, payload.blobs, saver.blobs)
  }

  // ----- snapshots -----

  /** The entries of the three dictionaries, in whatever order they come. */
  method SnapshotSaver(codec: Codec, saver: Saver) returns (payload: Payload)
    ensures Lists(codec, payload, saver)
  {
    var storage := SnapshotStorage(codec, saver.storage);
    var writes := SnapshotWrites(codec, saver.writes);
    var blobs := SnapshotBlobs(codec, saver.blobs);
    payload := Payload(storage, writes, blobs);
  }

  method SnapshotStorage(codec: Codec, s: Storage) returns (rows: seq<StorageRow>)
    ensures ListsStorage(codec, rows, s)
  {
    rows := [];
    var rest := set t, n, c | t in s && n in s[t] && c in s[t][n] :: (t, n, c);
    while rest != {}
      invariant forall p :: p in rest ==> StoredAt(s, p.0, p.1, p.2).Some?
      invariant forall row :: row in rows <==> InStorage(codec, s, row) && (row.thread, row.namespace, row.id) !in rest
      invariant forall i, j :: 0 <= i < j < |rows| ==> !SamePlace(rows[i], rows[j])
    {
      var p :| p in rest;
      var row := StorageRowOf(codec, p.0, p.1, p.2, s[p.0][p.1][p.2]);
      forall i | 0 <= i < |rows| ensures !SamePlace(rows[i], row) {
        assert rows[i] in rows;
      }
      rows := rows + [row];
      rest := rest - {p};
    }
  }

  method SnapshotWrites(codec: Codec, w: Writes) returns (rows: seq<WriteRow>)
    ensures ListsWrites(codec, rows, w)
  {
    rows := [];
    var rest := set key, task | key in w && task in w[key] :: (key, task);
    while rest != {}
      invariant forall p :: p in rest ==> WriteAt(w, p.0, p.1).Some?
      invariant forall row :: row in rows <==> InWrites(codec, w, row) && (row.key, row.task) !in rest
      invariant forall i, j :: 0 <= i < j < |rows| ==> rows[i].key != rows[j].key || rows[i].task != rows[j].task
    {
      var p :| p in rest;
      var row := WriteRowOf(codec, p.0, p.1, w[p.0][p.1]);
      forall i | 0 <= i < |rows| ensures rows[i].key != row.key || rows[i].task != row.task {
        assert rows[i] in rows;
      }
      rows := rows + [row];
      rest := rest - {p};
    }
  }

  method SnapshotBlobs(codec: Codec, b: Blobs) returns (rows: seq<BlobRow>)
    ensures ListsBlobs(codec, rows, b)
  {
    rows := [];
    var rest := b.Keys;
    while rest != {}
      invariant rest <= b.Keys
      invariant forall row :: row in rows <==>
                  row.key in b && row == BlobRow(row.key, ToText(codec, b[row.key])) && row.key !in rest
      invariant forall i, j :: 0 <= i < j < |rows| ==> rows[i].key != rows[j].key
    {
      var key :| key in rest;
      forall i | 0 <= i < |rows| ensures rows[i].key != key {
        assert rows[i] in rows;
      }
      rows := rows + [BlobRow(key, ToText(codec, b[key]))];
      rest := rest - {key};
    }
  }

  // ----- restoring: filling the nested dictionaries row by row -----

  function PutStorage(s: Storage, thread: string, namespace: string, id: string, v: Stored): Storage {
    var namespaces := if thread in s then s[thread] else map[];
    var checkpoints := if namespace in namespaces then namespaces[namespace] else map[];
    s[thread := namespaces[namespace := checkpoints[id := v]]]
  }

  function PutWrite(w: Writes, key: WriteKey, task: (string, int), v: Write): Writes {
    w[key := (if key in w then w[key] else map[])[task := v]]
  }

  function RestoreStorage(codec: Codec, rows: seq<StorageRow>): Storage {
    if rows == [] then map[]
    else
      var row := Last(rows);
      PutStorage(RestoreStorage(codec, Front(rows)), row.thread, row.namespace, row.id,
                 Stored(FromText(codec, row.checkpoint), FromText(codec, row.metadata), row.parent))
  }

  function RestoreWrites(codec: Codec, rows: seq<WriteRow>): Writes {
    if rows == [] then map[]
    else
      var row := Last(rows);
      PutWrite(RestoreWrites(codec, Front(rows)), row.key, row.task,
               Write(row.taskId, row.channel, FromText(codec, row.value), row.path))
  }

  function RestoreBlobs(codec: Codec, rows: seq<BlobRow>): Blobs {
    if rows == [] then map[] else RestoreBlobs(codec, Front(rows))[Last(rows).key := FromText(codec, Last(rows).value)]
  }

  function Restore(codec: Codec, payload: Payload): Saver {
    Saver(RestoreStorage(codec, payload.storage), RestoreWrites(codec, payload.writes),
          RestoreBlobs(codec, payload.blobs))
  }

  method RestoreSaver(codec: Codec, payload: Payload) returns (saver: Saver)
    ensures saver == Restore(codec, payload)
  {
    var storage: Storage := map[];
    for i := 0 to |payload.storage|
      invariant storage == RestoreStorage(codec, payload.storage[..i])
    {
      var row := payload.storage[i];
      assert Front(payload.storage[..i + 1]) == payload.storage[..i];
      storage := FillEntry(storage, row.thread, row.namespace, row.id,
                           Stored(FromText(codec, row.checkpoint), FromText(codec, row.metadata), row.parent));
    }
    assert payload.storage[..|payload.storage|] == payload.storage;
    var writes := FillWrites(codec, payload.writes);
    var blobs: Blobs := map[];
    for i := 0 to |payload.blobs|
      invariant blobs == RestoreBlobs(codec, payload.blobs[..i])
    {
      assert Front(payload.blobs[..i + 1]) == payload.blobs[..i];
      blobs := blobs[payload.blobs[i].key := FromText(codec, payload.blobs[i].value)];
    }
    assert payload.blobs[..|payload.blobs|] == payload.blobs;
    saver := Saver(storage, writes, blobs);
  }

  /** An assignment through two dictionaries that supply missing inner ones. */
  method FillEntry(s: Storage, thread: string, namespace: string, id: string, v: Stored) returns (storage: Storage)
    ensures storage == PutStorage(s, thread, namespace, id, v)
  {
    storage := s;
    if thread !in storage {
      storage := storage[thread := map[]];
    }
    var namespaces := storage[thread];
    ghost var found: Namespaces := namespaces;
    if namespace !in namespaces {
      namespaces := namespaces[namespace := map[]];
    }
    var checkpoints := namespaces[namespace];
    namespaces := namespaces[namespace := checkpoints[id := v]];
    assert namespaces == found[namespace := checkpoints[id := v]];
    storage := storage[thread := namespaces];
    assert storage == s[thread := namespaces];
  }

  method FillWrites(codec: Codec, rows: seq<WriteRow>) returns (writes: Writes)
    ensures writes == RestoreWrites(codec, rows)
  {
    writes := map[];
    for i := 0 to |rows|
      invariant writes == RestoreWrites(codec, rows[..i])
    {
      var row := rows[i];
      assert Front(rows[..i + 1]) == rows[..i];
      if row.key !in writes {
        writes := writes[row.key := map[]];
      }
      var v := Write(row.taskId, row.channel, FromText(codec, row.value), row.path);
      writes := writes[row.key := writes[row.key][row.task := v]];
    }
    assert rows[..|rows|] == rows;
  }

  // ----- dictionaries without empty inner dictionaries -----

  ghost predicate NoEmptyStorage(s: Storage) {
    forall t :: t in s ==> s[t] != map[] && forall n :: n in s[t] ==> s[t][n] != map[]
  }

  ghost predicate NoEmptyWrites(w: Writes) {
    forall key :: key in w ==> w[key] != map[]
  }

  /** Dropping the inner dictionaries that hold nothing, which leave no row behind. */
  function PrunedNamespaces(m: Namespaces): Namespaces {
    map n | n in m && m[n] != map[] :: m[n]
  }

  function PrunedStorage(s: Storage): Storage {
    map t | t in s && PrunedNamespaces(s[t]) != map[] :: PrunedNamespaces(s[t])
  }

  function PrunedWrites(w: Writes): Writes {
    map key | key in w && w[key] != map[] :: w[key]
  }

  function Pruned(saver: Saver): Saver {
    Saver(PrunedStorage(saver.storage), PrunedWrites(saver.writes), saver.blobs)
  }

  lemma PrunedStorageIs(s: Storage)
    ensures NoEmptyStorage(PrunedStorage(s))
    ensures forall t, n, c :: StoredAt(PrunedStorage(s), t, n, c) == StoredAt(s, t, n, c)
  {
    forall t, n, c ensures StoredAt(PrunedStorage(s), t, n, c) == StoredAt(s, t, n, c) {
      if StoredAt(s, t, n, c).Some? { assert c in s[t][n].Keys && n in PrunedNamespaces(s[t]).Keys; }
    }
  }

  lemma PrunedWritesIs(w: Writes)
    ensures NoEmptyWrites(PrunedWrites(w))
    ensures forall key, task :: WriteAt(PrunedWrites(w), key, task) == WriteAt(w, key, task)
  {
    forall key, task ensures WriteAt(PrunedWrites(w), key, task) == WriteAt(w, key, task) {
      if WriteAt(w, key, task).Some? { assert task in w[key].Keys; }
    }
  }

  // ----- a saver is its entries -----

  lemma SomeEntry(s: Storage, t: string) returns (n: string, c: string)
    requires NoEmptyStorage(s) && t in s
    ensures StoredAt(s, t, n, c).Some?
  {
    n :| n in s[t];
    c :| c in s[t][n];
  }

  lemma CheckpointsEqual(a: Storage, b: Storage, t: string, n: string)
    requires forall c :: StoredAt(a, t, n, c) == StoredAt(b, t, n, c)
    requires t in a && n in a[t] && t in b && n in b[t]
    ensures a[t][n] == b[t][n]
  {
    forall c ensures c in a[t][n] <==> c in b[t][n] {
      assert StoredAt(a, t, n, c) == StoredAt(b, t, n, c);
    }
    forall c | c in a[t][n] ensures a[t][n][c] == b[t][n][c] {
      assert StoredAt(a, t, n, c) == StoredAt(b, t, n, c);
    }
    assert a[t][n].Keys == b[t][n].Keys;
  }

  lemma NamespaceIn(a: Storage, b: Storage, t: string, n: string)
    requires NoEmptyStorage(a) && forall c :: StoredAt(a, t, n, c) == StoredAt(b, t, n, c)
    requires t in a && n in a[t]
    ensures t in b && n in b[t]
  {
    var c :| c in a[t][n];
    assert StoredAt(a, t, n, c) == StoredAt(b, t, n, c);
  }

  lemma ThreadEqual(a: Storage, b: Storage, t: string)
    requires NoEmptyStorage(a) && NoEmptyStorage(b)
    requires forall n, c :: StoredAt(a, t, n, c) == StoredAt(b, t, n, c)
    requires t in a && t in b
    ensures a[t] == b[t]
  {
    hide StoredAt;
    forall n | n in a[t] ensures n in b[t] && a[t][n] == b[t][n] {
      NamespaceIn(a, b, t, n);
      CheckpointsEqual(a, b, t, n);
    }
    forall n | n in b[t] ensures n in a[t] { NamespaceIn(b, a, t, n); }
    assert a[t].Keys == b[t].Keys;
  }

  lemma StorageEqual(a: Storage, b: Storage)
    requires NoEmptyStorage(a) && NoEmptyStorage(b)
    requires forall t, n, c :: StoredAt(a, t, n, c) == StoredAt(b, t, n, c)
    ensures a == b
  {
    forall t ensures t in a <==> t in b {
      if t in a {
        var n, c := SomeEntry(a, t);
        assert StoredAt(b, t, n, c).Some?;
      }
      if t in b {
        var n, c := SomeEntry(b, t);
        assert StoredAt(a, t, n, c).Some?;
      }
    }
    hide StoredAt, NoEmptyStorage;
    forall t | t in a ensures a[t] == b[t] { ThreadEqual(a, b, t); }
    assert a.Keys == b.Keys;
  }

  lemma WritesEqual(a: Writes, b: Writes)
    requires NoEmptyWrites(a) && NoEmptyWrites(b)
    requires forall key, task :: WriteAt(a, key, task) == WriteAt(b, key, task)
    ensures a == b
  {
    forall key ensures key in a <==> key in b {
      if key in a { var task :| task in a[key]; assert WriteAt(b, key, task).Some?; }
      if key in b { var task :| task in b[key]; assert WriteAt(a, key, task).Some?; }
    }
    forall key | key in a ensures a[key] == b[key] {
      forall task ensures task in a[key] <==> task in b[key] { assert WriteAt(a, key, task) == WriteAt(b, key, task); }
      forall task | task in a[key] ensures a[key][task] == b[key][task] {
        assert WriteAt(a, key, task) == WriteAt(b, key, task);
      }
      assert a[key].Keys == b[key].Keys;
    }
    assert a.Keys == b.Keys;
  }

  // ----- what restoring yields -----

  lemma PutStorageIs(s: Storage, thread: string, namespace: string, id: string, v: Stored)
    ensures var s' := PutStorage(s, thread, namespace, id, v);
            forall t, n, c :: StoredAt(s', t, n, c)
                              == if t == thread && n == namespace && c == id then Some(v) else StoredAt(s, t, n, c)
  {}

  lemma PutStorageFull(s: Storage, thread: string, namespace: string, id: string, v: Stored)
    requires NoEmptyStorage(s)
    ensures NoEmptyStorage(PutStorage(s, thread, namespace, id, v))
  {
    var s' := PutStorage(s, thread, namespace, id, v);
    var namespaces: Namespaces := s'[thread];
    assert id in namespaces[namespace].Keys && namespace in namespaces.Keys;
  }

  function Decoded(codec: Codec, row: StorageRow): Stored {
    Stored(FromText(codec, row.checkpoint), FromText(codec, row.metadata), row.parent)
  }

  predicate At(row: StorageRow, t: string, n: string, c: string) {
    row.thread == t && row.namespace == n && row.id == c
  }

  /** A restored dictionary holds the last row of each place. */
  lemma {:induction false} RestoreStorageIs(codec: Codec, rows: seq<StorageRow>, t: string, n: string, c: string)
    requires forall i, j :: 0 <= i < j < |rows| ==> !SamePlace(rows[i], rows[j])
    ensures NoEmptyStorage(RestoreStorage(codec, rows))
    ensures forall i :: 0 <= i < |rows| && At(rows[i], t, n, c) ==>
              StoredAt(RestoreStorage(codec, rows), t, n, c) == Some(Decoded(codec, rows[i]))
    ensures (forall i :: 0 <= i < |rows| ==> !At(rows[i], t, n, c)) ==>
              StoredAt(RestoreStorage(codec, rows), t, n, c) == None
  {
    if rows != [] {
      var front, row := Front(rows), Last(rows);
      assert forall i :: 0 <= i < |front| ==> front[i] == rows[i];
      RestoreStorageIs(codec, front, t, n, c);
      var before := RestoreStorage(codec, front);
      assert RestoreStorage(codec, rows) == PutStorage(before, row.thread, row.namespace, row.id, Decoded(codec, row));
      PutStorageIs(before, row.thread, row.namespace, row.id, Decoded(codec, row));
      PutStorageFull(before, row.thread, row.namespace, row.id, Decoded(codec, row));
      hide PutStorage, RestoreStorage, NoEmptyStorage, StoredAt;
      if At(row, t, n, c) {
        forall i | 0 <= i < |front| ensures !At(rows[i], t, n, c) { assert !SamePlace(rows[i], rows[|rows| - 1]); }
      }
    }
  }

  /** Rows that list a saver's storage restore it, up to empty inner dictionaries. */
  lemma {:induction false} StorageRoundTrip(codec: Codec, rows: seq<StorageRow>, s: Storage)
    requires Faithful(codec) && ListsStorage(codec, rows, s)
    ensures RestoreStorage(codec, rows) == PrunedStorage(s)
  {
    PrunedStorageIs(s);
    var r := RestoreStorage(codec, rows);
    RestoreStorageIs(codec, rows, "", "", "");
    forall t, n, c ensures StoredAt(r, t, n, c) == StoredAt(s, t, n, c) {
      RestoreStorageIs(codec, rows, t, n, c);
      hide RestoreStorage, NoEmptyStorage, StoredAt;
      if StoredAt(s, t, n, c).Some? {
        var v := StoredAt(s, t, n, c).value;
        var row := StorageRowOf(codec, t, n, c, v);
        assert InStorage(codec, s, row);
        var i :| 0 <= i < |rows| && rows[i] == row;
        assert At(rows[i], t, n, c) && Decoded(codec, row) == v;
      } else {
        forall i | 0 <= i < |rows| ensures !At(rows[i], t, n, c) {
          assert rows[i] in rows && InStorage(codec, s, rows[i]);
        }
      }
    }
    StorageEqual(r, PrunedStorage(s));
  }

  lemma PutWriteIs(w: Writes, key: WriteKey, task: (string, int), v: Write)
    ensures forall k, t :: WriteAt(PutWrite(w, key, task, v), k, t)
                           == if k == key && t == task then Some(v) else WriteAt(w, k, t)
    ensures NoEmptyWrites(w) ==> NoEmptyWrites(PutWrite(w, key, task, v))
  {
    assert task in PutWrite(w, key, task, v)[key].Keys;
  }

  function DecodedWrite(codec: Codec, row: WriteRow): Write {
    Write(row.taskId, row.channel, FromText(codec, row.value), row.path)
  }

  lemma {:induction false} RestoreWritesIs(codec: Codec, rows: seq<WriteRow>, key: WriteKey, task: (string, int))
    requires forall i, j :: 0 <= i < j < |rows| ==> rows[i].key != rows[j].key || rows[i].task != rows[j].task
    ensures NoEmptyWrites(RestoreWrites(codec, rows))
    ensures forall i :: 0 <= i < |rows| && rows[i].key == key && rows[i].task == task ==>
              WriteAt(RestoreWrites(codec, rows), key, task) == Some(DecodedWrite(codec, rows[i]))
    ensures (forall i :: 0 <= i < |rows| ==> rows[i].key != key || rows[i].task != task) ==>
              WriteAt(RestoreWrites(codec, rows), key, task) == None
  {
    if rows != [] {
      var front, row := Front(rows), Last(rows);
      assert forall i :: 0 <= i < |front| ==> front[i] == rows[i];
      RestoreWritesIs(codec, front, key, task);
      var before := RestoreWrites(codec, front);
      assert RestoreWrites(codec, rows) == PutWrite(before, row.key, row.task, DecodedWrite(codec, row));
      PutWriteIs(before, row.key, row.task, DecodedWrite(codec, row));
      hide PutWrite, RestoreWrites, NoEmptyWrites, WriteAt;
    }
  }

  lemma {:induction false} WritesRoundTrip(codec: Codec, rows: seq<WriteRow>, w: Writes)
    requires Faithful(codec) && ListsWrites(codec, rows, w)
    ensures RestoreWrites(codec, rows) == PrunedWrites(w)
  {
    PrunedWritesIs(w);
    var r := RestoreWrites(codec, rows);
    RestoreWritesIs(codec, rows, ("", "", ""), ("", 0));
    forall key, task ensures WriteAt(r, key, task) == WriteAt(w, key, task) {
      RestoreWritesIs(codec, rows, key, task);
      hide RestoreWrites, NoEmptyWrites, WriteAt;
      if WriteAt(w, key, task).Some? {
        var v := WriteAt(w, key, task).value;
        var row := WriteRowOf(codec, key, task, v);
        assert InWrites(codec, w, row);
        var i :| 0 <= i < |rows| && rows[i] == row;
        assert DecodedWrite(codec, row) == v;
      } else {
        forall i | 0 <= i < |rows| ensures rows[i].key != key || rows[i].task != task {
          assert rows[i] in rows && InWrites(codec, w, rows[i]);
        }
      }
    }
    WritesEqual(r, PrunedWrites(w));
  }

  lemma {:induction false} RestoreBlobsIs(codec: Codec, rows: seq<BlobRow>)
    requires forall i, j :: 0 <= i < j < |rows| ==> rows[i].key != rows[j].key
    ensures forall key :: key in RestoreBlobs(codec, rows) <==> exists i :: 0 <= i < |rows| && rows[i].key == key
    ensures forall i :: 0 <= i < |rows| ==>
              rows[i].key in RestoreBlobs(codec, rows)
              && RestoreBlobs(codec, rows)[rows[i].key] == FromText(codec, rows[i].value)
  {
    if rows != [] {
      assert forall i :: 0 <= i < |rows| - 1 ==> Front(rows)[i] == rows[i];
      RestoreBlobsIs(codec, Front(rows));
      forall i | 0 <= i < |rows|
        ensures rows[i].key in RestoreBlobs(codec, rows)
                && RestoreBlobs(codec, rows)[rows[i].key] == FromText(codec, rows[i].value)
      {
        if i < |rows| - 1 { assert Front(rows)[i] == rows[i] && rows[i].key != rows[|rows| - 1].key; }
      }
    }
  }

  lemma {:induction false} BlobsRoundTrip(codec: Codec, rows: seq<BlobRow>, b: Blobs)
    requires Faithful(codec) && ListsBlobs(codec, rows, b)
    ensures RestoreBlobs(codec, rows) == b
  {
    RestoreBlobsIs(codec, rows);
    var r := RestoreBlobs(codec, rows);
    forall key ensures key in r <==> key in b {
      if key in b {
        var row := BlobRow(key, ToText(codec, b[key]));
        assert row in rows;
      }
      if key in r {
        var i :| 0 <= i < |rows| && rows[i].key == key;
        assert rows[i] in rows;
      }
    }
    forall key | key in r ensures r[key] == b[key] {
      var i :| 0 <= i < |rows| && rows[i].key == key;
      assert rows[i] in rows;
    }
    assert r.Keys == b.Keys;
  }

  /** Restoring a snapshot, whatever the order of its rows, rebuilds the saver exactly, up to inner
      dictionaries that held nothing. */
  lemma {:induction false} SnapshotRoundTrip(codec: Codec, payload: Payload, saver: Saver)
    requires Faithful(codec) && Lists(codec, payload, saver)
    ensures Restore(codec, payload) == Pruned(saver)
  {
    StorageRoundTrip(codec, payload.storage, saver.storage);
    WritesRoundTrip(codec, payload.writes, saver.writes);
    BlobsRoundTrip(codec, payload.blobs, saver.blobs);
  }

  /** A snapshot of what was restored holds the same rows again. */
  lemma {:induction false} SnapshotAgain(codec: Codec, payload: Payload, again: Payload, saver: Saver)
    requires Faithful(codec) && Lists(codec, payload, saver) && Lists(codec, again, Restore(codec, payload))
    ensures forall row :: row in again.storage <==> row in payload.storage
    ensures forall row :: row in again.writes <==> row in payload.writes
    ensures forall row :: row in again.blobs <==> row in payload.blobs
  {
    SnapshotRoundTrip(codec, payload, saver);
    PrunedStorageIs(saver.storage);
    PrunedWritesIs(saver.writes);
    hide PrunedStorage, PrunedWrites, StoredAt, WriteAt, Restore;
    forall row ensures row in again.storage <==> row in payload.storage {
      assert InStorage(codec, PrunedStorage(saver.storage), row) <==> InStorage(codec, saver.storage, row);
    }
    forall row ensures row in again.writes <==> row in payload.writes {
      assert InWrites(codec, PrunedWrites(saver.writes), row) <==> InWrites(codec, saver.writes, row);
    }
  }
}
