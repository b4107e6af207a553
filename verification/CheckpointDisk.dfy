/** The directory of one checkpoint stream, its atomic operations, and what a crash leaves. */
module CheckpointDisk {
  import opened Prelude
  import opened CheckpointChain

  /** A small file that is replaced or linked as a whole. */
  datatype FileOf<T> = Missing | Corrupt | Holds(value: T)

  datatype Intent = Intent(
    id: string,
    parent: Option<string>,
    revision: nat,
    bodyDigest: Digest,
    recordDigest: Digest)

  datatype Head = Head(id: string, revision: nat, recordDigest: Digest)

  type Inode = nat

  /** Paths lead to inodes and inodes to contents; `None` is a record file that does not decode or
      fails its own digest.  The record indexes are keyed by what makes up the file names. */
  datatype Disk = Disk(
    bodies: map<Digest, Bytes>,
    inodes: seq<Option<StoredCheckpoint>>,
    byId: map<Digest, Inode>,
    byRevision: map<nat, Inode>,
    pending: FileOf<Intent>,
    head: FileOf<Head>)

  /** The directory changes that were made but not yet synced: former contents of the two small
      files, and new links. */
  datatype Unsynced = Unsynced(
    pending: set<FileOf<Intent>>,
    head: set<FileOf<Head>>,
    ids: set<Digest>,
    revisions: set<nat>,
    bodies: set<Digest>)

  const SYNCED := Unsynced({}, {}, {}, {}, {})

  const EMPTY := Disk(map[], [], map[], map[], Missing, Missing)

  datatype Fs = Fs(disk: Disk, unsynced: Unsynced) {

    function PublishBody(key: Digest, body: Bytes): Fs {
      Fs(disk.(bodies := disk.bodies[key := body]), unsynced.(bodies := unsynced.bodies + {key}))
    }

    function SyncBody(key: Digest): Fs {
      this.(unsynced := unsynced.(bodies := unsynced.bodies - {key}))
    }

    function WriteTemp(record: StoredCheckpoint): Fs {
      this.(disk := disk.(inodes := disk.inodes + [Some(record)]))
    }

    function LinkPending(intent: Intent): Fs {
      Fs(disk.(pending := Holds(intent)), unsynced.(pending := unsynced.pending + {disk.pending}))
    }

    function UnlinkPending(): Fs {
      Fs(disk.(pending := Missing), unsynced.(pending := unsynced.pending + {disk.pending}))
    }

    function ReplaceHead(head: Head): Fs {
      Fs(disk.(head := Holds(head)), unsynced.(head := unsynced.head + {disk.head}))
    }

    /** The stream directory holds both small files. */
    function SyncStream(): Fs {
      this.(unsynced := unsynced.(pending := {}, head := {}))
    }

    function LinkId(key: Digest, inode: Inode): Fs {
      Fs(disk.(byId := disk.byId[key := inode]), unsynced.(ids := unsynced.ids + {key}))
    }

    function SyncId(key: Digest): Fs {
      this.(unsynced := unsynced.(ids := unsynced.ids - {key}))
    }

    function LinkRevision(revision: nat, inode: Inode): Fs {
      Fs(disk.(byRevision := disk.byRevision[revision := inode]),
         unsynced.(revisions := unsynced.revisions + {revision}))
    }

    function SyncRevision(revision: nat): Fs {
      this.(unsynced := unsynced.(revisions := unsynced.revisions - {revision}))
    }
  }

  /** A crash keeps what was synced and any part of what was not. */
  ghost predicate CrashTo(fs: Fs, left: Disk) {
    && left.inodes == fs.disk.inodes
    && Survives(fs.disk.bodies, fs.unsynced.bodies, left.bodies)
    && Survives(fs.disk.byId, fs.unsynced.ids, left.byId)
    && Survives(fs.disk.byRevision, fs.unsynced.revisions, left.byRevision)
    && (left.pending == fs.disk.pending || left.pending in fs.unsynced.pending)
    && (left.head == fs.disk.head || left.head in fs.unsynced.head)
  }

  ghost predicate Survives<K, V>(links: map<K, V>, atRisk: set<K>, left: map<K, V>) {
    && left.Keys <= links.Keys
    && links.Keys - atRisk <= left.Keys
    && forall k :: k in left ==> left[k] == links[k]
  }

  /** Nothing is durable before its sync: each change can be lost as well as kept. */
  lemma UnsyncedMayGo(fs: Fs, key: Digest, body: Bytes, revision: nat, inode: Inode, intent: Intent, head: Head)
    ensures CrashTo(fs.PublishBody(key, body), fs.disk.(bodies := fs.disk.bodies - {key}))
    ensures CrashTo(fs.LinkId(key, inode), fs.disk.(byId := fs.disk.byId - {key}))
    ensures CrashTo(fs.LinkRevision(revision, inode), fs.disk.(byRevision := fs.disk.byRevision - {revision}))
    ensures CrashTo(fs.LinkPending(intent), fs.disk) && CrashTo(fs.UnlinkPending(), fs.disk)
    ensures CrashTo(fs.ReplaceHead(head), fs.disk)
    ensures CrashTo(fs.PublishBody(key, body), fs.PublishBody(key, body).disk)
    ensures CrashTo(fs.LinkId(key, inode), fs.LinkId(key, inode).disk)
    ensures CrashTo(fs.LinkRevision(revision, inode), fs.LinkRevision(revision, inode).disk)
  {}

  // ----- reading -----

  function FileAt(d: Disk, inode: Inode): Option<StoredCheckpoint> {
    if inode < |d.inodes| then d.inodes[inode] else None
  }

  /** The full body check: present, of the recorded size and digest. */
  function CheckBody(sha: Sha, d: Disk, record: StoredCheckpoint): Option<Error> {
    if record.digest !in d.bodies then Some(MissingBody)
    else if |d.bodies[record.digest]| != record.size then Some(BodySizeMismatch)
    else if sha.body(d.bodies[record.digest]) != record.digest then Some(BodyDigestMismatch)
    else None
  }

  /** The listing check only looks at the size. */
  function CheckListedBody(d: Disk, record: StoredCheckpoint): Option<Error> {
    if record.digest !in d.bodies then Some(MissingBody)
    else if |d.bodies[record.digest]| != record.size then Some(BodySizeMismatch)
    else None
  }

  function ReadRecord(sha: Sha, d: Disk, inode: Inode, verifyBody: bool): Result<Option<StoredCheckpoint>, Error> {
    match FileAt(d, inode)
    case None => Err(InvalidRecord)
    case Some(record) =>
      if verifyBody && CheckBody(sha, d, record).Some? then Err(CheckBody(sha, d, record).value)
      else Ok(Some(record))
  }

  function LoadById(sha: Sha, d: Disk, id: string, verifyBody: bool): Result<Option<StoredCheckpoint>, Error> {
    if sha.ident(id) in d.byId then ReadRecord(sha, d, d.byId[sha.ident(id)], verifyBody) else Ok(None)
  }

  function LoadByRevision(sha: Sha, d: Disk, revision: nat, verifyBody: bool): Result<Option<StoredCheckpoint>, Error> {
    if revision in d.byRevision then ReadRecord(sha, d, d.byRevision[revision], verifyBody) else Ok(None)
  }

  function LoadPending(d: Disk): Result<Option<Intent>, Error> {
    match d.pending
    case Missing => Ok(None)
    case Corrupt => Err(InvalidPending)
    case Holds(intent) => Ok(Some(intent))
  }

  function LoadHead(d: Disk): Result<Option<Head>, Error> {
    match d.head
    case Missing => Ok(None)
    case Corrupt => Err(InvalidHead)
    case Holds(head) => Ok(Some(head))
  }

  /** Both index paths exist and name one inode. */
  function CheckPair(sha: Sha, d: Disk, id: string, revision: nat): Option<Error> {
    if sha.ident(id) !in d.byId || revision !in d.byRevision then Some(InvalidRecord)
    else if d.byId[sha.ident(id)] != d.byRevision[revision] then Some(LinkMismatch)
    else None
  }

  // ----- what the disk stands for -----

  function HeadFor(sha: Sha, record: StoredCheckpoint): Head {
    Head(record.id, record.revision, sha.record(record))
  }

  function IntentFor(sha: Sha, record: StoredCheckpoint): Intent {
    Intent(record.id, record.parent, record.revision, record.digest, sha.record(record))
  }

  function HeadOf(sha: Sha, c: Chain): FileOf<Head> {
    if c == [] then Missing else Holds(HeadFor(sha, Last(c).desc))
  }

  function IdKeys(sha: Sha, c: Chain): set<Digest> {
    set i | 0 <= i < |c| :: sha.ident(c[i].desc.id)
  }

  function Revisions(n: nat): (s: set<nat>)
    ensures forall r: nat :: r in s <==> 1 <= r <= n
  {
    if n == 0 then {} else Revisions(n - 1) + {n}
  }

  ghost predicate KeyedApart(sha: Sha, c: Chain) {
    forall i, j :: 0 <= i < j < |c| ==> sha.ident(c[i].desc.id) != sha.ident(c[j].desc.id)
  }

  ghost predicate IdLinked(sha: Sha, d: Disk, e: Entry) {
    sha.ident(e.desc.id) in d.byId && FileAt(d, d.byId[sha.ident(e.desc.id)]) == Some(e.desc)
  }

  ghost predicate RevisionLinked(d: Disk, e: Entry) {
    e.desc.revision in d.byRevision && FileAt(d, d.byRevision[e.desc.revision]) == Some(e.desc)
  }

  ghost predicate Paired(sha: Sha, d: Disk, e: Entry) {
    && IdLinked(sha, d, e)
    && RevisionLinked(d, e)
    && d.byId[sha.ident(e.desc.id)] == d.byRevision[e.desc.revision]
  }

  ghost predicate BodyHeld(d: Disk, e: Entry) {
    e.desc.digest in d.bodies && d.bodies[e.desc.digest] == e.body
  }

  /** A linear history whose bodies are all stored. */
  ghost predicate Stored(sha: Sha, d: Disk, c: Chain) {
    WellChained(sha, c) && KeyedApart(sha, c) && forall i :: 0 <= i < |c| ==> BodyHeld(d, c[i])
  }

  ghost predicate Indexed(sha: Sha, d: Disk, c: Chain) {
    forall i :: 0 <= i < |c| ==> Paired(sha, d, c[i])
  }

  /** The two indexes hold exactly the chain, and the head names its end. */
  ghost predicate Current(sha: Sha, d: Disk, c: Chain) {
    && Stored(sha, d, c)
    && Indexed(sha, d, c)
    && d.byId.Keys == IdKeys(sha, c)
    && d.byRevision.Keys == Revisions(|c|)
    && d.head == HeadOf(sha, c)
  }

  /** An intent that needs no repair: for the version at the head, or for a next version of which
      no link exists. */
  ghost predicate Harmless(sha: Sha, c: Chain, intent: Intent) {
    || (c != [] && intent == IntentFor(sha, Last(c).desc))
    || (intent.revision == |c| + 1 && sha.ident(intent.id) !in IdKeys(sha, c))
  }

  ghost predicate HarmlessFile(sha: Sha, c: Chain, pending: FileOf<Intent>) {
    pending.Missing? || (pending.Holds? && Harmless(sha, c, pending.value))
  }

  /** The last version of the chain is being published: its intent is recorded, at least one of
      its two links exists, and the head may not have followed yet. */
  ghost predicate Publishing(sha: Sha, d: Disk, c: Chain) {
    && c != []
    && Stored(sha, d, c)
    && PartlyLinked(sha, d, Front(c), Last(c))
    && (sha.ident(Last(c).desc.id) in d.byId || |c| in d.byRevision)
    && d.head == HeadOf(sha, Front(c))
  }

  /** The indexes hold a chain, and of one more version some of the links. */
  ghost predicate PartlyLinked(sha: Sha, d: Disk, c: Chain, e: Entry) {
    var key, revision := sha.ident(e.desc.id), |c| + 1;
    && d.pending == Holds(IntentFor(sha, e.desc))
    && Indexed(sha, d, c)
    && d.byId.Keys - {key} == IdKeys(sha, c)
    && d.byRevision.Keys - {revision} == Revisions(|c|)
    && (key in d.byId ==> IdLinked(sha, d, e))
    && (revision in d.byRevision ==> RevisionLinked(d, e))
    && (key in d.byId && revision in d.byRevision ==> Paired(sha, d, e))
  }

  /** The chain that the disk stands for: what every later recovery settles on. */
  ghost predicate Represents(sha: Sha, d: Disk, c: Chain) {
    (Current(sha, d, c) && HarmlessFile(sha, c, d.pending)) || Publishing(sha, d, c)
  }

  /** Whatever a crash at this point leaves stands for one of the two chains. */
  ghost predicate Tolerates(sha: Sha, fs: Fs, c: Chain, next: Chain) {
    forall left :: CrashTo(fs, left) ==> Represents(sha, left, c) || Represents(sha, left, next)
  }

  // ----- the two shapes every micro-step has -----

  /** Nothing unsynced but intents that need no repair and bodies the chain does not use. */
  ghost predicate Resting(sha: Sha, fs: Fs, c: Chain) {
    && Current(sha, fs.disk, c)
    && HarmlessFile(sha, c, fs.disk.pending)
    && (forall p :: p in fs.unsynced.pending ==> HarmlessFile(sha, c, p))
    && fs.unsynced.head == {} && fs.unsynced.ids == {} && fs.unsynced.revisions == {}
    && (forall i :: 0 <= i < |c| ==> c[i].desc.digest !in fs.unsynced.bodies)
  }

  /** Version `e` is being added to `c`: only its links and the head can be unsynced, and the head
      moves last. */
  ghost predicate Adding(sha: Sha, fs: Fs, c: Chain, e: Entry) {
    var d, key := fs.disk, sha.ident(e.desc.id);
    && Stored(sha, d, c + [e])
    && PartlyLinked(sha, d, c, e)
    && fs.unsynced.pending == {} && fs.unsynced.bodies == {}
    && fs.unsynced.ids <= {key} && fs.unsynced.revisions <= {|c| + 1}
    && (|| (d.head == HeadOf(sha, c) && fs.unsynced.head == {})
        || (&& d.head == HeadOf(sha, c + [e])
            && key in d.byId && |c| + 1 in d.byRevision
            && fs.unsynced.ids == {} && fs.unsynced.revisions == {}
            && fs.unsynced.head <= {HeadOf(sha, c)}))
  }

  /** One of the links of the version being added is certain to survive. */
  ghost predicate Anchored(sha: Sha, fs: Fs, c: Chain, e: Entry) {
    var key := sha.ident(e.desc.id);
    || (key in fs.disk.byId && key !in fs.unsynced.ids)
    || (|c| + 1 in fs.disk.byRevision && |c| + 1 !in fs.unsynced.revisions)
  }

  lemma {:induction false} KeysOfExtension(sha: Sha, c: Chain, e: Entry)
    ensures IdKeys(sha, c + [e]) == IdKeys(sha, c) + {sha.ident(e.desc.id)}
    ensures Revisions(|c| + 1) == Revisions(|c|) + {|c| + 1}
    ensures KeyedApart(sha, c + [e]) ==> sha.ident(e.desc.id) !in IdKeys(sha, c)
    ensures Front(c + [e]) == c && Last(c + [e]) == e
  {
    var next, key := c + [e], sha.ident(e.desc.id);
    forall k | k in IdKeys(sha, c) + {key} ensures k in IdKeys(sha, next) {
      if k == key { assert next[|c|] == e; }
      else {
        var i :| 0 <= i < |c| && k == sha.ident(c[i].desc.id);
        assert next[i] == c[i];
      }
    }
    forall k | k in IdKeys(sha, next) ensures k in IdKeys(sha, c) + {key} {
      var i :| 0 <= i < |next| && k == sha.ident(next[i].desc.id);
    }
    if KeyedApart(sha, next) {
      forall i | 0 <= i < |c| ensures sha.ident(c[i].desc.id) != key {
        assert next[i] == c[i] && next[|c|] == e;
      }
    }
  }

  lemma {:induction false} RestingTolerates(sha: Sha, fs: Fs, c: Chain)
    requires Resting(sha, fs, c)
    ensures Tolerates(sha, fs, c, c)
  {
    forall left | CrashTo(fs, left) ensures Represents(sha, left, c) {
      assert left.byId == fs.disk.byId && left.byRevision == fs.disk.byRevision;
      forall i | 0 <= i < |c| ensures BodyHeld(left, c[i]) && Paired(sha, left, c[i]) {
        assert BodyHeld(fs.disk, c[i]) && Paired(sha, fs.disk, c[i]);
      }
    }
  }

  lemma {:induction false} StoredPrefix(sha: Sha, d: Disk, c: Chain, e: Entry)
    requires Stored(sha, d, c + [e])
    ensures Stored(sha, d, c) && BodyHeld(d, e) && Describes(sha, e)
    ensures e.desc.revision == |c| + 1 && e.desc.parent == HeadId(c)
  {
    var next := c + [e];
    assert next[..|c|] == c && next[|c|] == e;
    assert InOrder(sha, next, |c|);
    WellChainedPrefix(sha, next, |c|);
    forall i | 0 <= i < |c| ensures BodyHeld(d, c[i]) { assert next[i] == c[i]; }
    forall i, j | 0 <= i < j < |c| ensures sha.ident(c[i].desc.id) != sha.ident(c[j].desc.id) {
      assert next[i] == c[i] && next[j] == c[j];
    }
  }

  /** What is left of a version being added, link by link. */
  lemma {:induction false} AddingLeft(sha: Sha, fs: Fs, c: Chain, e: Entry, left: Disk)
    requires Adding(sha, fs, c, e) && CrashTo(fs, left)
    ensures Stored(sha, left, c + [e]) && PartlyLinked(sha, left, c, e)
    ensures left.head == HeadOf(sha, c) ||
            (left.head == HeadOf(sha, c + [e]) && Paired(sha, left, e))
  {
    var d, next, key := fs.disk, c + [e], sha.ident(e.desc.id);
    StoredPrefix(sha, d, c, e);
    KeysOfExtension(sha, c, e);
    assert left.bodies == d.bodies;
    forall i | 0 <= i < |next| ensures BodyHeld(left, next[i]) { assert BodyHeld(d, next[i]); }
    IndexedElsewhere(sha, d, left, c, e);
    hide WellChained, KeyedApart, Indexed, IdKeys, HeadFor;
    assert left.byId.Keys - {key} == d.byId.Keys - {key};
    assert left.byRevision.Keys - {|c| + 1} == d.byRevision.Keys - {|c| + 1};
  }

  lemma {:induction false} AddingTolerates(sha: Sha, fs: Fs, c: Chain, e: Entry)
    requires Adding(sha, fs, c, e)
    ensures Tolerates(sha, fs, c, c + [e])
    ensures Anchored(sha, fs, c, e) ==> Tolerates(sha, fs, c + [e], c + [e])
  {
    var next, key := c + [e], sha.ident(e.desc.id);
    forall left | CrashTo(fs, left)
      ensures Represents(sha, left, c) || Represents(sha, left, next)
      ensures Anchored(sha, fs, c, e) ==> Represents(sha, left, next)
    {
      AddingLeft(sha, fs, c, e, left);
      StoredPrefix(sha, left, c, e);
      KeysOfExtension(sha, c, e);
      if left.head == HeadOf(sha, next) && Paired(sha, left, e) {
        CompletedIsCurrent(sha, left, c, e);
      } else if key in left.byId || |c| + 1 in left.byRevision {
        assert Publishing(sha, left, next);
      } else {
        assert Current(sha, left, c);
      }
    }
  }

  /** With both links in place and the head moved, the longer chain is current. */
  lemma {:induction false} CompletedIsCurrent(sha: Sha, d: Disk, c: Chain, e: Entry)
    requires Stored(sha, d, c + [e]) && PartlyLinked(sha, d, c, e)
    requires Paired(sha, d, e) && d.head == HeadOf(sha, c + [e])
    ensures Current(sha, d, c + [e]) && HarmlessFile(sha, c + [e], d.pending)
  {
    hide Stored, IdKeys, FileAt;
    StoredPrefix(sha, d, c, e);
    KeysOfExtension(sha, c, e);
    assert d.byId.Keys == (d.byId.Keys - {sha.ident(e.desc.id)}) + {sha.ident(e.desc.id)};
    assert d.byRevision.Keys == (d.byRevision.Keys - {|c| + 1}) + {|c| + 1};
  }

  // ----- the steps of adding a version -----

  lemma {:induction false} AddIdLink(sha: Sha, fs: Fs, c: Chain, e: Entry, inode: Inode)
    requires Adding(sha, fs, c, e) && sha.ident(e.desc.id) !in fs.disk.byId
    requires FileAt(fs.disk, inode) == Some(e.desc)
    requires |c| + 1 in fs.disk.byRevision ==> fs.disk.byRevision[|c| + 1] == inode
    ensures Adding(sha, fs.LinkId(sha.ident(e.desc.id), inode), c, e)
  {
    var key := sha.ident(e.desc.id);
    var linked := fs.LinkId(key, inode);
    StoredPrefix(sha, fs.disk, c, e);
    forall i | 0 <= i < |c + [e]| ensures BodyHeld(linked.disk, (c + [e])[i]) {
      assert BodyHeld(fs.disk, (c + [e])[i]);
    }
    IndexedElsewhere(sha, fs.disk, linked.disk, c, e);
    assert linked.disk.byId.Keys - {key} == fs.disk.byId.Keys - {key};
  }

  lemma {:induction false} AddRevisionLink(sha: Sha, fs: Fs, c: Chain, e: Entry, inode: Inode)
    requires Adding(sha, fs, c, e) && |c| + 1 !in fs.disk.byRevision
    requires FileAt(fs.disk, inode) == Some(e.desc)
    requires sha.ident(e.desc.id) in fs.disk.byId ==> fs.disk.byId[sha.ident(e.desc.id)] == inode
    ensures Adding(sha, fs.LinkRevision(|c| + 1, inode), c, e)
  {
    var linked := fs.LinkRevision(|c| + 1, inode);
    StoredPrefix(sha, fs.disk, c, e);
    forall i | 0 <= i < |c + [e]| ensures BodyHeld(linked.disk, (c + [e])[i]) {
      assert BodyHeld(fs.disk, (c + [e])[i]);
    }
    IndexedElsewhere(sha, fs.disk, linked.disk, c, e);
    assert linked.disk.byRevision.Keys - {|c| + 1} == fs.disk.byRevision.Keys - {|c| + 1};
  }

  /** Changing only the links of the version being added leaves the others paired. */
  lemma {:induction false} IndexedElsewhere(sha: Sha, d: Disk, d': Disk, c: Chain, e: Entry)
    requires Stored(sha, d, c + [e]) && Indexed(sha, d, c) && d'.inodes == d.inodes
    requires forall k :: k in d.byId && k != sha.ident(e.desc.id) ==> k in d'.byId && d'.byId[k] == d.byId[k]
    requires forall r :: r in d.byRevision && r != |c| + 1 ==> r in d'.byRevision && d'.byRevision[r] == d.byRevision[r]
    ensures Indexed(sha, d', c)
  {
    StoredPrefix(sha, d, c, e);
    forall i | 0 <= i < |c| ensures Paired(sha, d', c[i]) {
      assert Paired(sha, d, c[i]) && InOrder(sha, c, i);
      assert (c + [e])[i] == c[i] && (c + [e])[|c|] == e;
    }
  }

  lemma {:induction false} SyncLinks(sha: Sha, fs: Fs, c: Chain, e: Entry)
    requires Adding(sha, fs, c, e)
    ensures Adding(sha, fs.SyncId(sha.ident(e.desc.id)), c, e)
    ensures Adding(sha, fs.SyncRevision(|c| + 1), c, e)
    ensures Adding(sha, fs.SyncStream(), c, e)
  {}

  lemma {:induction false} AdvanceHead(sha: Sha, fs: Fs, c: Chain, e: Entry)
    requires Adding(sha, fs, c, e) && Paired(sha, fs.disk, e)
    requires fs.unsynced.ids == {} && fs.unsynced.revisions == {} && fs.disk.head == HeadOf(sha, c)
    ensures Adding(sha, fs.ReplaceHead(HeadFor(sha, e.desc)), c, e)
    ensures Anchored(sha, fs.ReplaceHead(HeadFor(sha, e.desc)), c, e)
    ensures Resting(sha, fs.ReplaceHead(HeadFor(sha, e.desc)).SyncStream(), c + [e])
  {
    var headed := fs.ReplaceHead(HeadFor(sha, e.desc));
    StoredPrefix(sha, fs.disk, c, e);
    forall i | 0 <= i < |c + [e]| ensures BodyHeld(headed.disk, (c + [e])[i]) {
      assert BodyHeld(fs.disk, (c + [e])[i]);
    }
    IndexedElsewhere(sha, fs.disk, headed.disk, c, e);
    assert Adding(sha, headed, c, e);
    CompletedIsCurrent(sha, headed.disk, c, e);
  }
}
