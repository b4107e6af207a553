/** Saving a checkpoint in a stream directory: recovery, the write, and what a crash in between
    leaves. */
module CheckpointSave {
  import opened Prelude
  import opened CheckpointChain
  import opened CheckpointDisk
  import opened CheckpointRecovery

  /** The idempotence test of the filesystem store compares sizes and digests, not bodies. */
  predicate SameCanonicalRequest(sha: Sha, record: StoredCheckpoint, req: WriteRequest) {
    && record.id == req.id
    && record.parent == req.parent
    && record.serializerName == req.serializerName
    && record.serializerVersion == req.serializerVersion
    && record.contentType == req.contentType
    && record.size == |req.body|
    && record.digest == sha.body(req.body)
    && SameMetadata(record.metadata, req.metadata)
  }

  function StoreBody(fs: Fs, key: Digest, body: Bytes): Outcome<()> {
    if key in fs.disk.bodies then
      Outcome([], if fs.disk.bodies[key] == body then Ok(()) else Err(BodyIntegrityFailure))
    else
      var published := fs.PublishBody(key, body);
      Outcome([published, published.SyncBody(key)], Ok(()))
  }

  /** What is wrong with a by-revision link that was there already. */
  function CheckPresentRevision(sha: Sha, d: Disk, desc: StoredCheckpoint): Option<Error> {
    match LoadByRevision(sha, d, desc.revision, true)
    case Err(e) => Some(e)
    case Ok(existing) =>
      if existing != Some(desc) then Some(Conflict) else CheckPair(sha, d, desc.id, desc.revision)
  }

  /** The intent is recorded, then the record is written under a name outside the indexes. */
  function Opening(sha: Sha, fs: Fs, desc: StoredCheckpoint): (steps: seq<Fs>)
    ensures |steps| == 3
  {
    var intended := fs.LinkPending(IntentFor(sha, desc));
    [intended, intended.SyncStream(), intended.SyncStream().WriteTemp(desc)]
  }

  /** The by-revision link, unless it is there, and the two syncs. */
  function Numbering(sha: Sha, identified: Fs, desc: StoredCheckpoint, inode: Inode): (steps: seq<Fs>)
    ensures steps != []
  {
    var numbering :=
      if desc.revision in identified.disk.byRevision then []
      else [identified.LinkRevision(desc.revision, inode)];
    var idSynced := After(identified, numbering).SyncId(sha.ident(desc.id));
    numbering + [idSynced, idSynced.SyncRevision(desc.revision)]
  }

  /** Intent, both links, both syncs, head, cleanup.  The by-id path is free: the save has just
      looked there, and nothing else writes under the stream lock. */
  function PublishRecord(sha: Sha, fs: Fs, desc: StoredCheckpoint, unlinks: bool): Outcome<StoredCheckpoint>
    requires sha.ident(desc.id) !in fs.disk.byId
  {
    if !fs.disk.pending.Missing? then Outcome([], Err(PendingConflict))
    else
      var opening, inode := Opening(sha, fs, desc), |fs.disk.inodes|;
      var identified := Last(opening).LinkId(sha.ident(desc.id), inode);
      if desc.revision in fs.disk.byRevision && CheckPresentRevision(sha, identified.disk, desc).Some? then
        Outcome(opening + [identified], Err(CheckPresentRevision(sha, identified.disk, desc).value))
      else
        var numbering := Numbering(sha, identified, desc, inode);
        var headed := WriteHead(Last(numbering), HeadFor(sha, desc));
        Outcome(opening + ([identified] + numbering) + (headed + Cleanup(Last(headed), unlinks)), Ok(desc))
  }

  function Append(sha: Sha, fs: Fs, req: WriteRequest, revision: nat, unlinks: bool): Outcome<StoredCheckpoint>
    requires sha.ident(req.id) !in fs.disk.byId
  {
    var desc := Describe(sha, req, revision);
    var body := StoreBody(fs, desc.digest, req.body);
    match body.result
    case Err(e) => Outcome(body.steps, Err(e))
    case Ok(_) =>
      var published := PublishRecord(sha, After(fs, body.steps), desc, unlinks);
      Outcome(body.steps + published.steps, published.result)
  }

  /** The write once recovery is done. */
  function Write(sha: Sha, fs: Fs, req: WriteRequest, unlinks: bool): Outcome<StoredCheckpoint> {
    match LoadById(sha, fs.disk, req.id, true)
    case Err(e) => Outcome([], Err(e))
    case Ok(Some(existing)) =>
      Outcome([], if SameCanonicalRequest(sha, existing, req) then Ok(existing) else Err(Conflict))
    case Ok(None) =>
      match LoadHead(fs.disk)
      case Err(e) => Outcome([], Err(e))
      case Ok(None) =>
        if req.parent.Some? then Outcome([], Err(StaleParent)) else Append(sha, fs, req, 1, unlinks)
      case Ok(Some(head)) =>
        if req.parent != Some(head.id) then Outcome([], Err(StaleParent))
        else Append(sha, fs, req, head.revision + 1, unlinks)
  }

  function Save(sha: Sha, fs: Fs, req: WriteRequest, unlinks: bool): Outcome<StoredCheckpoint> {
    var recovered := Recover(sha, fs, true, unlinks);
    match recovered.result
    case Err(e) => Outcome(recovered.steps, Err(e))
    case Ok(_) =>
      var written := Write(sha, After(fs, recovered.steps), req, unlinks);
      Outcome(recovered.steps + written.steps, written.result)
  }

  // ----- the write keeps the chain or extends it -----

  lemma {:induction false} StoreBodyRests(sha: Sha, fs: Fs, c: Chain, body: Bytes)
    requires Resting(sha, fs, c) && fs.unsynced.bodies == {}
    ensures var stored := StoreBody(fs, sha.body(body), body);
            var after := After(fs, stored.steps);
            && AllTolerate(sha, stored.steps, c, c)
            && Resting(sha, after, c) && after.unsynced.bodies == {}
            && after.disk.pending == fs.disk.pending
            && (stored.result.Ok? ==> sha.body(body) in after.disk.bodies && after.disk.bodies[sha.body(body)] == body)
  {
    var key := sha.body(body);
    if key !in fs.disk.bodies {
      var published := fs.PublishBody(key, body);
      forall i | 0 <= i < |c|
        ensures BodyHeld(published.disk, c[i]) && Paired(sha, published.disk, c[i]) && c[i].desc.digest != key
      {
        assert BodyHeld(fs.disk, c[i]) && Paired(sha, fs.disk, c[i]);
      }
      RestingTolerates(sha, published, c);
      RestingTolerates(sha, published.SyncBody(key), c);
    }
  }

  /** The intent of the next version is recorded before any of its links. */
  lemma {:induction false} IntentRests(sha: Sha, fs: Fs, c: Chain, desc: StoredCheckpoint)
    requires Resting(sha, fs, c) && fs.disk.pending.Missing?
    requires desc.revision == |c| + 1 && sha.ident(desc.id) !in fs.disk.byId
    ensures Resting(sha, fs.LinkPending(IntentFor(sha, desc)), c)
    ensures Resting(sha, fs.LinkPending(IntentFor(sha, desc)).SyncStream(), c)
    ensures Resting(sha, fs.LinkPending(IntentFor(sha, desc)).SyncStream().WriteTemp(desc), c)
  {
    var written := fs.LinkPending(IntentFor(sha, desc)).SyncStream().WriteTemp(desc);
    forall i | 0 <= i < |c|
      ensures BodyHeld(written.disk, c[i]) && Paired(sha, written.disk, c[i])
      ensures Paired(sha, fs.LinkPending(IntentFor(sha, desc)).disk, c[i])
    {
      assert BodyHeld(fs.disk, c[i]) && Paired(sha, fs.disk, c[i]);
    }
  }

  /** With the intent recorded and the body stored, the version can be added. */
  lemma {:induction false} ReadyToAdd(sha: Sha, fs: Fs, c: Chain, e: Entry)
    requires Resting(sha, fs, c) && fs.unsynced.bodies == {} && fs.unsynced.pending == {}
    requires fs.disk.pending == Holds(IntentFor(sha, e.desc))
    requires e.desc.revision == |c| + 1 && e.desc.parent == HeadId(c) && Describes(sha, e) && BodyHeld(fs.disk, e)
    requires sha.ident(e.desc.id) !in fs.disk.byId
    ensures Adding(sha, fs, c, e)
    ensures WellChained(sha, c + [e])
  {
    var next, key := c + [e], sha.ident(e.desc.id);
    forall i | 0 <= i < |c| ensures sha.ident(c[i].desc.id) != key {
      assert sha.ident(c[i].desc.id) in IdKeys(sha, c);
    }
    forall i | 0 <= i < |next| ensures InOrder(sha, next, i) && BodyHeld(fs.disk, next[i]) {
      if i < |c| {
        assert InOrder(sha, c, i) && next[..i] == c[..i] && BodyHeld(fs.disk, c[i]);
      } else {
        assert next[..i] == c;
      }
    }
    assert |c| + 1 !in fs.disk.byRevision;
    assert fs.disk.byId.Keys - {key} == fs.disk.byId.Keys;
    assert fs.disk.byRevision.Keys - {|c| + 1} == fs.disk.byRevision.Keys;
  }

  lemma {:induction false} WidenTolerance(sha: Sha, steps: seq<Fs>, c: Chain, next: Chain)
    ensures AllTolerate(sha, steps, c, c) ==> AllTolerate(sha, steps, c, next)
    ensures AllTolerate(sha, steps, next, next) ==> AllTolerate(sha, steps, c, next)
  {}

  /** The two links of a version whose intent is recorded. */
  lemma {:induction false} LinksAdd(sha: Sha, written: Fs, c: Chain, e: Entry, inode: Inode)
    requires Adding(sha, written, c, e) && written.unsynced.ids == {} && written.unsynced.revisions == {}
    requires written.disk.head == HeadOf(sha, c) && FileAt(written.disk, inode) == Some(e.desc)
    requires sha.ident(e.desc.id) !in written.disk.byId && |c| + 1 !in written.disk.byRevision
    ensures var identified := written.LinkId(sha.ident(e.desc.id), inode);
            var linking := [identified] + Numbering(sha, identified, e.desc, inode);
            && AllTolerate(sha, linking, c, c + [e])
            && Adding(sha, Last(linking), c, e) && Paired(sha, Last(linking).disk, e)
            && Last(linking).unsynced.ids == {} && Last(linking).unsynced.revisions == {}
            && Last(linking).disk.head == HeadOf(sha, c)
  {
    assert e.desc.revision == |c| + 1 by { StoredPrefix(sha, written.disk, c, e); }
    var identified := written.LinkId(sha.ident(e.desc.id), inode);
    assert Adding(sha, identified, c, e) by { AddIdLink(sha, written, c, e, inode); }
    var numbered := identified.LinkRevision(|c| + 1, inode);
    assert Adding(sha, numbered, c, e) by { AddRevisionLink(sha, identified, c, e, inode); }
    var idSynced := numbered.SyncId(sha.ident(e.desc.id));
    assert Adding(sha, idSynced, c, e) by { SyncLinks(sha, numbered, c, e); }
    var allSynced := idSynced.SyncRevision(|c| + 1);
    assert Adding(sha, allSynced, c, e) by { SyncLinks(sha, idSynced, c, e); }
    AddingTolerates(sha, identified, c, e);
    AddingTolerates(sha, numbered, c, e);
    AddingTolerates(sha, idSynced, c, e);
    AddingTolerates(sha, allSynced, c, e);
    assert [identified] + Numbering(sha, identified, e.desc, inode) == [identified, numbered, idSynced, allSynced];
  }

  lemma {:induction false} OpeningAdds(sha: Sha, fs: Fs, c: Chain, e: Entry)
    requires Resting(sha, fs, c) && fs.unsynced.bodies == {} && fs.disk.pending.Missing?
    requires e.desc.revision == |c| + 1 && e.desc.parent == HeadId(c) && Describes(sha, e) && BodyHeld(fs.disk, e)
    requires sha.ident(e.desc.id) !in fs.disk.byId
    ensures var written := Last(Opening(sha, fs, e.desc));
            && AllTolerate(sha, Opening(sha, fs, e.desc), c, c)
            && Adding(sha, written, c, e)
            && written.unsynced.ids == {} && written.unsynced.revisions == {}
            && written.disk.head == HeadOf(sha, c) && FileAt(written.disk, |fs.disk.inodes|) == Some(e.desc)
            && written.disk.byId == fs.disk.byId && written.disk.byRevision == fs.disk.byRevision
  {
    var opening := Opening(sha, fs, e.desc);
    IntentRests(sha, fs, c, e.desc);
    RestingTolerates(sha, opening[0], c);
    RestingTolerates(sha, opening[1], c);
    RestingTolerates(sha, opening[2], c);
    ReadyToAdd(sha, opening[2], c, e);
  }

  /** A publication starts at the old chain, ends at the new one, and at every point in between
      leaves one of the two. */
  lemma {:induction false} PublishRecordAdds(sha: Sha, fs: Fs, c: Chain, e: Entry, unlinks: bool)
    requires Resting(sha, fs, c) && fs.unsynced.bodies == {} && fs.disk.pending.Missing?
    requires e.desc.revision == |c| + 1 && e.desc.parent == HeadId(c) && Describes(sha, e) && BodyHeld(fs.disk, e)
    requires sha.ident(e.desc.id) !in fs.disk.byId
    ensures var o := PublishRecord(sha, fs, e.desc, unlinks);
            && o.result == Ok(e.desc)
            && AllTolerate(sha, o.steps, c, c + [e])
            && Resting(sha, After(fs, o.steps), c + [e])
            && After(fs, o.steps).unsynced.bodies == {}
  {
    var next, inode := c + [e], |fs.disk.inodes|;
    assert |c| + 1 !in fs.disk.byRevision;
    var opening := Opening(sha, fs, e.desc);
    OpeningAdds(sha, fs, c, e);
    var written := Last(opening);
    LinksAdd(sha, written, c, e, inode);
    var identified := written.LinkId(sha.ident(e.desc.id), inode);
    var linking := [identified] + Numbering(sha, identified, e.desc, inode);
    HeadFollows(sha, Last(linking), c, e, unlinks);
    var headed := WriteHead(Last(linking), HeadFor(sha, e.desc));
    var closing := headed + Cleanup(Last(headed), unlinks);
    WidenTolerance(sha, opening, c, next);
    WidenTolerance(sha, closing, c, next);
    TolerateConcat(sha, opening, linking, c, next);
    TolerateConcat(sha, opening + linking, closing, c, next);
    assert PublishRecord(sha, fs, e.desc, unlinks) == Outcome(opening + linking + closing, Ok(e.desc));
  }

  /** The condition under which a digest collision makes the filesystem store answer differently:
      another identifier already has the file name of this one; or a stored version differs from
      the request in nothing but a body of the same size and digest; or the new body has the file
      name of a different stored body. */
  ghost predicate Collides(sha: Sha, d: Disk, c: Chain, req: WriteRequest) {
    var key := sha.body(req.body);
    match Find(c, req.id)
    case Some(e) =>
      // the stored version is the request but for a body of the same size and digest
      && e.body != req.body && |e.body| == |req.body| && sha.body(e.body) == key
      && SameRequest(Entry(e.desc, req.body), req)
    case None =>
      || sha.ident(req.id) in IdKeys(sha, c)
      || (req.parent == HeadId(c) && key in d.bodies && d.bodies[key] != req.body)
  }

  lemma {:induction false} LoadOnChain(sha: Sha, d: Disk, c: Chain, id: string)
    requires Current(sha, d, c)
    ensures Find(c, id).Some? ==> LoadById(sha, d, id, true) == Ok(Some(Find(c, id).value.desc))
    ensures Find(c, id).Some? ==> Describes(sha, Find(c, id).value)
    ensures Find(c, id).None? && sha.ident(id) !in IdKeys(sha, c) ==> LoadById(sha, d, id, true) == Ok(None)
    ensures Find(c, id).None? && sha.ident(id) in IdKeys(sha, c) ==>
              exists other: StoredCheckpoint :: LoadById(sha, d, id, true) == Ok(Some(other)) && other.id != id
  {
    if Find(c, id).Some? {
      var e := Find(c, id).value;
      var i :| 0 <= i < |c| && c[i] == e;
      assert InOrder(sha, c, i) && Paired(sha, d, c[i]) && BodyHeld(d, c[i]);
      ReadLinked(sha, d, e, true);
    } else if sha.ident(id) in IdKeys(sha, c) {
      var i :| 0 <= i < |c| && sha.ident(c[i].desc.id) == sha.ident(id);
      assert InOrder(sha, c, i) && Paired(sha, d, c[i]) && BodyHeld(d, c[i]);
      ReadLinked(sha, d, c[i], true);
      assert c[i].desc.id != id;
    }
  }

  ghost predicate WriteRefines(sha: Sha, fs: Fs, c: Chain, req: WriteRequest, o: Outcome<StoredCheckpoint>) {
    var (next, expected) := ChainSave(sha, c, req);
    && AllTolerate(sha, o.steps, c, next)
    && Resting(sha, After(fs, o.steps), if o.result.Ok? then next else c)
    && After(fs, o.steps).unsynced.bodies == {}
    && (fs.disk.pending.Missing? ==> (o.result == expected <==> !Collides(sha, fs.disk, c, req)))
    && (!Collides(sha, fs.disk, c, req) ==> o.result == expected || o.result == Err(PendingConflict))
  }

  lemma {:induction false} AfterConcat(fs: Fs, a: seq<Fs>, b: seq<Fs>)
    ensures After(fs, a + b) == After(After(fs, a), b)
  {
    if b == [] { assert a + b == a; }
  }

  lemma {:induction false} AppendRefines(sha: Sha, fs: Fs, c: Chain, req: WriteRequest, unlinks: bool)
    requires Resting(sha, fs, c) && fs.unsynced.bodies == {}
    requires Find(c, req.id).None? && sha.ident(req.id) !in IdKeys(sha, c) && req.parent == HeadId(c)
    ensures WriteRefines(sha, fs, c, req, Append(sha, fs, req, |c| + 1, unlinks))
  {
    var e := Entry(Describe(sha, req, |c| + 1), req.body);
    var next := c + [e];
    assert ChainSave(sha, c, req) == (next, Ok(e.desc));
    var stored := StoreBody(fs, e.desc.digest, req.body);
    var after := After(fs, stored.steps);
    StoreBodyRests(sha, fs, c, req.body);
    WidenTolerance(sha, stored.steps, c, next);
    if stored.result.Ok? {
      var published := PublishRecord(sha, after, e.desc, unlinks);
      AfterConcat(fs, stored.steps, published.steps);
      if after.disk.pending.Missing? {
        PublishRecordAdds(sha, after, c, e, unlinks);
      }
      TolerateConcat(sha, stored.steps, published.steps, c, next);
    }
  }

  /** Which branch a write takes on a chain. */
  lemma {:induction false} WriteBranch(sha: Sha, fs: Fs, c: Chain, req: WriteRequest, unlinks: bool)
    requires Resting(sha, fs, c)
    ensures var o := Write(sha, fs, req, unlinks);
            match Find(c, req.id) {
              case Some(e) =>
                o == Outcome([], if SameCanonicalRequest(sha, e.desc, req) then Ok(e.desc) else Err(Conflict))
              case None =>
                if sha.ident(req.id) in IdKeys(sha, c) then o == Outcome([], Err(Conflict))
                else if req.parent != HeadId(c) then o == Outcome([], Err(StaleParent))
                else sha.ident(req.id) !in fs.disk.byId && o == Append(sha, fs, req, |c| + 1, unlinks)
            }
  {
    hide Append, Indexed, HarmlessFile;
    LoadOnChain(sha, fs.disk, c, req.id);
    if c != [] { assert InOrder(sha, c, |c| - 1); }
  }

  lemma {:induction false} WriteOnChain(sha: Sha, fs: Fs, c: Chain, req: WriteRequest, unlinks: bool)
    requires Resting(sha, fs, c) && fs.unsynced.bodies == {}
    ensures WriteRefines(sha, fs, c, req, Write(sha, fs, req, unlinks))
  {
    WriteBranch(sha, fs, c, req, unlinks);
    if Find(c, req.id).Some? {
      LoadOnChain(sha, fs.disk, c, req.id);
    } else if sha.ident(req.id) !in IdKeys(sha, c) && req.parent == HeadId(c) {
      AppendRefines(sha, fs, c, req, unlinks);
    }
  }

  /** Saving in a stream directory, from any state a crash or another call leaves:
      every step leaves the old chain or the chain of the reference save;
      an accepted save ends at rest on the latter, a refused one at rest on the former;
      and with working cleanup the answer is the reference answer exactly when no digest collides. */
  lemma {:induction false} SaveRefines(sha: Sha, fs: Fs, c: Chain, req: WriteRequest, unlinks: bool)
    requires Startable(sha, fs, c)
    ensures var o := Save(sha, fs, req, unlinks);
            var (next, expected) := ChainSave(sha, c, req);
            && AllTolerate(sha, o.steps, c, next)
            && Resting(sha, After(fs, o.steps), if o.result.Ok? then next else c)
            && After(fs, o.steps).unsynced.bodies == {}
            && (unlinks ==> (o.result == expected <==> !Collides(sha, fs.disk, c, req)))
            && (!Collides(sha, fs.disk, c, req) ==> o.result == expected || o.result == Err(PendingConflict))
  {
    var recovered := Recover(sha, fs, true, unlinks);
    var after := After(fs, recovered.steps);
    RecoveryKeepsChain(sha, fs, c, true, unlinks);
    assert recovered.result == Ok(()) && Resting(sha, after, c);
    var written := Write(sha, after, req, unlinks);
    var next := ChainSave(sha, c, req).0;
    WriteOnChain(sha, after, c, req, unlinks);
    AfterConcat(fs, recovered.steps, written.steps);
    WidenTolerance(sha, recovered.steps, c, next);
    TolerateConcat(sha, recovered.steps, written.steps, c, next);
  }

  /** A save is its recovery followed by its write. */
  lemma {:induction false} SaveComposes(sha: Sha, fs: Fs, req: WriteRequest, unlinks: bool)
    ensures var recovered := Recover(sha, fs, true, unlinks);
            var between := After(fs, recovered.steps);
            var written := Write(sha, between, req, unlinks);
            var o := Save(sha, fs, req, unlinks);
            && (recovered.result.Err? ==>
                  o.steps == recovered.steps && o.result == Err(recovered.result.error))
            && (recovered.result.Ok? ==>
                  && o.steps == recovered.steps + written.steps && o.result == written.result
                  && After(fs, o.steps) == After(between, written.steps))
  {
    var recovered := Recover(sha, fs, true, unlinks);
    var between := After(fs, recovered.steps);
    AfterConcat(fs, recovered.steps, Write(sha, between, req, unlinks).steps);
  }

  // ----- one file operation at a time -----

  lemma {:induction false} BodyStepByStep(fs: Fs, key: Digest, body: Bytes)
    ensures StepByStep(fs, StoreBody(fs, key, body).steps)
  {
    hide Atomic;
    var published := fs.PublishBody(key, body);
    BodyOperations(fs, key, body);
    BodyOperations(published, key, body);
  }

  lemma BodyOperations(a: Fs, key: Digest, body: Bytes)
    ensures Atomic(a, a.PublishBody(key, body)) && Atomic(a, a.SyncBody(key))
  {}

  lemma RecordOperations(a: Fs, desc: StoredCheckpoint, intent: Intent, key: Digest, inode: Inode)
    ensures Atomic(a, a.LinkPending(intent)) && Atomic(a, a.SyncStream()) && Atomic(a, a.WriteTemp(desc))
    ensures Atomic(a, a.LinkId(key, inode)) && Atomic(a, a.SyncId(key))
    ensures Atomic(a, a.LinkRevision(desc.revision, inode)) && Atomic(a, a.SyncRevision(desc.revision))
  {}

  lemma {:induction false} OpeningStepByStep(sha: Sha, fs: Fs, desc: StoredCheckpoint, inode: Inode)
    ensures var identified := Last(Opening(sha, fs, desc)).LinkId(sha.ident(desc.id), inode);
            StepByStep(fs, Opening(sha, fs, desc) + [identified])
  {
    hide Atomic;
    var intent, key := IntentFor(sha, desc), sha.ident(desc.id);
    var intended := fs.LinkPending(intent);
    RecordOperations(fs, desc, intent, key, inode);
    RecordOperations(intended, desc, intent, key, inode);
    RecordOperations(intended.SyncStream(), desc, intent, key, inode);
    RecordOperations(intended.SyncStream().WriteTemp(desc), desc, intent, key, inode);
  }

  lemma {:induction false} NumberingStepByStep(sha: Sha, fs: Fs, desc: StoredCheckpoint, inode: Inode)
    ensures StepByStep(fs, Numbering(sha, fs, desc, inode))
  {
    hide Atomic;
    var intent, key := IntentFor(sha, desc), sha.ident(desc.id);
    var numbered := if desc.revision in fs.disk.byRevision then fs else fs.LinkRevision(desc.revision, inode);
    RecordOperations(fs, desc, intent, key, inode);
    RecordOperations(numbered, desc, intent, key, inode);
    RecordOperations(numbered.SyncId(key), desc, intent, key, inode);
  }

  lemma {:induction false} PublishStepByStep(sha: Sha, fs: Fs, desc: StoredCheckpoint, unlinks: bool)
    requires sha.ident(desc.id) !in fs.disk.byId
    ensures StepByStep(fs, PublishRecord(sha, fs, desc, unlinks).steps)
  {
    hide StepByStep, Opening, Numbering, CheckPresentRevision, Cleanup;
    NoSteps(fs);
    if fs.disk.pending.Missing? {
      var opening, inode := Opening(sha, fs, desc), |fs.disk.inodes|;
      var identified := Last(opening).LinkId(sha.ident(desc.id), inode);
      OpeningStepByStep(sha, fs, desc, inode);
      var numbering := Numbering(sha, identified, desc, inode);
      NumberingStepByStep(sha, identified, desc, inode);
      StepsConcat(fs, opening + [identified], numbering);
      HeadsStepByStep(Last(numbering), HeadFor(sha, desc), unlinks);
      var headed := WriteHead(Last(numbering), HeadFor(sha, desc));
      assert opening + ([identified] + numbering) == opening + [identified] + numbering;
      StepsConcat(fs, opening + [identified] + numbering, headed + Cleanup(Last(headed), unlinks));
    }
  }

  lemma {:induction false} AppendStepByStep(sha: Sha, fs: Fs, req: WriteRequest, revision: nat, unlinks: bool)
    requires sha.ident(req.id) !in fs.disk.byId
    ensures StepByStep(fs, Append(sha, fs, req, revision, unlinks).steps)
  {
    hide StepByStep, PublishRecord;
    var desc := Describe(sha, req, revision);
    var body := StoreBody(fs, desc.digest, req.body);
    BodyStepByStep(fs, desc.digest, req.body);
    PublishStepByStep(sha, After(fs, body.steps), desc, unlinks);
    StepsConcat(fs, body.steps, PublishRecord(sha, After(fs, body.steps), desc, unlinks).steps);
  }

  /** A save changes the directory by one file operation at a time, so a crash between any two of its
      operations is between two of its steps. */
  lemma {:induction false} SavesStepByStep(sha: Sha, fs: Fs, req: WriteRequest, unlinks: bool)
    ensures StepByStep(fs, Save(sha, fs, req, unlinks).steps)
  {
    hide StepByStep, Recover, Append, SameCanonicalRequest, CheckBody;
    var recovered := Recover(sha, fs, true, unlinks);
    var between := After(fs, recovered.steps);
    RecoversStepByStep(sha, fs, true, unlinks);
    NoSteps(between);
    if sha.ident(req.id) !in between.disk.byId {
      AppendStepByStep(sha, between, req, 1, unlinks);
      if between.disk.head.Holds? {
        AppendStepByStep(sha, between, req, between.disk.head.value.revision + 1, unlinks);
      }
    }
    assert StepByStep(between, Write(sha, between, req, unlinks).steps);
    StepsConcat(fs, recovered.steps, Write(sha, between, req, unlinks).steps);
  }

  // ----- publishing on any directory -----

  /** Whatever state a directory is in, a publication that reports success has left its record under both
      index names, on one file, and the head on it. */
  lemma {:induction false} PublicationIsSound(sha: Sha, fs: Fs, desc: StoredCheckpoint, unlinks: bool)
    requires sha.ident(desc.id) !in fs.disk.byId && PublishRecord(sha, fs, desc, unlinks).result.Ok?
    ensures var o := PublishRecord(sha, fs, desc, unlinks);
            var d', key := After(fs, o.steps).disk, sha.ident(desc.id);
            && o.result == Ok(desc) && fs.disk.pending.Missing?
            && key in d'.byId && desc.revision in d'.byRevision && d'.byId[key] == d'.byRevision[desc.revision]
            && FileAt(d', d'.byId[key]) == Some(desc)
            && d'.head == Holds(Head(desc.id, desc.revision, sha.record(desc)))
            && (unlinks ==> d'.pending.Missing?)
  {
    hide CheckBody;
  }

  /** A revision that is taken by another file is never published over: another record is a conflict, the
      same record a broken pair, and the publication stops at its identifier link. */
  lemma {:induction false} TakenRevisionIsRefused(sha: Sha, fs: Fs, desc: StoredCheckpoint, unlinks: bool)
    requires sha.ident(desc.id) !in fs.disk.byId && fs.disk.pending.Missing?
    requires desc.revision in fs.disk.byRevision && fs.disk.byRevision[desc.revision] < |fs.disk.inodes|
    requires var taken := FileAt(fs.disk, fs.disk.byRevision[desc.revision]);
             taken.Some? && CheckBody(sha, fs.disk, taken.value).None?
    ensures var o := PublishRecord(sha, fs, desc, unlinks);
            && o.result == Err(if FileAt(fs.disk, fs.disk.byRevision[desc.revision]) == Some(desc) then LinkMismatch
                               else Conflict)
            && After(fs, o.steps).disk
               == fs.disk.(inodes := fs.disk.inodes + [Some(desc)], pending := Holds(IntentFor(sha, desc)),
                           byId := fs.disk.byId[sha.ident(desc.id) := |fs.disk.inodes|])
  {}
}
