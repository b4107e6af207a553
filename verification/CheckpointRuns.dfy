/** Whole runs of a stream directory: completed calls, calls cut short by a crash at any step, and
    bodies that other streams store meanwhile. */
module CheckpointRuns {
  import opened Prelude
  import opened CheckpointChain
  import opened Metadata
  import opened MemoryCheckpoint
  import opened CheckpointDisk
  import opened CheckpointRecovery
  import opened CheckpointSave
  import opened CheckpointReads

  datatype Call = SaveCall(req: WriteRequest) | LatestCall | VersionCall(id: string) | ListCall

  datatype Answer =
    | Saved(saved: Result<StoredCheckpoint, Error>)
    | Read(read: Result<Option<Entry>, Error>)
    | Listed(listed: Result<seq<StoredCheckpoint>, Error>)

  /** `unlinks` says whether removing the intent works during the call. A crash happens after
      `at` steps of the call and leaves `left`. */
  datatype Event =
    | Completed(call: Call, answer: Answer, unlinks: bool)
    | Crashed(cut: Call, unlinks: bool, at: nat, left: Disk)
    | OtherStream(body: Bytes)

  function StepsOf(sha: Sha, fs: Fs, call: Call, unlinks: bool): seq<Fs> {
    match call
    case SaveCall(req) => Save(sha, fs, req, unlinks).steps
    case LatestCall => LoadLatest(sha, fs, unlinks).steps
    case VersionCall(id) => LoadCheckpoint(sha, fs, id, unlinks).steps
    case ListCall => Recover(sha, fs, false, unlinks).steps
  }

  ghost predicate Answers(sha: Sha, fs: Fs, call: Call, unlinks: bool, answer: Answer) {
    match call
    case SaveCall(req) => answer == Saved(Save(sha, fs, req, unlinks).result)
    case LatestCall => answer == Read(LoadLatest(sha, fs, unlinks).result)
    case VersionCall(id) => answer == Read(LoadCheckpoint(sha, fs, id, unlinks).result)
    case ListCall =>
      var o := Recover(sha, fs, false, unlinks);
      answer.Listed? &&
      if o.result.Err? then answer.listed == Err(o.result.error)
      else Lists(sha, After(fs, o.steps).disk, answer.listed)
  }

  function StoreForeign(sha: Sha, fs: Fs, body: Bytes): Fs {
    if sha.body(body) in fs.disk.bodies then fs
    else fs.(disk := fs.disk.(bodies := fs.disk.bodies[sha.body(body) := body]))
  }

  ghost predicate Happens(sha: Sha, fs: Fs, event: Event, fs': Fs) {
    match event
    case Completed(call, answer, unlinks) =>
      fs' == After(fs, StepsOf(sha, fs, call, unlinks)) && Answers(sha, fs, call, unlinks, answer)
    case Crashed(call, unlinks, at, left) =>
      var steps := StepsOf(sha, fs, call, unlinks);
      at <= |steps| && CrashTo(After(fs, steps[..at]), left) && fs' == Fs(left, SYNCED)
    case OtherStream(body) => fs' == StoreForeign(sha, fs, body)
  }

  ghost predicate Run(sha: Sha, events: seq<Event>, states: seq<Fs>) {
    && |states| == |events| + 1
    && states[0] == Fs(EMPTY, SYNCED)
    && forall i :: 0 <= i < |events| ==> Happens(sha, states[i], events[i], states[i + 1])
  }

  // ----- the reference run -----

  ghost predicate Explained(sha: Sha, c: Chain, event: Event, c': Chain) {
    match event
    case Completed(SaveCall(req), answer, unlinks) =>
      || (c', answer) == (ChainSave(sha, c, req).0, Saved(ChainSave(sha, c, req).1))
      || (!unlinks && c' == c && answer == Saved(Err(PendingConflict)))
    case Completed(LatestCall, answer, _) => c' == c && answer == Read(Ok(ChainLatest(c)))
    case Completed(VersionCall(id), answer, _) =>
      c' == c && answer == Read(if ValidId(id) then Ok(ChainLoad(c, id)) else Err(InvalidCheckpointId))
    case Completed(ListCall, answer, _) => c' == c && answer == Listed(Ok(ChainList(c)))
    case Crashed(SaveCall(req), _, _, _) => c' == c || c' == ChainSave(sha, c, req).0
    case _ => c' == c
  }

  ghost predicate Explains(sha: Sha, events: seq<Event>, chains: seq<Chain>) {
    && |chains| == |events| + 1
    && chains[0] == []
    && forall i :: 0 <= i < |events| ==> Explained(sha, chains[i], events[i], chains[i + 1])
  }

  // ----- absence of collisions -----

  /** The digests tell the bodies and the identifiers of the run apart. */
  ghost predicate Apart(sha: Sha, bodies: set<Bytes>, ids: set<string>) {
    && (forall a, b :: a in bodies && b in bodies && sha.body(a) == sha.body(b) ==> a == b)
    && (forall a, b :: a in ids && b in ids && sha.ident(a) == sha.ident(b) ==> a == b)
  }

  ghost predicate Draws(event: Event, bodies: set<Bytes>, ids: set<string>) {
    match event
    case Completed(SaveCall(req), _, _) => req.body in bodies && req.id in ids
    case Crashed(SaveCall(req), _, _, _) => req.body in bodies && req.id in ids
    case Completed(VersionCall(id), _, _) => id in ids
    case OtherStream(body) => body in bodies
    case _ => true
  }

  ghost predicate DrawnFrom(sha: Sha, stored: map<Digest, Bytes>, bodies: set<Bytes>) {
    forall key :: key in stored ==> stored[key] in bodies && sha.body(stored[key]) == key
  }

  /** Everything stored comes from the run. */
  ghost predicate Known(sha: Sha, d: Disk, c: Chain, bodies: set<Bytes>, ids: set<string>) {
    DrawnFrom(sha, d.bodies, bodies) && forall i :: 0 <= i < |c| ==> c[i].desc.id in ids
  }

  lemma {:induction false} NoCollision(sha: Sha, fs: Fs, c: Chain, req: WriteRequest, bodies: set<Bytes>,
                                       ids: set<string>)
    requires Apart(sha, bodies, ids) && Known(sha, fs.disk, c, bodies, ids)
    requires Stored(sha, fs.disk, c) && req.body in bodies && req.id in ids
    ensures !Collides(sha, fs.disk, c, req)
  {
    if Find(c, req.id).Some? {
      var e := Find(c, req.id).value;
      var i :| 0 <= i < |c| && c[i] == e;
      assert InOrder(sha, c, i) && BodyHeld(fs.disk, c[i]);
    } else {
      NameNotTaken(sha, fs.disk, c, req.id, bodies, ids);
    }
  }

  lemma {:induction false} NameNotTaken(sha: Sha, d: Disk, c: Chain, id: string, bodies: set<Bytes>, ids: set<string>)
    requires Apart(sha, bodies, ids) && Known(sha, d, c, bodies, ids) && id in ids
    ensures !NameTaken(sha, c, id)
  {
    forall i | 0 <= i < |c| ensures sha.ident(c[i].desc.id) == sha.ident(id) ==> Find(c, id).Some? {
      assert c[i] in c;
    }
  }

  // ----- bodies along the steps -----

  /** A call stores at most the body it was given. */
  ghost predicate StoresAtMost(steps: seq<Fs>, before: map<Digest, Bytes>, key: Digest, body: Bytes) {
    forall k :: 0 <= k < |steps| ==>
      steps[k].disk.bodies == before || steps[k].disk.bodies == before[key := body]
  }

  ghost predicate StoresNothing(steps: seq<Fs>, before: map<Digest, Bytes>) {
    forall k :: 0 <= k < |steps| ==> steps[k].disk.bodies == before
  }

  lemma {:induction false} RelinksStoreNothing(
      sha: Sha, fs: Fs, intent: Intent, record: StoredCheckpoint, unlinks: bool)
    ensures StoresNothing(RelinkId(sha, fs, intent, record, unlinks).steps, fs.disk.bodies)
    ensures StoresNothing(RelinkRevision(sha, fs, intent, record, unlinks).steps, fs.disk.bodies)
  {}

  lemma {:induction false} FinishStoresNothing(
      sha: Sha, fs: Fs, intent: Intent, head: Option<Head>,
      byId: StoredCheckpoint, byRevision: StoredCheckpoint, verifyBody: bool, unlinks: bool)
    ensures StoresNothing(
              FinishPaired(sha, fs, intent, head, byId, byRevision, verifyBody, unlinks).steps, fs.disk.bodies)
  {}

  lemma {:induction false} RecoverStoresNothing(sha: Sha, fs: Fs, verifyBody: bool, unlinks: bool)
    ensures StoresNothing(Recover(sha, fs, verifyBody, unlinks).steps, fs.disk.bodies)
  {
    if fs.disk.pending.Holds? && LoadHead(fs.disk).Ok? {
      var intent, head := fs.disk.pending.value, LoadHead(fs.disk).value;
      var byId := LoadById(sha, fs.disk, intent.id, verifyBody);
      var byRevision := LoadByRevision(sha, fs.disk, intent.revision, verifyBody);
      hide RelinkId, RelinkRevision, FinishPaired;
      if byId.Ok? && byId.value.Some? {
        RelinksStoreNothing(sha, fs, intent, byId.value.value, unlinks);
        if byRevision.Ok? && byRevision.value.Some? {
          FinishStoresNothing(sha, fs, intent, head, byId.value.value, byRevision.value.value, verifyBody, unlinks);
        }
      } else if byRevision.Ok? && byRevision.value.Some? {
        RelinksStoreNothing(sha, fs, intent, byRevision.value.value, unlinks);
      }
    }
  }

  lemma {:induction false} PublishStoresNothing(sha: Sha, fs: Fs, desc: StoredCheckpoint, unlinks: bool)
    requires sha.ident(desc.id) !in fs.disk.byId
    ensures StoresNothing(PublishRecord(sha, fs, desc, unlinks).steps, fs.disk.bodies)
  {
    hide HeadFor, IntentFor, CheckBody, FileAt;
  }

  lemma {:induction false} AppendStores(sha: Sha, fs: Fs, req: WriteRequest, revision: nat, unlinks: bool)
    requires sha.ident(req.id) !in fs.disk.byId
    ensures StoresAtMost(Append(sha, fs, req, revision, unlinks).steps, fs.disk.bodies, sha.body(req.body), req.body)
  {
    var desc := Describe(sha, req, revision);
    var stored := StoreBody(fs, desc.digest, req.body);
    PublishStoresNothing(sha, After(fs, stored.steps), desc, unlinks);
  }

  lemma {:induction false} WriteStores(sha: Sha, fs: Fs, req: WriteRequest, unlinks: bool)
    ensures StoresAtMost(Write(sha, fs, req, unlinks).steps, fs.disk.bodies, sha.body(req.body), req.body)
  {
    hide Append, SameCanonicalRequest, CheckBody;
    if sha.ident(req.id) !in fs.disk.byId {
      AppendStores(sha, fs, req, 1, unlinks);
      if fs.disk.head.Holds? {
        AppendStores(sha, fs, req, fs.disk.head.value.revision + 1, unlinks);
      }
    }
  }

  lemma {:induction false} SaveStores(sha: Sha, fs: Fs, req: WriteRequest, unlinks: bool)
    ensures StoresAtMost(Save(sha, fs, req, unlinks).steps, fs.disk.bodies, sha.body(req.body), req.body)
  {
    hide Save, Recover, Write;
    var recovered := Recover(sha, fs, true, unlinks);
    SaveComposes(sha, fs, req, unlinks);
    RecoverStoresNothing(sha, fs, true, unlinks);
    WriteStores(sha, After(fs, recovered.steps), req, unlinks);
  }

  // ----- one event -----

  lemma {:induction false} StartableTolerates(sha: Sha, fs: Fs, c: Chain, left: Disk)
    requires Startable(sha, fs, c) && CrashTo(fs, left)
    ensures Represents(sha, left, c)
  {
    if Resting(sha, fs, c) {
      RestingTolerates(sha, fs, c);
    } else {
      assert left.bodies == fs.disk.bodies && left.byId == fs.disk.byId && left.byRevision == fs.disk.byRevision;
      assert left == fs.disk;
    }
  }

  lemma {:induction false} StartableStored(sha: Sha, fs: Fs, c: Chain)
    requires Startable(sha, fs, c)
    ensures Stored(sha, fs.disk, c)
  {}

  lemma {:induction false} KnownAfter(
      sha: Sha, fs: Fs, steps: seq<Fs>, n: nat, left: Disk, key: Digest, body: Bytes, bodies: set<Bytes>)
    requires DrawnFrom(sha, fs.disk.bodies, bodies) && body in bodies && key == sha.body(body)
    requires n <= |steps| && StoresAtMost(steps, fs.disk.bodies, key, body)
    requires Survives(After(fs, steps[..n]).disk.bodies, After(fs, steps[..n]).unsynced.bodies, left.bodies)
             || left.bodies == After(fs, steps[..n]).disk.bodies
    ensures DrawnFrom(sha, left.bodies, bodies)
  {
    var at := After(fs, steps[..n]).disk.bodies;
    assert at == fs.disk.bodies || at == fs.disk.bodies[key := body];
  }

  lemma {:induction false} KnownAfterReads(
      sha: Sha, fs: Fs, steps: seq<Fs>, n: nat, left: Disk, bodies: set<Bytes>)
    requires DrawnFrom(sha, fs.disk.bodies, bodies)
    requires n <= |steps| && StoresNothing(steps, fs.disk.bodies)
    requires Survives(After(fs, steps[..n]).disk.bodies, After(fs, steps[..n]).unsynced.bodies, left.bodies)
             || left.bodies == After(fs, steps[..n]).disk.bodies
    ensures DrawnFrom(sha, left.bodies, bodies)
  {}

  lemma {:induction false} SavedIds(sha: Sha, c: Chain, req: WriteRequest, ids: set<string>)
    requires req.id in ids && forall i :: 0 <= i < |c| ==> c[i].desc.id in ids
    ensures var next := ChainSave(sha, c, req).0; forall i :: 0 <= i < |next| ==> next[i].desc.id in ids
  {}

  lemma RefusedSaveKeeps(sha: Sha, c: Chain, req: WriteRequest)
    ensures ChainSave(sha, c, req).1.Err? ==> ChainSave(sha, c, req).0 == c
  {}

  lemma {:induction false} CompletedSave(
      sha: Sha, fs: Fs, c: Chain, req: WriteRequest, unlinks: bool, answer: Answer, fs': Fs,
      bodies: set<Bytes>, ids: set<string>) returns (c': Chain)
    requires Startable(sha, fs, c) && Known(sha, fs.disk, c, bodies, ids) && Apart(sha, bodies, ids)
    requires req.body in bodies && req.id in ids
    requires Happens(sha, fs, Completed(SaveCall(req), answer, unlinks), fs')
    ensures Explained(sha, c, Completed(SaveCall(req), answer, unlinks), c')
    ensures Startable(sha, fs', c') && Known(sha, fs'.disk, c', bodies, ids)
  {
    hide StoresAtMost, Save, ChainSave, Apart, Resting, Represents, Stored, AllTolerate, Collides;
    RefusedSaveKeeps(sha, c, req);
    var o := Save(sha, fs, req, unlinks);
    var (next, expected) := ChainSave(sha, c, req);
    StartableStored(sha, fs, c);
    NoCollision(sha, fs, c, req, bodies, ids);
    SaveRefines(sha, fs, c, req, unlinks);
    SaveStores(sha, fs, req, unlinks);
    assert o.steps[..|o.steps|] == o.steps;
    KnownAfter(sha, fs, o.steps, |o.steps|, fs'.disk, sha.body(req.body), req.body, bodies);
    SavedIds(sha, c, req, ids);
    c' := if o.result.Ok? then next else c;
  }

  lemma {:induction false} CrashedSave(
      sha: Sha, fs: Fs, c: Chain, req: WriteRequest, unlinks: bool, at: nat, left: Disk,
      bodies: set<Bytes>, ids: set<string>) returns (c': Chain)
    requires Startable(sha, fs, c) && Known(sha, fs.disk, c, bodies, ids)
    requires req.body in bodies && req.id in ids
    requires at <= |Save(sha, fs, req, unlinks).steps|
    requires CrashTo(After(fs, Save(sha, fs, req, unlinks).steps[..at]), left)
    ensures c' == c || c' == ChainSave(sha, c, req).0
    ensures Represents(sha, left, c') && Known(sha, left, c', bodies, ids)
  {
    hide Save;
    var steps := Save(sha, fs, req, unlinks).steps;
    var next := ChainSave(sha, c, req).0;
    SaveStores(sha, fs, req, unlinks);
    KnownAfter(sha, fs, steps, at, left, sha.body(req.body), req.body, bodies);
    SavedIds(sha, c, req, ids);
    if at == 0 {
      StartableTolerates(sha, fs, c, left);
      c' := c;
    } else {
      SaveRefines(sha, fs, c, req, unlinks);
      assert Tolerates(sha, steps[at - 1], c, next);
      c' := if Represents(sha, left, c) then c else next;
    }
  }

  /** Reads only run recovery. */
  lemma {:induction false} ReadSteps(sha: Sha, fs: Fs, call: Call, unlinks: bool)
    requires !call.SaveCall?
    ensures var steps := StepsOf(sha, fs, call, unlinks);
            || steps == []
            || steps == Recover(sha, fs, true, unlinks).steps
            || steps == Recover(sha, fs, false, unlinks).steps
  {}

  lemma {:induction false} ReadKeeps(
      sha: Sha, fs: Fs, c: Chain, call: Call, unlinks: bool, at: nat, left: Disk, bodies: set<Bytes>)
    requires Startable(sha, fs, c) && DrawnFrom(sha, fs.disk.bodies, bodies) && !call.SaveCall?
    requires at <= |StepsOf(sha, fs, call, unlinks)|
    requires CrashTo(After(fs, StepsOf(sha, fs, call, unlinks)[..at]), left)
    ensures Represents(sha, left, c) && DrawnFrom(sha, left.bodies, bodies)
  {
    hide StepsOf, Recover;
    var steps := StepsOf(sha, fs, call, unlinks);
    ReadSteps(sha, fs, call, unlinks);
    RecoverStoresNothing(sha, fs, true, unlinks);
    RecoverStoresNothing(sha, fs, false, unlinks);
    KnownAfterReads(sha, fs, steps, at, left, bodies);
    RecoveryKeepsChain(sha, fs, c, true, unlinks);
    RecoveryKeepsChain(sha, fs, c, false, unlinks);
    if at == 0 {
      StartableTolerates(sha, fs, c, left);
    } else {
      assert Tolerates(sha, steps[at - 1], c, c);
    }
  }

  lemma {:induction false} CompletedRead(
      sha: Sha, fs: Fs, c: Chain, call: Call, unlinks: bool, answer: Answer, fs': Fs,
      bodies: set<Bytes>, ids: set<string>)
    requires Startable(sha, fs, c) && Known(sha, fs.disk, c, bodies, ids) && Apart(sha, bodies, ids)
    requires !call.SaveCall? && Draws(Completed(call, answer, unlinks), bodies, ids)
    requires Happens(sha, fs, Completed(call, answer, unlinks), fs')
    ensures Explained(sha, c, Completed(call, answer, unlinks), c)
    ensures Startable(sha, fs', c) && DrawnFrom(sha, fs'.disk.bodies, bodies)
  {
    hide Recover;
    ReadSteps(sha, fs, call, unlinks);
    RecoveryKeepsChain(sha, fs, c, true, unlinks);
    RecoveryKeepsChain(sha, fs, c, false, unlinks);
    match call
    case LatestCall => ReadsAgree(sha, fs, c, "", unlinks);
    case VersionCall(id) =>
      ReadsAgree(sha, fs, c, id, unlinks);
      NameNotTaken(sha, fs.disk, c, id, bodies, ids);
      if ValidId(id) { ValidIdsAreAccepted(id); }
    case ListCall =>
      ListOnChain(sha, After(fs, Recover(sha, fs, false, unlinks).steps).disk, c, answer.listed);
  }

  lemma ValidIdsAreAccepted(id: string)
    requires ValidId(id)
    ensures MemoryAcceptsId(id)
  {}

  lemma {:induction false} ForeignKeeps(sha: Sha, fs: Fs, c: Chain, body: Bytes, bodies: set<Bytes>, ids: set<string>)
    requires Startable(sha, fs, c) && Known(sha, fs.disk, c, bodies, ids) && body in bodies
    ensures Startable(sha, StoreForeign(sha, fs, body), c)
    ensures Known(sha, StoreForeign(sha, fs, body).disk, c, bodies, ids)
  {
    var d, d' := fs.disk, StoreForeign(sha, fs, body).disk;
    forall i | 0 <= i < |c| ensures BodyHeld(d, c[i]) ==> BodyHeld(d', c[i]) {}
    forall e: Entry ensures Paired(sha, d, e) ==> Paired(sha, d', e) {}
    if Current(sha, d, c) {
      assert Current(sha, d', c);
    }
    if Publishing(sha, d, c) {
      forall i | 0 <= i < |Front(c)| ensures Paired(sha, d', Front(c)[i]) { assert Paired(sha, d, Front(c)[i]); }
      assert Publishing(sha, d', c);
    }
  }

  /** One event of the directory is one event of the reference. */
  lemma {:induction false} EventExplained(
      sha: Sha, fs: Fs, c: Chain, event: Event, fs': Fs, bodies: set<Bytes>, ids: set<string>) returns (c': Chain)
    requires Startable(sha, fs, c) && Known(sha, fs.disk, c, bodies, ids) && Apart(sha, bodies, ids)
    requires Draws(event, bodies, ids) && Happens(sha, fs, event, fs')
    ensures Explained(sha, c, event, c') && Startable(sha, fs', c') && Known(sha, fs'.disk, c', bodies, ids)
  {
    hide Save, LoadLatest, LoadCheckpoint, Recover;
    match event
    case Completed(call, answer, unlinks) =>
      if call.SaveCall? {
        c' := CompletedSave(sha, fs, c, call.req, unlinks, answer, fs', bodies, ids);
      } else {
        CompletedRead(sha, fs, c, call, unlinks, answer, fs', bodies, ids);
        c' := c;
      }
    case Crashed(call, unlinks, at, left) =>
      if call.SaveCall? {
        c' := CrashedSave(sha, fs, c, call.req, unlinks, at, left, bodies, ids);
      } else {
        ReadKeeps(sha, fs, c, call, unlinks, at, left, bodies);
        c' := c;
      }
    case OtherStream(body) =>
      ForeignKeeps(sha, fs, c, body, bodies, ids);
      c' := c;
  }

  lemma {:induction false} EmptyDirectory(sha: Sha, bodies: set<Bytes>, ids: set<string>)
    ensures Startable(sha, Fs(EMPTY, SYNCED), []) && Known(sha, EMPTY, [], bodies, ids)
  {
    assert IdKeys(sha, []) == {};
    assert Represents(sha, EMPTY, []);
  }

  // ----- whole runs -----

  /** Every run of the directory, with any number of crashes at any steps, is a run of the reference
      in which each interrupted save either took effect or did not: all answers agree, and what is
      on disk stands for the chain of the reference. */
  lemma {:induction false} RunsAreExplained(
      sha: Sha, events: seq<Event>, states: seq<Fs>, bodies: set<Bytes>, ids: set<string>)
      returns (chains: seq<Chain>)
    requires Run(sha, events, states) && Apart(sha, bodies, ids)
    requires forall i :: 0 <= i < |events| ==> Draws(events[i], bodies, ids)
    ensures Explains(sha, events, chains)
    ensures forall i :: 0 <= i < |states| ==> Startable(sha, states[i], chains[i])
    ensures Known(sha, Last(states).disk, Last(chains), bodies, ids)
    decreases |events|
  {
    hide Happens, Startable, Known, Explained, Draws, Apart;
    if events == [] {
      chains := [[]];
      EmptyDirectory(sha, bodies, ids);
    } else {
      var n := |events| - 1;
      forall i | 0 <= i < n ensures Happens(sha, states[..n + 1][i], events[..n][i], states[..n + 1][i + 1]) {
        assert Happens(sha, states[i], events[i], states[i + 1]);
      }
      var before := RunsAreExplained(sha, events[..n], states[..n + 1], bodies, ids);
      assert Happens(sha, states[n], events[n], states[n + 1]);
      var c' := EventExplained(sha, states[n], Last(before), events[n], states[n + 1], bodies, ids);
      chains := before + [c'];
      forall i | 0 <= i < |events| ensures Explained(sha, chains[i], events[i], chains[i + 1]) {
        if i < n { assert Explained(sha, before[i], events[..n][i], before[i + 1]); }
      }
    }
  }

  /** Histories only grow along a run, so an acknowledged version is never lost or changed. */
  lemma {:induction false} HistoriesGrow(sha: Sha, events: seq<Event>, chains: seq<Chain>, i: nat, j: nat)
    requires Explains(sha, events, chains) && i <= j < |chains| && WellChained(sha, chains[i])
    ensures chains[i] <= chains[j] && WellChained(sha, chains[j])
    decreases j - i
  {
    if i < j {
      HistoriesGrow(sha, events, chains, i, j - 1);
      assert Explained(sha, chains[j - 1], events[j - 1], chains[j]);
      match events[j - 1]
      case Completed(SaveCall(req), _, _) => SaveKeepsHistory(sha, chains[j - 1], req);
      case Crashed(SaveCall(req), _, _, _) => SaveKeepsHistory(sha, chains[j - 1], req);
      case _ =>
    }
  }

  /** What an accepted save leaves in the chain. */
  lemma {:induction false} SavedVersionFound(sha: Sha, c: Chain, req: WriteRequest)
    requires WellChained(sha, c) && ChainSave(sha, c, req).1.Ok?
    ensures var (next, answer) := ChainSave(sha, c, req);
            Find(next, req.id) == Some(Entry(answer.value, req.body)) && WellChained(sha, next)
  {
    SaveKeepsHistory(sha, c, req);
    if Find(c, req.id).None? {
      FindAt(ChainSave(sha, c, req).0, |c|);
    }
  }

  /** Whatever calls and crashes come after an acknowledged save, reading the version back gives
      the acknowledged descriptor and the body that was written. */
  lemma {:induction false} AcknowledgedVersionsSurvive(
      sha: Sha, events: seq<Event>, states: seq<Fs>, bodies: set<Bytes>, ids: set<string>,
      i: nat, j: nat, req: WriteRequest, desc: StoredCheckpoint, answer: Answer, u: bool, u': bool)
    requires Run(sha, events, states) && Apart(sha, bodies, ids)
    requires forall k :: 0 <= k < |events| ==> Draws(events[k], bodies, ids)
    requires i < j < |events| && CheckRequest(req).None?
    requires events[i] == Completed(SaveCall(req), Saved(Ok(desc)), u)
    requires events[j] == Completed(VersionCall(req.id), answer, u')
    ensures answer == Read(Ok(Some(Entry(desc, req.body))))
  {
    hide Happens, Draws, Apart, Startable, ValidId;
    var chains := RunsAreExplained(sha, events, states, bodies, ids);
    assert Startable(sha, states[i], chains[i]);
    StartableStored(sha, states[i], chains[i]);
    assert Explained(sha, chains[i], events[i], chains[i + 1]);
    SavedVersionFound(sha, chains[i], req);
    HistoriesGrow(sha, events, chains, i + 1, j);
    FindStable(sha, chains[i + 1], chains[j], req.id);
    hide WellChained, ChainSave;
    assert Explained(sha, chains[j], events[j], chains[j + 1]);
  }

  ghost predicate KeyedRequest(event: Event) {
    match event
    case Completed(SaveCall(req), _, _) => WellKeyed(req.metadata)
    case Crashed(SaveCall(req), _, _, _) => WellKeyed(req.metadata)
    case _ => true
  }

  lemma {:induction false} ChainsAreKeyed(sha: Sha, events: seq<Event>, chains: seq<Chain>, i: nat)
    requires Explains(sha, events, chains) && i < |chains|
    requires forall k :: 0 <= k < |events| ==> KeyedRequest(events[k])
    ensures WellChained(sha, chains[i]) && Keyed(chains[i])
  {
    if i > 0 {
      ChainsAreKeyed(sha, events, chains, i - 1);
      HistoriesGrow(sha, events, chains, i - 1, i);
      assert Explained(sha, chains[i - 1], events[i - 1], chains[i]) && KeyedRequest(events[i - 1]);
      hide WellChained, Keyed, ChainSave;
      match events[i - 1]
      case Completed(SaveCall(req), _, _) => SavedCarries(sha, chains[i - 1], req);
      case Crashed(SaveCall(req), _, _, _) => SavedCarries(sha, chains[i - 1], req);
      case _ =>
    }
  }

  /** And what reads back says, in every field, what the acknowledged request said. */
  lemma {:induction false} AcknowledgedVersionsCarry(
      sha: Sha, events: seq<Event>, states: seq<Fs>, bodies: set<Bytes>, ids: set<string>,
      i: nat, j: nat, req: WriteRequest, desc: StoredCheckpoint, answer: Answer, u: bool, u': bool)
    requires Run(sha, events, states) && Apart(sha, bodies, ids)
    requires forall k :: 0 <= k < |events| ==> Draws(events[k], bodies, ids) && KeyedRequest(events[k])
    requires i < j < |events| && CheckRequest(req).None?
    requires events[i] == Completed(SaveCall(req), Saved(Ok(desc)), u)
    requires events[j] == Completed(VersionCall(req.id), answer, u')
    ensures answer.Read? && answer.read.Ok? && answer.read.value.Some?
            && Carries(sha, answer.read.value.value, req)
  {
    hide Happens, Draws, Apart, Startable, ValidId, Carries;
    AcknowledgedVersionsSurvive(sha, events, states, bodies, ids, i, j, req, desc, answer, u, u');
    var chains := RunsAreExplained(sha, events, states, bodies, ids);
    ChainsAreKeyed(sha, events, chains, i);
    assert Explained(sha, chains[i], events[i], chains[i + 1]) && KeyedRequest(events[i]);
    hide WellChained, Keyed, ChainSave, WellKeyed;
    SavedCarries(sha, chains[i], req);
  }
}
