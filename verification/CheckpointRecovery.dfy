/** Recovery of a stream directory, as the sequence of directory states it goes through. */
module CheckpointRecovery {
  import opened Prelude
  import opened CheckpointChain
  import opened CheckpointDisk
  import opened ChainValidation

  /** Every state after each atomic step, and what the call returned. */
  datatype Outcome<+T> = Outcome(steps: seq<Fs>, result: Result<T, Error>)

  function After(fs: Fs, steps: seq<Fs>): Fs {
    if steps == [] then fs else Last(steps)
  }

  /** Removing the intent may fail, and the failure is swallowed. */
  function Cleanup(fs: Fs, unlinks: bool): seq<Fs> {
    if unlinks && !fs.disk.pending.Missing? then [fs.UnlinkPending()] else []
  }

  function WriteHead(fs: Fs, head: Head): seq<Fs> {
    var replaced := fs.ReplaceHead(head);
    [replaced, replaced.SyncStream()]
  }

  predicate MatchesIntent(record: StoredCheckpoint, intent: Intent) {
    record.id == intent.id && record.revision == intent.revision && record.parent == intent.parent
  }

  function Validated(sha: Sha, d: Disk, head: Head, verifyBody: bool): Result<(), Error> {
    match ValidateChain(sha, d, head, verifyBody)
    case Err(e) => Err(e)
    case Ok(_) => Ok(())
  }

  function Recover(sha: Sha, fs: Fs, verifyBody: bool, unlinks: bool): Outcome<()> {
    var d := fs.disk;
    match LoadPending(d)
    case Err(e) => Outcome([], Err(e))
    case Ok(pending) =>
      match LoadHead(d)
      case Err(e) => Outcome([], Err(e))
      case Ok(head) =>
        if pending.None? then Outcome([], RecoverWithoutIntent(sha, d, head, verifyBody))
        else RecoverIntent(sha, fs, pending.value, head, verifyBody, unlinks)
  }

  function RecoverWithoutIntent(sha: Sha, d: Disk, head: Option<Head>, verifyBody: bool): Result<(), Error> {
    if head.Some? then Validated(sha, d, head.value, verifyBody)
    else if d.byId != map[] || d.byRevision != map[] then Err(DanglingRecords)
    else Ok(())
  }

  function RecoverIntent(
      sha: Sha, fs: Fs, pending: Intent, head: Option<Head>, verifyBody: bool, unlinks: bool): Outcome<()>
  {
    match LoadById(sha, fs.disk, pending.id, verifyBody)
    case Err(e) => Outcome([], Err(e))
    case Ok(byId) =>
      match LoadByRevision(sha, fs.disk, pending.revision, verifyBody)
      case Err(e) => Outcome([], Err(e))
      case Ok(byRevision) =>
        if head.Some? && head.value.revision > pending.revision then Outcome([], Err(ImpossiblePending))
        else if byId.None? && byRevision.None? then
          var steps := Cleanup(fs, unlinks);
          Outcome(steps, if head.Some? then Validated(sha, After(fs, steps).disk, head.value, verifyBody) else Ok(()))
        else if byId.None? then RelinkId(sha, fs, pending, byRevision.value, unlinks)
        else if byRevision.None? then RelinkRevision(sha, fs, pending, byId.value, unlinks)
        else FinishPaired(sha, fs, pending, head, byId.value, byRevision.value, verifyBody, unlinks)
  }

  function RelinkId(sha: Sha, fs: Fs, pending: Intent, record: StoredCheckpoint, unlinks: bool): Outcome<()> {
    if !MatchesIntent(record, pending) || pending.revision !in fs.disk.byRevision then
      Outcome([], Err(PendingRecordMismatch))
    else
      var key := sha.ident(pending.id);
      var linked := fs.LinkId(key, fs.disk.byRevision[pending.revision]);
      var synced := linked.SyncId(key);
      var headed := WriteHead(synced, HeadFor(sha, record));
      Outcome([linked, synced] + headed + Cleanup(Last(headed), unlinks), Ok(()))
  }

  function RelinkRevision(sha: Sha, fs: Fs, pending: Intent, record: StoredCheckpoint, unlinks: bool): Outcome<()> {
    if !MatchesIntent(record, pending) || sha.ident(pending.id) !in fs.disk.byId then
      Outcome([], Err(PendingRecordMismatch))
    else
      var linked := fs.LinkRevision(pending.revision, fs.disk.byId[sha.ident(pending.id)]);
      var synced := linked.SyncRevision(pending.revision);
      var headed := WriteHead(synced, HeadFor(sha, record));
      Outcome([linked, synced] + headed + Cleanup(Last(headed), unlinks), Ok(()))
  }

  function FinishPaired(
      sha: Sha, fs: Fs, pending: Intent, head: Option<Head>,
      byId: StoredCheckpoint, byRevision: StoredCheckpoint, verifyBody: bool, unlinks: bool): Outcome<()>
  {
    if byId != byRevision then Outcome([], Err(RecordIndexMismatch))
    else if CheckPair(sha, fs.disk, pending.id, pending.revision).Some? then
      Outcome([], Err(CheckPair(sha, fs.disk, pending.id, pending.revision).value))
    else if !MatchesIntent(byId, pending) then Outcome([], Err(PendingRecordMismatch))
    else
      var behind := head.None? || head.value.revision < byId.revision || head.value.id != byId.id;
      var headed := if behind then WriteHead(fs, HeadFor(sha, byId)) else [];
      if !behind && head.value.revision > byId.revision then Outcome([], Err(ImpossiblePending))
      else
        var steps := headed + Cleanup(After(fs, headed), unlinks);
        var effective := if behind then HeadFor(sha, byId) else head.value;
        Outcome(steps, Validated(sha, After(fs, steps).disk, effective, verifyBody))
  }

  // ----- recovery keeps what the disk stands for -----

  /** Where a call may start: on a directory at rest, or on whatever a crash has left. */
  ghost predicate Startable(sha: Sha, fs: Fs, c: Chain) {
    || (Resting(sha, fs, c) && fs.unsynced.bodies == {})
    || (fs.unsynced == SYNCED && Represents(sha, fs.disk, c))
  }

  ghost predicate AllTolerate(sha: Sha, steps: seq<Fs>, c: Chain, next: Chain) {
    forall k :: 0 <= k < |steps| ==> Tolerates(sha, steps[k], c, next)
  }

  lemma {:induction false} CleanupRests(sha: Sha, fs: Fs, c: Chain, unlinks: bool)
    requires Resting(sha, fs, c)
    ensures AllTolerate(sha, Cleanup(fs, unlinks), c, c)
    ensures Resting(sha, After(fs, Cleanup(fs, unlinks)), c)
    ensures unlinks ==> After(fs, Cleanup(fs, unlinks)).disk.pending.Missing?
  {
    var steps := Cleanup(fs, unlinks);
    if steps != [] {
      var cleaned := fs.UnlinkPending();
      assert forall i :: 0 <= i < |c| ==> Paired(sha, fs.disk, c[i]) ==> Paired(sha, cleaned.disk, c[i]);
      RestingTolerates(sha, cleaned, c);
    }
  }

  /** The stored chain answers reads of its own records. */
  lemma {:induction false} ReadLinked(sha: Sha, d: Disk, e: Entry, verifyBody: bool)
    requires BodyHeld(d, e) && Describes(sha, e)
    ensures IdLinked(sha, d, e) ==> LoadById(sha, d, e.desc.id, verifyBody) == Ok(Some(e.desc))
    ensures RevisionLinked(d, e) ==> LoadByRevision(sha, d, e.desc.revision, verifyBody) == Ok(Some(e.desc))
  {}

  lemma {:induction false} ValidatedCurrent(sha: Sha, d: Disk, c: Chain, verifyBody: bool)
    requires Current(sha, d, c) && c != []
    ensures Validated(sha, d, d.head.value, verifyBody) == Ok(())
  {
    CurrentValidates(sha, d, c, verifyBody);
  }

  /** The intent of the version at the head: both links are there, only the intent goes. */
  lemma {:induction false} RecoverStaleIntent(sha: Sha, fs: Fs, c: Chain, verifyBody: bool, unlinks: bool)
    requires Resting(sha, fs, c) && c != []
    requires fs.disk.pending == Holds(IntentFor(sha, Last(c).desc))
    ensures Recover(sha, fs, verifyBody, unlinks) == Outcome(Cleanup(fs, unlinks), Ok(()))
  {
    var d, e, final := fs.disk, Last(c), After(fs, Cleanup(fs, unlinks)).disk;
    assert Paired(sha, d, e) && BodyHeld(d, e) && InOrder(sha, c, |c| - 1);
    ReadLinked(sha, d, e, verifyBody);
    assert Validated(sha, final, d.head.value, verifyBody) == Ok(()) by {
      CleanupRests(sha, fs, c, unlinks);
      ValidatedCurrent(sha, final, c, verifyBody);
    }
    var pending := d.pending.value;
    assert FinishPaired(sha, fs, pending, Some(d.head.value), e.desc, e.desc, verifyBody, unlinks)
        == Outcome(Cleanup(fs, unlinks), Ok(())) by {
      assert [] + Cleanup(fs, unlinks) == Cleanup(fs, unlinks);
    }
  }

  /** The intent of a version that left no link: it is dropped. */
  lemma {:induction false} RecoverUnusedIntent(sha: Sha, fs: Fs, c: Chain, verifyBody: bool, unlinks: bool)
    requires Resting(sha, fs, c) && fs.disk.pending.Holds?
    requires fs.disk.pending.value.revision == |c| + 1
    requires sha.ident(fs.disk.pending.value.id) !in IdKeys(sha, c)
    ensures Recover(sha, fs, verifyBody, unlinks) == Outcome(Cleanup(fs, unlinks), Ok(()))
  {
    var d, final := fs.disk, After(fs, Cleanup(fs, unlinks)).disk;
    assert d.pending.value.revision !in d.byRevision;
    CleanupRests(sha, fs, c, unlinks);
    if c != [] {
      assert InOrder(sha, c, |c| - 1);
      ValidatedCurrent(sha, final, c, verifyBody);
    }
  }

  /** On a directory at rest recovery at most removes the intent. */
  lemma {:induction false} RecoverResting(sha: Sha, fs: Fs, c: Chain, verifyBody: bool, unlinks: bool)
    requires Resting(sha, fs, c)
    ensures Recover(sha, fs, verifyBody, unlinks) == Outcome(Cleanup(fs, unlinks), Ok(()))
  {
    if fs.disk.pending.Missing? {
      if c == [] {
        assert fs.disk.byId.Keys == {} && fs.disk.byRevision.Keys == {};
      } else {
        ValidatedCurrent(sha, fs.disk, c, verifyBody);
      }
    } else if c != [] && fs.disk.pending == Holds(IntentFor(sha, Last(c).desc)) {
      RecoverStaleIntent(sha, fs, c, verifyBody, unlinks);
    } else {
      RecoverUnusedIntent(sha, fs, c, verifyBody, unlinks);
    }
  }

  // ----- recovery finishes an interrupted publication -----

  /** The interrupted publication seen as the state of the version being added. */
  lemma {:induction false} PublishingIsAdding(sha: Sha, fs: Fs, next: Chain)
    requires fs.unsynced == SYNCED && Publishing(sha, fs.disk, next)
    ensures Adding(sha, fs, Front(next), Last(next)) && Anchored(sha, fs, Front(next), Last(next))
  {
    assert Front(next) + [Last(next)] == next;
  }

  /** From the moment both links are safe: the head follows, then the intent goes. */
  lemma {:induction false} HeadFollows(sha: Sha, fs: Fs, c: Chain, e: Entry, unlinks: bool)
    requires Adding(sha, fs, c, e) && Paired(sha, fs.disk, e)
    requires fs.unsynced.ids == {} && fs.unsynced.revisions == {} && fs.disk.head == HeadOf(sha, c)
    ensures var headed := WriteHead(fs, HeadFor(sha, e.desc));
            var steps := headed + Cleanup(Last(headed), unlinks);
            && AllTolerate(sha, steps, c + [e], c + [e])
            && Resting(sha, Last(headed), c + [e])
            && Resting(sha, Last(steps), c + [e])
            && (unlinks ==> Last(steps).disk.pending.Missing?)
  {
    hide Adding, Anchored, Resting, Tolerates, HeadOf;
    var replaced := fs.ReplaceHead(HeadFor(sha, e.desc));
    AdvanceHead(sha, fs, c, e);
    AddingTolerates(sha, replaced, c, e);
    RestingTolerates(sha, replaced.SyncStream(), c + [e]);
    CleanupRests(sha, replaced.SyncStream(), c + [e], unlinks);
  }

  ghost predicate Recovers(sha: Sha, fs: Fs, next: Chain, outcome: Outcome<()>, unlinks: bool) {
    && outcome.result == Ok(())
    && AllTolerate(sha, outcome.steps, next, next)
    && Resting(sha, After(fs, outcome.steps), next)
    && (unlinks ==> After(fs, outcome.steps).disk.pending.Missing?)
    && After(fs, outcome.steps).disk.bodies == fs.disk.bodies
    && After(fs, outcome.steps).unsynced.bodies == fs.unsynced.bodies == {}
  }

  lemma {:induction false} TolerateConcat(sha: Sha, a: seq<Fs>, b: seq<Fs>, c: Chain, next: Chain)
    requires AllTolerate(sha, a, c, next) && AllTolerate(sha, b, c, next)
    ensures AllTolerate(sha, a + b, c, next)
  {}

  /** Both links are safe again after one link and its sync; the head follows. */
  lemma {:induction false} RelinkedRecovers(
      sha: Sha, linked: Fs, synced: Fs, c: Chain, e: Entry, unlinks: bool)
    requires Adding(sha, linked, c, e) && Anchored(sha, linked, c, e)
    requires Adding(sha, synced, c, e) && Anchored(sha, synced, c, e)
    requires Paired(sha, synced.disk, e) && synced.disk.head == HeadOf(sha, c)
    requires synced.unsynced.ids == {} && synced.unsynced.revisions == {}
    ensures var headed := WriteHead(synced, HeadFor(sha, e.desc));
            var steps := [linked, synced] + headed + Cleanup(Last(headed), unlinks);
            && AllTolerate(sha, steps, c + [e], c + [e])
            && Resting(sha, Last(steps), c + [e])
            && (unlinks ==> Last(steps).disk.pending.Missing?)
  {
    hide Adding, Anchored, Paired, HeadOf, Resting, Tolerates, Cleanup, HeadFor;
    var headed := WriteHead(synced, HeadFor(sha, e.desc));
    AddingTolerates(sha, linked, c, e);
    AddingTolerates(sha, synced, c, e);
    HeadFollows(sha, synced, c, e, unlinks);
    TolerateConcat(sha, [linked, synced], headed + Cleanup(Last(headed), unlinks), c + [e], c + [e]);
    assert [linked, synced] + headed + Cleanup(Last(headed), unlinks)
        == [linked, synced] + (headed + Cleanup(Last(headed), unlinks));
  }

  lemma {:induction false} RelinkIdRecovers(sha: Sha, fs: Fs, c: Chain, e: Entry, unlinks: bool)
    requires fs.unsynced == SYNCED && Adding(sha, fs, c, e) && fs.disk.head == HeadOf(sha, c)
    requires sha.ident(e.desc.id) !in fs.disk.byId && |c| + 1 in fs.disk.byRevision
    ensures Recovers(sha, fs, c + [e], RelinkId(sha, fs, IntentFor(sha, e.desc), e.desc, unlinks), unlinks)
  {
    assert e.desc.revision == |c| + 1 by { StoredPrefix(sha, fs.disk, c, e); }
    var key, inode := sha.ident(e.desc.id), fs.disk.byRevision[|c| + 1];
    var linked := fs.LinkId(key, inode);
    assert Adding(sha, linked, c, e) by { AddIdLink(sha, fs, c, e, inode); }
    var synced := linked.SyncId(key);
    assert Adding(sha, synced, c, e) by { SyncLinks(sha, linked, c, e); }
    assert synced.unsynced.ids == {};
    RelinkedRecovers(sha, linked, synced, c, e, unlinks);
  }

  lemma {:induction false} RelinkRevisionRecovers(sha: Sha, fs: Fs, c: Chain, e: Entry, unlinks: bool)
    requires fs.unsynced == SYNCED && Adding(sha, fs, c, e) && fs.disk.head == HeadOf(sha, c)
    requires sha.ident(e.desc.id) in fs.disk.byId && |c| + 1 !in fs.disk.byRevision
    ensures Recovers(sha, fs, c + [e], RelinkRevision(sha, fs, IntentFor(sha, e.desc), e.desc, unlinks), unlinks)
  {
    assert e.desc.revision == |c| + 1 by { StoredPrefix(sha, fs.disk, c, e); }
    var inode := fs.disk.byId[sha.ident(e.desc.id)];
    var linked := fs.LinkRevision(|c| + 1, inode);
    assert Adding(sha, linked, c, e) by { AddRevisionLink(sha, fs, c, e, inode); }
    var synced := linked.SyncRevision(|c| + 1);
    assert Adding(sha, synced, c, e) by { SyncLinks(sha, linked, c, e); }
    assert synced.unsynced.revisions == {};
    RelinkedRecovers(sha, linked, synced, c, e, unlinks);
  }

  lemma {:induction false} FinishPairedRecovers(
      sha: Sha, fs: Fs, c: Chain, e: Entry, head: Option<Head>, verifyBody: bool, unlinks: bool)
    requires fs.unsynced == SYNCED && Adding(sha, fs, c, e) && fs.disk.head == HeadOf(sha, c)
    requires LoadHead(fs.disk) == Ok(head) && Paired(sha, fs.disk, e)
    ensures Recovers(sha, fs, c + [e],
              FinishPaired(sha, fs, IntentFor(sha, e.desc), head, e.desc, e.desc, verifyBody, unlinks), unlinks)
  {
    StoredPrefix(sha, fs.disk, c, e);
    HeadFollows(sha, fs, c, e, unlinks);
    if c != [] { assert InOrder(sha, c, |c| - 1); }
    var headed := WriteHead(fs, HeadFor(sha, e.desc));
    var steps := headed + Cleanup(Last(headed), unlinks);
    assert Validated(sha, Last(steps).disk, HeadFor(sha, e.desc), verifyBody) == Ok(()) by {
      KeysOfExtension(sha, c, e);
      ValidatedCurrent(sha, Last(steps).disk, c + [e], verifyBody);
    }
  }

  /** Which repair an interrupted publication gets. */
  lemma {:induction false} RecoverBranch(sha: Sha, fs: Fs, c: Chain, e: Entry, verifyBody: bool, unlinks: bool)
    requires Adding(sha, fs, c, e) && fs.disk.head == HeadOf(sha, c)
    requires sha.ident(e.desc.id) in fs.disk.byId || |c| + 1 in fs.disk.byRevision
    ensures var intent := IntentFor(sha, e.desc);
            Recover(sha, fs, verifyBody, unlinks) ==
              if sha.ident(e.desc.id) !in fs.disk.byId then RelinkId(sha, fs, intent, e.desc, unlinks)
              else if |c| + 1 !in fs.disk.byRevision then RelinkRevision(sha, fs, intent, e.desc, unlinks)
              else FinishPaired(sha, fs, intent, LoadHead(fs.disk).value, e.desc, e.desc, verifyBody, unlinks)
  {
    var d := fs.disk;
    assert e.desc.revision == |c| + 1 && BodyHeld(d, e) && Describes(sha, e) by { StoredPrefix(sha, d, c, e); }
    ReadLinked(sha, d, e, verifyBody);
    if c != [] {
      assert Last(c).desc.revision == |c| by {
        StoredPrefix(sha, d, c, e);
        assert InOrder(sha, c, |c| - 1);
      }
    }
  }

  lemma {:induction false} RecoverPublishing(sha: Sha, fs: Fs, next: Chain, verifyBody: bool, unlinks: bool)
    requires fs.unsynced == SYNCED && Publishing(sha, fs.disk, next)
    ensures Recovers(sha, fs, next, Recover(sha, fs, verifyBody, unlinks), unlinks)
  {
    var c, e, d := Front(next), Last(next), fs.disk;
    assert c + [e] == next;
    PublishingIsAdding(sha, fs, next);
    RecoverBranch(sha, fs, c, e, verifyBody, unlinks);
    if sha.ident(e.desc.id) !in d.byId {
      RelinkIdRecovers(sha, fs, c, e, unlinks);
    } else if |c| + 1 !in d.byRevision {
      RelinkRevisionRecovers(sha, fs, c, e, unlinks);
    } else {
      assert Paired(sha, d, e);
      FinishPairedRecovers(sha, fs, c, e, LoadHead(d).value, verifyBody, unlinks);
    }
  }

  /** Crash atomicity of recovery: on any directory a crash can leave, recovery succeeds, never
      changes the chain the directory stands for, at no step of its own either, and leaves the
      directory at rest with the intent gone. */
  lemma {:induction false} RecoveryKeepsChain(sha: Sha, fs: Fs, c: Chain, verifyBody: bool, unlinks: bool)
    requires Startable(sha, fs, c)
    ensures Recovers(sha, fs, c, Recover(sha, fs, verifyBody, unlinks), unlinks)
  {
    if Resting(sha, fs, c) {
      RecoverResting(sha, fs, c, verifyBody, unlinks);
      CleanupRests(sha, fs, c, unlinks);
    } else if Publishing(sha, fs.disk, c) {
      RecoverPublishing(sha, fs, c, verifyBody, unlinks);
    }
  }

  // ----- one file operation at a time -----

  /** One directory state follows another by one file operation. */
  ghost predicate Atomic(a: Fs, b: Fs) {
    || (exists key, body :: b == a.PublishBody(key, body)) || (exists key :: b == a.SyncBody(key))
    || (exists record :: b == a.WriteTemp(record))
    || (exists intent :: b == a.LinkPending(intent)) || b == a.UnlinkPending()
    || (exists head :: b == a.ReplaceHead(head)) || b == a.SyncStream()
    || (exists key, inode :: b == a.LinkId(key, inode)) || (exists key :: b == a.SyncId(key))
    || (exists revision, inode :: b == a.LinkRevision(revision, inode))
    || (exists revision :: b == a.SyncRevision(revision))
  }

  function StateBefore(fs: Fs, steps: seq<Fs>, k: nat): Fs
    requires k < |steps|
  {
    if k == 0 then fs else steps[k - 1]
  }

  ghost predicate StepByStep(fs: Fs, steps: seq<Fs>) {
    forall k :: 0 <= k < |steps| ==> Atomic(StateBefore(fs, steps, k), steps[k])
  }

  lemma ReplacedAndSynced(fs: Fs, head: Head)
    ensures Atomic(fs, fs.ReplaceHead(head)) && Atomic(fs.ReplaceHead(head), fs.ReplaceHead(head).SyncStream())
  {}

  lemma Unlinked(fs: Fs)
    ensures Atomic(fs, fs.UnlinkPending())
  {}

  lemma {:induction false} StepsConcat(fs: Fs, first: seq<Fs>, second: seq<Fs>)
    requires StepByStep(fs, first) && StepByStep(After(fs, first), second)
    ensures StepByStep(fs, first + second)
  {
    hide Atomic;
    var steps := first + second;
    forall k | 0 <= k < |steps| ensures Atomic(StateBefore(fs, steps, k), steps[k]) {
      if k < |first| {
        assert Atomic(StateBefore(fs, first, k), first[k]);
      } else {
        assert Atomic(StateBefore(After(fs, first), second, k - |first|), second[k - |first|]);
      }
    }
  }

  lemma {:induction false} HeadsStepByStep(fs: Fs, head: Head, unlinks: bool)
    ensures StepByStep(fs, WriteHead(fs, head)) && StepByStep(fs, Cleanup(fs, unlinks))
    ensures StepByStep(fs, WriteHead(fs, head) + Cleanup(Last(WriteHead(fs, head)), unlinks))
  {
    hide Atomic;
    var headed := WriteHead(fs, head);
    ReplacedAndSynced(fs, head);
    Unlinked(fs);
    Unlinked(Last(headed));
    StepsConcat(fs, headed, Cleanup(Last(headed), unlinks));
  }

  lemma {:induction false} RelinksStepByStep(sha: Sha, fs: Fs, pending: Intent, record: StoredCheckpoint, unlinks: bool)
    ensures StepByStep(fs, RelinkId(sha, fs, pending, record, unlinks).steps)
    ensures StepByStep(fs, RelinkRevision(sha, fs, pending, record, unlinks).steps)
  {
    hide StepByStep;
    if MatchesIntent(record, pending) && pending.revision in fs.disk.byRevision {
      var linked := fs.LinkId(sha.ident(pending.id), fs.disk.byRevision[pending.revision]);
      var synced := linked.SyncId(sha.ident(pending.id));
      LinkAndSync(fs, linked, synced, HeadFor(sha, record), unlinks);
    } else {
      NoSteps(fs);
    }
    if MatchesIntent(record, pending) && sha.ident(pending.id) in fs.disk.byId {
      var linked := fs.LinkRevision(pending.revision, fs.disk.byId[sha.ident(pending.id)]);
      var synced := linked.SyncRevision(pending.revision);
      LinkAndSync(fs, linked, synced, HeadFor(sha, record), unlinks);
    } else {
      NoSteps(fs);
    }
  }

  lemma NoSteps(fs: Fs)
    ensures StepByStep(fs, [])
  {}

  lemma {:induction false} LinkAndSync(fs: Fs, linked: Fs, synced: Fs, head: Head, unlinks: bool)
    requires Atomic(fs, linked) && Atomic(linked, synced)
    ensures var headed := WriteHead(synced, head);
            StepByStep(fs, [linked, synced] + headed + Cleanup(Last(headed), unlinks))
  {
    hide Atomic;
    var headed := WriteHead(synced, head);
    HeadsStepByStep(synced, head, unlinks);
    assert StepByStep(fs, [linked, synced]);
    StepsConcat(fs, [linked, synced], headed + Cleanup(Last(headed), unlinks));
    assert [linked, synced] + (headed + Cleanup(Last(headed), unlinks))
        == [linked, synced] + headed + Cleanup(Last(headed), unlinks);
  }

  /** Recovery changes the directory by one file operation at a time, so a crash between any two of its
      operations is between two of its steps. */
  lemma {:induction false} RecoversStepByStep(sha: Sha, fs: Fs, verifyBody: bool, unlinks: bool)
    ensures StepByStep(fs, Recover(sha, fs, verifyBody, unlinks).steps)
  {
    hide StepByStep, ValidateChain, RelinkId, RelinkRevision, WriteHead, Cleanup, ReadRecord;
    NoSteps(fs);
    if fs.disk.pending.Holds? {
      var intent := fs.disk.pending.value;
      HeadsStepByStep(fs, Head("", 0, ""), unlinks);
      forall record
        ensures StepByStep(fs, RelinkId(sha, fs, intent, record, unlinks).steps)
        ensures StepByStep(fs, RelinkRevision(sha, fs, intent, record, unlinks).steps)
      {
        RelinksStepByStep(sha, fs, intent, record, unlinks);
      }
      forall head, byId, byRevision
        ensures StepByStep(fs, FinishPaired(sha, fs, intent, head, byId, byRevision, verifyBody, unlinks).steps)
      {
        PairedStepByStep(sha, fs, intent, head, byId, byRevision, verifyBody, unlinks);
      }
      hide FinishPaired;
    }
  }

  lemma {:induction false} PairedStepByStep(
      sha: Sha, fs: Fs, pending: Intent, head: Option<Head>, byId: StoredCheckpoint, byRevision: StoredCheckpoint,
      verifyBody: bool, unlinks: bool)
    ensures StepByStep(fs, FinishPaired(sha, fs, pending, head, byId, byRevision, verifyBody, unlinks).steps)
  {
    hide StepByStep, Cleanup, CheckPair, Validated;
    NoSteps(fs);
    HeadsStepByStep(fs, HeadFor(sha, byId), unlinks);
    assert [] + Cleanup(fs, unlinks) == Cleanup(fs, unlinks);
  }

  // ----- recovery on any directory -----

  /** Both index names of the intent lead to one record file, and its record is the intended one. */
  ghost predicate IntentLinked(sha: Sha, d: Disk, intent: Intent) {
    var key := sha.ident(intent.id);
    && key in d.byId && intent.revision in d.byRevision && d.byId[key] == d.byRevision[intent.revision]
    && var file := FileAt(d, d.byId[key]);
       file.Some? && file.value.id == intent.id && file.value.revision == intent.revision
       && file.value.parent == intent.parent
  }

  /** Whatever state a directory is in, damaged or not, a recovery that reports success has found it
      without records, or validated up to its head, or with the intent's record under both names and the
      head on it; an intent that its records contradict, or that the head has passed, is an error. */
  lemma {:induction false} RecoveryIsSound(sha: Sha, fs: Fs, verifyBody: bool, unlinks: bool)
    requires Recover(sha, fs, verifyBody, unlinks).result.Ok?
    ensures var d, steps := fs.disk, Recover(sha, fs, verifyBody, unlinks).steps;
            var d' := After(fs, steps).disk;
            && !d.head.Corrupt?
            && match d.pending
               case Corrupt => false
               case Missing =>
                 && steps == []
                 && if d.head.Missing? then d.byId == map[] && d.byRevision == map[]
                    else ValidateChain(sha, d, d.head.value, verifyBody).Ok?
               case Holds(intent) =>
                 var named, numbered := sha.ident(intent.id) in d.byId, intent.revision in d.byRevision;
                 && (d.head.Holds? ==> d.head.value.revision <= intent.revision)
                 && (unlinks ==> d'.pending.Missing?)
                 && if !named && !numbered then
                      && d'.byId == d.byId && d'.byRevision == d.byRevision && d'.head == d.head
                      && (d.head.Holds? ==> ValidateChain(sha, d', d.head.value, verifyBody).Ok?)
                    else
                      && IntentLinked(sha, d', intent)
                      && d'.head.Holds? && d'.head.value.id == intent.id && d'.head.value.revision == intent.revision
                      && (named && numbered ==> ValidateChain(sha, d', d'.head.value, verifyBody).Ok?)
  {
    hide ValidateChain, CheckBody;
    var d := fs.disk;
    if d.pending.Holds? {
      var intent := d.pending.value;
      var head := LoadHead(d).value;
      var byId := LoadById(sha, d, intent.id, verifyBody);
      var byRevision := LoadByRevision(sha, d, intent.revision, verifyBody);
      assert byId.Ok? && byRevision.Ok?;
      if byId.value.None? && byRevision.value.Some? {
        RelinkIdIsSound(sha, fs, intent, byRevision.value.value, verifyBody, unlinks);
      } else if byId.value.Some? && byRevision.value.None? {
        RelinkRevisionIsSound(sha, fs, intent, byId.value.value, verifyBody, unlinks);
      } else if byId.value.Some? {
        FinishPairedIsSound(sha, fs, intent, head, byId.value.value, byRevision.value.value, verifyBody, unlinks);
      }
    }
  }

  lemma {:induction false} RelinkIdIsSound(
      sha: Sha, fs: Fs, intent: Intent, record: StoredCheckpoint, verifyBody: bool, unlinks: bool)
    requires fs.disk.pending == Holds(intent)
    requires LoadByRevision(sha, fs.disk, intent.revision, verifyBody) == Ok(Some(record))
    requires RelinkId(sha, fs, intent, record, unlinks).result.Ok?
    ensures var d' := After(fs, RelinkId(sha, fs, intent, record, unlinks).steps).disk;
            && IntentLinked(sha, d', intent) && (unlinks ==> d'.pending.Missing?)
            && d'.head.Holds? && d'.head.value.id == intent.id && d'.head.value.revision == intent.revision
  {
    hide CheckBody;
  }

  lemma {:induction false} RelinkRevisionIsSound(
      sha: Sha, fs: Fs, intent: Intent, record: StoredCheckpoint, verifyBody: bool, unlinks: bool)
    requires fs.disk.pending == Holds(intent)
    requires LoadById(sha, fs.disk, intent.id, verifyBody) == Ok(Some(record))
    requires RelinkRevision(sha, fs, intent, record, unlinks).result.Ok?
    ensures var d' := After(fs, RelinkRevision(sha, fs, intent, record, unlinks).steps).disk;
            && IntentLinked(sha, d', intent) && (unlinks ==> d'.pending.Missing?)
            && d'.head.Holds? && d'.head.value.id == intent.id && d'.head.value.revision == intent.revision
  {
    hide CheckBody;
  }

  lemma {:induction false} FinishPairedIsSound(
      sha: Sha, fs: Fs, intent: Intent, head: Option<Head>, byId: StoredCheckpoint, byRevision: StoredCheckpoint,
      verifyBody: bool, unlinks: bool)
    requires fs.disk.pending == Holds(intent) && LoadHead(fs.disk) == Ok(head)
    requires LoadById(sha, fs.disk, intent.id, verifyBody) == Ok(Some(byId))
    requires FinishPaired(sha, fs, intent, head, byId, byRevision, verifyBody, unlinks).result.Ok?
    ensures var d' := After(fs, FinishPaired(sha, fs, intent, head, byId, byRevision, verifyBody, unlinks).steps).disk;
            && IntentLinked(sha, d', intent) && (unlinks ==> d'.pending.Missing?)
            && d'.head.Holds? && d'.head.value.id == intent.id && d'.head.value.revision == intent.revision
            && ValidateChain(sha, d', d'.head.value, verifyBody).Ok?
  {
    hide CheckBody, ValidateChain;
  }
}
