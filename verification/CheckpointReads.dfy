/** Loading and listing from a stream directory. */
module CheckpointReads {
  import opened Prelude
  import opened CheckpointChain
  import opened MemoryCheckpoint
  import opened CheckpointDisk
  import opened ChainValidation
  import opened CheckpointRecovery
  import opened CheckpointSave

  function BodyOf(d: Disk, record: StoredCheckpoint): Bytes {
    if record.digest in d.bodies then d.bodies[record.digest] else []
  }

  function LatestAt(sha: Sha, d: Disk): Result<Option<Entry>, Error> {
    match LoadHead(d)
    case Err(e) => Err(e)
    case Ok(None) => Ok(None)
    case Ok(Some(head)) =>
      match LoadByRevision(sha, d, head.revision, true)
      case Err(e) => Err(e)
      case Ok(None) => Err(MissingHeadRecord)
      case Ok(Some(record)) =>
        if record.id != head.id || sha.record(record) != head.recordDigest then Err(HeadMismatch)
        else if CheckPair(sha, d, record.id, head.revision).Some? then
          Err(CheckPair(sha, d, record.id, head.revision).value)
        else Ok(Some(Entry(record, BodyOf(d, record))))
  }

  function VersionAt(sha: Sha, d: Disk, id: string): Result<Option<Entry>, Error> {
    match LoadHead(d)
    case Err(e) => Err(e)
    case Ok(None) => Ok(None)
    case Ok(Some(head)) =>
      match LoadById(sha, d, id, true)
      case Err(e) => Err(e)
      case Ok(None) => Ok(None)
      case Ok(Some(record)) =>
        if record.revision > head.revision then Err(HeadMismatch)
        else if sha.record(record) != head.recordDigest && record.revision == head.revision then Err(HeadDigestMismatch)
        else if CheckPair(sha, d, record.id, record.revision).Some? then
          Err(CheckPair(sha, d, record.id, record.revision).value)
        else Ok(Some(Entry(record, BodyOf(d, record))))
  }

  function LoadLatest(sha: Sha, fs: Fs, unlinks: bool): Outcome<Option<Entry>> {
    var recovered := Recover(sha, fs, true, unlinks);
    match recovered.result
    case Err(e) => Outcome(recovered.steps, Err(e))
    case Ok(_) => Outcome(recovered.steps, LatestAt(sha, After(fs, recovered.steps).disk))
  }

  function LoadCheckpoint(sha: Sha, fs: Fs, id: string, unlinks: bool): Outcome<Option<Entry>> {
    if !ValidId(id) then Outcome([], Err(InvalidCheckpointId))
    else
      var recovered := Recover(sha, fs, true, unlinks);
      match recovered.result
      case Err(e) => Outcome(recovered.steps, Err(e))
      case Ok(_) => Outcome(recovered.steps, VersionAt(sha, After(fs, recovered.steps).disk, id))
  }

  /** The answers a listing may give: which of several defects an audit meets first is open. */
  ghost predicate Lists(sha: Sha, d: Disk, result: Result<seq<StoredCheckpoint>, Error>) {
    match LoadHead(d)
    case Err(e) => result == Err(e)
    case Ok(None) => result == Ok([])
    case Ok(Some(head)) =>
      match ValidateChain(sha, d, head, false)
      case Err(e) => result == Err(e)
      case Ok(records) => if AuditClean(sha, d, records) then result == Ok(records) else result.Err?
  }

  // ----- agreement with the reference -----

  lemma {:induction false} LatestOnChain(sha: Sha, d: Disk, c: Chain)
    requires Current(sha, d, c)
    ensures LatestAt(sha, d) == Ok(ChainLatest(c))
  {
    if c != [] {
      var e := Last(c);
      assert InOrder(sha, c, |c| - 1) && Paired(sha, d, e) && BodyHeld(d, e);
      ReadLinked(sha, d, e, true);
    }
  }

  /** `id` is not in the chain but its index file name is taken. */
  ghost predicate NameTaken(sha: Sha, c: Chain, id: string) {
    Find(c, id).None? && sha.ident(id) in IdKeys(sha, c)
  }

  lemma {:induction false} VersionOnChain(sha: Sha, d: Disk, c: Chain, id: string)
    requires Current(sha, d, c)
    ensures VersionAt(sha, d, id) == Ok(ChainLoad(c, id)) <==> !NameTaken(sha, c, id)
  {
    LoadOnChain(sha, d, c, id);
    if c == [] {
    } else if Find(c, id).Some? {
      var e := Find(c, id).value;
      var i :| 0 <= i < |c| && c[i] == e;
      assert InOrder(sha, c, i) && Paired(sha, d, c[i]) && BodyHeld(d, c[i]);
      assert InOrder(sha, c, |c| - 1);
      assert i == |c| - 1 || e.desc.revision != Last(c).desc.revision;
    }
  }

  lemma {:induction false} ListOnChain(sha: Sha, d: Disk, c: Chain, result: Result<seq<StoredCheckpoint>, Error>)
    requires Current(sha, d, c) && Lists(sha, d, result)
    ensures result == Ok(ChainList(c))
  {
    if c != [] {
      CurrentValidates(sha, d, c, false);
      CurrentAudits(sha, d, c);
    }
  }

  /** Reads on any startable directory answer as the reference does; a specific version does so
      exactly when the identifier is well formed and its file name not taken by another, or both
      stores reject the identifier. */
  lemma {:induction false} ReadsAgree(sha: Sha, fs: Fs, c: Chain, id: string, unlinks: bool)
    requires Startable(sha, fs, c)
    ensures LoadLatest(sha, fs, unlinks).result == Ok(ChainLatest(c))
    ensures LoadCheckpoint(sha, fs, id, unlinks).result == MemoryLoad(c, id) <==>
            if ValidId(id) then !NameTaken(sha, c, id) else !MemoryAcceptsId(id)
  {
    hide Recover, Startable, Current, NameTaken, LatestAt, VersionAt;
    RecoveryKeepsChain(sha, fs, c, true, unlinks);
    var d := After(fs, Recover(sha, fs, true, unlinks).steps).disk;
    LatestOnChain(sha, d, c);
    VersionOnChain(sha, d, c, id);
  }

  /** An identifier the memory store looks up and the filesystem store refuses. */
  lemma MalformedIdsDiffer(sha: Sha, unlinks: bool)
    ensures LoadCheckpoint(sha, Fs(EMPTY, SYNCED), "a b", unlinks).result == Err(InvalidCheckpointId)
    ensures MemoryLoad([], "a b") == Ok(None)
  {
    assert "a b"[1] == ' ';
  }
}
