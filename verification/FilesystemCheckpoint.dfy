/** The filesystem checkpoint store on one stream, under that stream's lock.

    Every assignment to `fs` is one atomic file operation; `history` keeps the state after each, so
    that a statement about it is a statement about every point at which the process can stop. */
module FilesystemCheckpoint {
  import opened Prelude
  import opened CheckpointChain
  import opened CheckpointDisk
  import opened ChainValidation
  import opened CheckpointRecovery
  import opened CheckpointSave
  import opened CheckpointReads

  class FilesystemCheckpointStore {
    const sha: Sha
    var fs: Fs
    ghost var history: seq<Fs>

    /** Opening a store on a directory makes no change to it. */
    constructor (sha: Sha, disk: Disk)
      ensures this.sha == sha && fs == Fs(disk, SYNCED) && history == []
    {
      this.sha := sha;
      fs, history := Fs(disk, SYNCED), [];
    }

    method Apply(next: Fs)
      modifies this
      ensures fs == next && history == old(history) + [next]
    {
      fs := next;
      history := history + [next];
    }

    method WriteHeadFile(head: Head)
      modifies this
      ensures fs == Last(WriteHead(old(fs), head))
      ensures history == old(history) + WriteHead(old(fs), head)
    {
      Apply(fs.ReplaceHead(head));
      Apply(fs.SyncStream());
    }

    method CleanupPending(unlinks: bool)
      modifies this
      ensures fs == After(old(fs), Cleanup(old(fs), unlinks))
      ensures history == old(history) + Cleanup(old(fs), unlinks)
    {
      if unlinks && !fs.disk.pending.Missing? {
        Apply(fs.UnlinkPending());
      }
    }

    method Validate(head: Head, verifyBody: bool) returns (result: Result<(), Error>)
      ensures result == Validated(sha, fs.disk, head, verifyBody)
    {
      var committed := ValidateCommittedChain(sha, fs.disk, head, verifyBody);
      return match committed case Err(e) => Err(e) case Ok(_) => Ok(());
    }

    method RecoverStream(verifyBody: bool, unlinks: bool) returns (result: Result<(), Error>)
      modifies this
      ensures var o := Recover(sha, old(fs), verifyBody, unlinks);
              result == o.result && fs == After(old(fs), o.steps) && history == old(history) + o.steps
    {
      var loadedPending := LoadPending(fs.disk);
      if loadedPending.Err? { return Err(loadedPending.error); }
      var loadedHead := LoadHead(fs.disk);
      if loadedHead.Err? { return Err(loadedHead.error); }
      var head := loadedHead.value;
      if loadedPending.value.None? {
        if head.None? {
          return if fs.disk.byId != map[] || fs.disk.byRevision != map[] then Err(DanglingRecords) else Ok(());
        }
        result := Validate(head.value, verifyBody);
        return;
      }
      var pending := loadedPending.value.value;
      var byId := LoadById(sha, fs.disk, pending.id, verifyBody);
      if byId.Err? { return Err(byId.error); }
      var byRevision := LoadByRevision(sha, fs.disk, pending.revision, verifyBody);
      if byRevision.Err? { return Err(byRevision.error); }
      if head.Some? && head.value.revision > pending.revision {
        return Err(ImpossiblePending);
      }
      if byId.value.None? && byRevision.value.None? {
        CleanupPending(unlinks);
        if head.Some? {
          result := Validate(head.value, verifyBody);
          return;
        }
        return Ok(());
      }
      if byId.value.None? {
        result := LinkMissingId(pending, byRevision.value.value, unlinks);
      } else if byRevision.value.None? {
        result := LinkMissingRevision(pending, byId.value.value, unlinks);
      } else {
        result := FinishPublication(pending, head, byId.value.value, byRevision.value.value, verifyBody, unlinks);
      }
    }

    method LinkMissingId(pending: Intent, record: StoredCheckpoint, unlinks: bool) returns (result: Result<(), Error>)
      modifies this
      ensures var o := RelinkId(sha, old(fs), pending, record, unlinks);
              result == o.result && fs == After(old(fs), o.steps) && history == old(history) + o.steps
    {
      if !MatchesIntent(record, pending) || pending.revision !in fs.disk.byRevision {
        return Err(PendingRecordMismatch);
      }
      Apply(fs.LinkId(sha.ident(pending.id), fs.disk.byRevision[pending.revision]));
      Apply(fs.SyncId(sha.ident(pending.id)));
      WriteHeadFile(HeadFor(sha, record));
      CleanupPending(unlinks);
      return Ok(());
    }

    method LinkMissingRevision(pending: Intent, record: StoredCheckpoint, unlinks: bool)
      returns (result: Result<(), Error>)
      modifies this
      ensures var o := RelinkRevision(sha, old(fs), pending, record, unlinks);
              result == o.result && fs == After(old(fs), o.steps) && history == old(history) + o.steps
    {
      if !MatchesIntent(record, pending) || sha.ident(pending.id) !in fs.disk.byId {
        return Err(PendingRecordMismatch);
      }
      Apply(fs.LinkRevision(pending.revision, fs.disk.byId[sha.ident(pending.id)]));
      Apply(fs.SyncRevision(pending.revision));
      WriteHeadFile(HeadFor(sha, record));
      CleanupPending(unlinks);
      return Ok(());
    }

    method FinishPublication(
        pending: Intent, head: Option<Head>, byId: StoredCheckpoint, byRevision: StoredCheckpoint,
        verifyBody: bool, unlinks: bool) returns (result: Result<(), Error>)
      modifies this
      ensures var o := FinishPaired(sha, old(fs), pending, head, byId, byRevision, verifyBody, unlinks);
              result == o.result && fs == After(old(fs), o.steps) && history == old(history) + o.steps
    {
      if byId != byRevision {
        return Err(RecordIndexMismatch);
      }
      var pair := CheckPair(sha, fs.disk, pending.id, pending.revision);
      if pair.Some? {
        return Err(pair.value);
      }
      if !MatchesIntent(byId, pending) {
        return Err(PendingRecordMismatch);
      }
      var effective := HeadFor(sha, byId);
      if head.None? || head.value.revision < byId.revision || head.value.id != byId.id {
        WriteHeadFile(effective);
      } else {
        effective := head.value;
        if head.value.revision > byId.revision {
          return Err(ImpossiblePending);
        }
      }
      CleanupPending(unlinks);
      result := Validate(effective, verifyBody);
    }

    // ----- save -----

    method PublishBody(key: Digest, body: Bytes) returns (result: Result<(), Error>)
      modifies this
      ensures var o := StoreBody(old(fs), key, body);
              result == o.result && fs == After(old(fs), o.steps) && history == old(history) + o.steps
      ensures fs.disk.byId == old(fs.disk.byId)
    {
      if key in fs.disk.bodies {
        return if fs.disk.bodies[key] == body then Ok(()) else Err(BodyIntegrityFailure);
      }
      Apply(fs.PublishBody(key, body));
      Apply(fs.SyncBody(key));
      return Ok(());
    }

    method RecordIntent(desc: StoredCheckpoint)
      modifies this
      ensures fs == Last(Opening(sha, old(fs), desc))
      ensures history == old(history) + Opening(sha, old(fs), desc)
      ensures fs.disk.byId == old(fs.disk.byId) && fs.disk.byRevision == old(fs.disk.byRevision)
    {
      Apply(fs.LinkPending(IntentFor(sha, desc)));
      Apply(fs.SyncStream());
      Apply(fs.WriteTemp(desc));
    }

    method NumberRecord(desc: StoredCheckpoint, inode: Inode)
      modifies this
      ensures fs == Last(Numbering(sha, old(fs), desc, inode))
      ensures history == old(history) + Numbering(sha, old(fs), desc, inode)
    {
      if desc.revision !in fs.disk.byRevision {
        Apply(fs.LinkRevision(desc.revision, inode));
      }
      Apply(fs.SyncId(sha.ident(desc.id)));
      Apply(fs.SyncRevision(desc.revision));
    }

    method AdvanceHeadFile(head: Head, unlinks: bool)
      modifies this
      ensures var headed := WriteHead(old(fs), head);
              var steps := headed + Cleanup(Last(headed), unlinks);
              fs == Last(steps) && history == old(history) + steps
    {
      WriteHeadFile(head);
      CleanupPending(unlinks);
    }

    method Publish(desc: StoredCheckpoint, unlinks: bool) returns (result: Result<StoredCheckpoint, Error>)
      requires sha.ident(desc.id) !in fs.disk.byId
      modifies this
      ensures var o := PublishRecord(sha, old(fs), desc, unlinks);
              result == o.result && fs == After(old(fs), o.steps) && history == old(history) + o.steps
    {
      hide Opening, Numbering, CheckPresentRevision, HeadFor, Cleanup;
      if !fs.disk.pending.Missing? {
        return Err(PendingConflict);
      }
      var key, inode := sha.ident(desc.id), |fs.disk.inodes|;
      RecordIntent(desc);
      if key in fs.disk.byId {
        assert false;
      }
      Apply(fs.LinkId(key, inode));
      ghost var opening := Opening(sha, old(fs), desc) + [fs];
      assert history == old(history) + opening;
      if desc.revision in fs.disk.byRevision {
        var present := CheckPresentRevision(sha, fs.disk, desc);
        if present.Some? {
          return Err(present.value);
        }
      }
      ghost var numbering := Numbering(sha, fs, desc, inode);
      NumberRecord(desc, inode);
      AdvanceHeadFile(HeadFor(sha, desc), unlinks);
      ghost var headed := WriteHead(Last(numbering), HeadFor(sha, desc));
      ghost var closing := headed + Cleanup(Last(headed), unlinks);
      assert history == old(history) + (opening + numbering + closing);
      assert PublishRecord(sha, old(fs), desc, unlinks).steps == opening + numbering + closing;
      return Ok(desc);
    }

    method AppendVersion(req: WriteRequest, revision: nat, unlinks: bool)
      returns (result: Result<StoredCheckpoint, Error>)
      requires sha.ident(req.id) !in fs.disk.byId
      modifies this
      ensures var o := Append(sha, old(fs), req, revision, unlinks);
              result == o.result && fs == After(old(fs), o.steps) && history == old(history) + o.steps
    {
      hide StoreBody, PublishRecord, After;
      var desc := Describe(sha, req, revision);
      var stored := PublishBody(desc.digest, req.body);
      if stored.Err? {
        return Err(stored.error);
      }
      label Stored:
      result := Publish(desc, unlinks);
      AfterConcat(old(fs), StoreBody(old(fs), desc.digest, req.body).steps,
                  PublishRecord(sha, old@Stored(fs), desc, unlinks).steps);
    }

    method WriteVersion(req: WriteRequest, unlinks: bool) returns (result: Result<StoredCheckpoint, Error>)
      modifies this
      ensures var o := Write(sha, old(fs), req, unlinks);
              result == o.result && fs == After(old(fs), o.steps) && history == old(history) + o.steps
    {
      var existing := LoadById(sha, fs.disk, req.id, true);
      if existing.Err? {
        return Err(existing.error);
      }
      if existing.value.Some? {
        return if SameCanonicalRequest(sha, existing.value.value, req) then Ok(existing.value.value) else Err(Conflict);
      }
      var head := LoadHead(fs.disk);
      if head.Err? {
        return Err(head.error);
      }
      if head.value.None? {
        if req.parent.Some? {
          return Err(StaleParent);
        }
        result := AppendVersion(req, 1, unlinks);
      } else {
        if req.parent != Some(head.value.value.id) {
          return Err(StaleParent);
        }
        result := AppendVersion(req, head.value.value.revision + 1, unlinks);
      }
    }

    /** Append a version: the answer, and every directory state on the way to it. */
    method SaveCheckpoint(req: WriteRequest, unlinks: bool) returns (result: Result<StoredCheckpoint, Error>)
      modifies this
      ensures var o := Save(sha, old(fs), req, unlinks);
              result == o.result && fs == After(old(fs), o.steps) && history == old(history) + o.steps
    {
      hide *;
      SaveComposes(sha, fs, req, unlinks);
      var recovered := RecoverStream(true, unlinks);
      if recovered.Err? {
        return Err(recovered.error);
      }
      result := WriteVersion(req, unlinks);
    }

    // ----- reads -----

    method Latest(unlinks: bool) returns (result: Result<Option<Entry>, Error>)
      modifies this
      ensures var o := LoadLatest(sha, old(fs), unlinks);
              result == o.result && fs == After(old(fs), o.steps) && history == old(history) + o.steps
    {
      var recovered := RecoverStream(true, unlinks);
      if recovered.Err? {
        return Err(recovered.error);
      }
      return LatestAt(sha, fs.disk);
    }

    method Version(id: string, unlinks: bool) returns (result: Result<Option<Entry>, Error>)
      modifies this
      ensures var o := LoadCheckpoint(sha, old(fs), id, unlinks);
              result == o.result && fs == After(old(fs), o.steps) && history == old(history) + o.steps
    {
      if !ValidId(id) {
        return Err(InvalidCheckpointId);
      }
      var recovered := RecoverStream(true, unlinks);
      if recovered.Err? {
        return Err(recovered.error);
      }
      return VersionAt(sha, fs.disk, id);
    }

    method ListForRun(unlinks: bool) returns (result: Result<seq<StoredCheckpoint>, Error>)
      modifies this
      ensures var o := Recover(sha, old(fs), false, unlinks);
              && fs == After(old(fs), o.steps) && history == old(history) + o.steps
              && (o.result.Err? ==> result == Err(o.result.error))
              && (o.result.Ok? ==> Lists(sha, fs.disk, result))
    {
      var recovered := RecoverStream(false, unlinks);
      if recovered.Err? {
        return Err(recovered.error);
      }
      var head := LoadHead(fs.disk);
      if head.Err? {
        return Err(head.error);
      }
      if head.value.None? {
        return Ok([]);
      }
      var committed := ValidateCommittedChain(sha, fs.disk, head.value.value, false);
      if committed.Err? {
        return Err(committed.error);
      }
      var extra := AuditNoExtraRecords(sha, fs.disk, committed.value);
      if extra.Some? {
        return Err(extra.value);
      }
      var descriptors: seq<StoredCheckpoint> := [];
      ValidationIsExact(sha, fs.disk, head.value.value, false, committed.value);
      for revision := 1 to head.value.value.revision + 1
        invariant descriptors == committed.value[..revision - 1]
      {
        assert InPlace(sha, fs.disk, committed.value, revision - 1, false);
        var record := LoadByRevision(sha, fs.disk, revision, false);
        if record.Err? || record.value.None? {
          assert false;
        }
        if CheckListedBody(fs.disk, record.value.value).Some? {
          assert false;
        }
        descriptors := descriptors + [record.value.value];
      }
      assert |committed.value| == head.value.value.revision;
      assert descriptors == committed.value;
      return Ok(descriptors);
    }
  }
}
