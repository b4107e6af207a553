/** Validation of the committed chain against both record indexes, and the audit for extra records.
    Everything here is about arbitrary directories, damaged ones included. */
module ChainValidation {
  import opened Prelude
  import opened CheckpointChain
  import opened CheckpointDisk

  function CheckRecordBody(sha: Sha, d: Disk, record: StoredCheckpoint, verifyBody: bool): Option<Error> {
    if verifyBody then CheckBody(sha, d, record) else CheckListedBody(d, record)
  }

  /** One revision: its record, its place in the chain, its other index entry, its body. */
  function CheckRevision(sha: Sha, d: Disk, revision: nat, parent: Option<string>, verifyBody: bool)
    : Result<StoredCheckpoint, Error>
  {
    match LoadByRevision(sha, d, revision, false)
    case Err(e) => Err(e)
    case Ok(None) => Err(RevisionGap)
    case Ok(Some(record)) =>
      if record.revision != revision then Err(RevisionMismatch)
      else if record.parent != parent then Err(ParentMismatch)
      else
        match LoadById(sha, d, record.id, false)
        case Err(e) => Err(e)
        case Ok(byId) =>
          if byId != Some(record) then Err(RecordIndexMismatch)
          else if CheckPair(sha, d, record.id, revision).Some? then Err(CheckPair(sha, d, record.id, revision).value)
          else if CheckRecordBody(sha, d, record, verifyBody).Some? then
            Err(CheckRecordBody(sha, d, record, verifyBody).value)
          else Ok(record)
  }

  function ParentOf(records: seq<StoredCheckpoint>): Option<string> {
    if records == [] then None else Some(Last(records).id)
  }

  function CheckHead(sha: Sha, head: Head, committed: seq<StoredCheckpoint>): Result<seq<StoredCheckpoint>, Error> {
    if committed == [] || Last(committed).id != head.id || Last(committed).revision != head.revision then
      Err(HeadMismatch)
    else if sha.record(Last(committed)) != head.recordDigest then Err(HeadDigestMismatch)
    else Ok(committed)
  }

  /** Validation from a given number of accepted records on. */
  function ValidateFrom(sha: Sha, d: Disk, head: Head, verifyBody: bool, committed: seq<StoredCheckpoint>)
    : Result<seq<StoredCheckpoint>, Error>
    decreases head.revision - |committed|
  {
    if |committed| >= head.revision then CheckHead(sha, head, committed)
    else
      match CheckRevision(sha, d, |committed| + 1, ParentOf(committed), verifyBody)
      case Err(e) => Err(e)
      case Ok(record) => ValidateFrom(sha, d, head, verifyBody, committed + [record])
  }

  function ValidateChain(sha: Sha, d: Disk, head: Head, verifyBody: bool): Result<seq<StoredCheckpoint>, Error> {
    ValidateFrom(sha, d, head, verifyBody, [])
  }

  method ValidateCommittedChain(sha: Sha, d: Disk, head: Head, verifyBody: bool)
    returns (result: Result<seq<StoredCheckpoint>, Error>)
    ensures result == ValidateChain(sha, d, head, verifyBody)
    ensures forall records :: result == Ok(records) <==> ExactChain(sha, d, head, verifyBody, records)
  {
    forall records
      ensures ValidateChain(sha, d, head, verifyBody) == Ok(records) <==> ExactChain(sha, d, head, verifyBody, records)
    {
      ValidationIsExact(sha, d, head, verifyBody, records);
    }
    var committed: seq<StoredCheckpoint> := [];
    var expectedParent: Option<string> := None;
    for revision := 1 to head.revision + 1
      invariant |committed| == revision - 1 && expectedParent == ParentOf(committed)
      invariant ValidateChain(sha, d, head, verifyBody) == ValidateFrom(sha, d, head, verifyBody, committed)
    {
      var step := CheckRevision(sha, d, revision, expectedParent, verifyBody);
      if step.Err? {
        return Err(step.error);
      }
      committed := committed + [step.value];
      expectedParent := Some(step.value.id);
    }
    return CheckHead(sha, head, committed);
  }

  // ----- exactness -----

  /** The record of one revision is in both indexes, on one inode, after its parent, with its body. */
  ghost predicate InPlace(sha: Sha, d: Disk, records: seq<StoredCheckpoint>, i: nat, verifyBody: bool)
    requires i < |records|
  {
    var record := records[i];
    && record.revision == i + 1
    && record.parent == ParentOf(records[..i])
    && i + 1 in d.byRevision
    && sha.ident(record.id) in d.byId
    && d.byId[sha.ident(record.id)] == d.byRevision[i + 1]
    && FileAt(d, d.byRevision[i + 1]) == Some(record)
    && record.digest in d.bodies
    && |d.bodies[record.digest]| == record.size
    && (verifyBody ==> sha.body(d.bodies[record.digest]) == record.digest)
  }

  ghost predicate ExactChain(sha: Sha, d: Disk, head: Head, verifyBody: bool, records: seq<StoredCheckpoint>) {
    && 0 < |records| == head.revision
    && (forall i :: 0 <= i < |records| ==> InPlace(sha, d, records, i, verifyBody))
    && head == HeadFor(sha, Last(records))
  }

  lemma {:induction false} CheckRevisionExact(
      sha: Sha, d: Disk, records: seq<StoredCheckpoint>, record: StoredCheckpoint, verifyBody: bool)
    ensures CheckRevision(sha, d, |records| + 1, ParentOf(records), verifyBody) == Ok(record)
            <==> InPlace(sha, d, records + [record], |records|, verifyBody)
  {
    assert (records + [record])[..|records|] == records;
  }

  lemma {:induction false} InPlacePrefix(
      sha: Sha, d: Disk, records: seq<StoredCheckpoint>, n: nat, i: nat, verifyBody: bool)
    requires i < n <= |records|
    ensures InPlace(sha, d, records[..n], i, verifyBody) <==> InPlace(sha, d, records, i, verifyBody)
  {
    assert records[..n][..i] == records[..i];
  }

  lemma {:induction false} ValidationSound(
      sha: Sha, d: Disk, head: Head, verifyBody: bool, committed: seq<StoredCheckpoint>, records: seq<StoredCheckpoint>)
    requires |committed| <= head.revision
    requires forall i :: 0 <= i < |committed| ==> InPlace(sha, d, committed, i, verifyBody)
    requires ValidateFrom(sha, d, head, verifyBody, committed) == Ok(records)
    ensures ExactChain(sha, d, head, verifyBody, records)
    decreases head.revision - |committed|
  {
    if |committed| < head.revision {
      var record := CheckRevision(sha, d, |committed| + 1, ParentOf(committed), verifyBody).value;
      var longer := committed + [record];
      CheckRevisionExact(sha, d, committed, record, verifyBody);
      forall i | 0 <= i < |longer| ensures InPlace(sha, d, longer, i, verifyBody) {
        if i < |committed| {
          assert longer[..|committed|] == committed;
          InPlacePrefix(sha, d, longer, |committed|, i, verifyBody);
        }
      }
      ValidationSound(sha, d, head, verifyBody, longer, records);
    } else {
      assert InPlace(sha, d, records, |records| - 1, verifyBody);
    }
  }

  lemma {:induction false} ValidationComplete(
      sha: Sha, d: Disk, head: Head, verifyBody: bool, records: seq<StoredCheckpoint>, n: nat)
    requires ExactChain(sha, d, head, verifyBody, records) && n <= |records|
    ensures ValidateFrom(sha, d, head, verifyBody, records[..n]) == Ok(records)
    decreases |records| - n
  {
    if n < |records| {
      assert records[..n + 1] == records[..n] + [records[n]];
      assert InPlace(sha, d, records, n, verifyBody);
      InPlacePrefix(sha, d, records, n + 1, n, verifyBody);
      CheckRevisionExact(sha, d, records[..n], records[n], verifyBody);
      ValidationComplete(sha, d, head, verifyBody, records, n + 1);
    } else {
      assert records[..n] == records;
      assert InPlace(sha, d, records, n - 1, verifyBody);
    }
  }

  /** Validation accepts exactly the directories that hold a complete, paired parent chain up to
      the head, and returns that chain. */
  lemma {:induction false} ValidationIsExact(
      sha: Sha, d: Disk, head: Head, verifyBody: bool, records: seq<StoredCheckpoint>)
    ensures ValidateChain(sha, d, head, verifyBody) == Ok(records)
            <==> ExactChain(sha, d, head, verifyBody, records)
  {
    if ValidateChain(sha, d, head, verifyBody) == Ok(records) {
      ValidationSound(sha, d, head, verifyBody, [], records);
    }
    if ExactChain(sha, d, head, verifyBody, records) {
      assert records[..0] == [];
      ValidationComplete(sha, d, head, verifyBody, records, 0);
    }
  }

  /** Identifiers, and even the index file names they give, are distinct along a validated chain. */
  lemma {:induction false} ValidatedDistinct(sha: Sha, d: Disk, head: Head, verifyBody: bool, i: nat, j: nat)
    requires ValidateChain(sha, d, head, verifyBody).Ok?
    requires i < j < |ValidateChain(sha, d, head, verifyBody).value|
    ensures var records := ValidateChain(sha, d, head, verifyBody).value;
            records[i].id != records[j].id && sha.ident(records[i].id) != sha.ident(records[j].id)
  {
    var records := ValidateChain(sha, d, head, verifyBody).value;
    ValidationIsExact(sha, d, head, verifyBody, records);
    assert InPlace(sha, d, records, i, verifyBody) && InPlace(sha, d, records, j, verifyBody);
  }

  // ----- the audit -----

  /** Last writer wins, as in a dictionary built from the records. */
  function ByIdentifier(records: seq<StoredCheckpoint>, id: string): Option<StoredCheckpoint> {
    if records == [] then None
    else if Last(records).id == id then Some(Last(records))
    else ByIdentifier(Front(records), id)
  }

  function ByNumber(records: seq<StoredCheckpoint>, revision: nat): Option<StoredCheckpoint> {
    if records == [] then None
    else if Last(records).revision == revision then Some(Last(records))
    else ByNumber(Front(records), revision)
  }

  function AuditIdEntry(sha: Sha, d: Disk, committed: seq<StoredCheckpoint>, key: Digest): Option<Error>
    requires key in d.byId
  {
    match FileAt(d, d.byId[key])
    case None => Some(InvalidRecord)
    case Some(record) =>
      if key != sha.ident(record.id) then Some(RecordPathMismatch)
      else if ByIdentifier(committed, record.id) != Some(record) then Some(FinalizedRecordMismatch)
      else CheckPair(sha, d, record.id, record.revision)
  }

  function AuditRevisionEntry(d: Disk, committed: seq<StoredCheckpoint>, revision: nat): Option<Error>
    requires revision in d.byRevision
  {
    match FileAt(d, d.byRevision[revision])
    case None => Some(InvalidRecord)
    case Some(record) =>
      if revision != record.revision then Some(RecordPathMismatch)
      else if ByNumber(committed, record.revision) != Some(record) then Some(FinalizedRecordMismatch)
      else None
  }

  ghost predicate AuditClean(sha: Sha, d: Disk, committed: seq<StoredCheckpoint>) {
    && (forall key :: key in d.byId ==> AuditIdEntry(sha, d, committed, key).None?)
    && (forall revision :: revision in d.byRevision ==> AuditRevisionEntry(d, committed, revision).None?)
  }

  /** Walks both indexes in whatever order the directory gives. */
  method AuditNoExtraRecords(sha: Sha, d: Disk, committed: seq<StoredCheckpoint>) returns (refusal: Option<Error>)
    ensures refusal.None? <==> AuditClean(sha, d, committed)
  {
    var keys := d.byId.Keys;
    while keys != {}
      invariant keys <= d.byId.Keys
      invariant forall key :: key in d.byId && key !in keys ==> AuditIdEntry(sha, d, committed, key).None?
      decreases |keys|
    {
      var key :| key in keys;
      var refused := AuditIdEntry(sha, d, committed, key);
      if refused.Some? {
        return refused;
      }
      keys := keys - {key};
    }
    var revisions := d.byRevision.Keys;
    while revisions != {}
      invariant revisions <= d.byRevision.Keys
      invariant forall r :: r in d.byRevision && r !in revisions ==> AuditRevisionEntry(d, committed, r).None?
      decreases |revisions|
    {
      var revision :| revision in revisions;
      var refused := AuditRevisionEntry(d, committed, revision);
      if refused.Some? {
        return refused;
      }
      revisions := revisions - {revision};
    }
    return None;
  }

  lemma {:induction false} ByIdentifierAt(records: seq<StoredCheckpoint>, i: nat)
    requires i < |records| && forall j, k :: 0 <= j < k < |records| ==> records[j].id != records[k].id
    ensures ByIdentifier(records, records[i].id) == Some(records[i])
  {
    if i < |records| - 1 { ByIdentifierAt(Front(records), i); }
  }

  lemma {:induction false} ByNumberAt(records: seq<StoredCheckpoint>, i: nat)
    requires i < |records| && forall j :: 0 <= j < |records| ==> records[j].revision == j + 1
    ensures ByNumber(records, records[i].revision) == Some(records[i])
  {
    if i < |records| - 1 { ByNumberAt(Front(records), i); }
  }

  lemma {:induction false} ByIdentifierIn(records: seq<StoredCheckpoint>, id: string)
    ensures ByIdentifier(records, id).Some? ==> ByIdentifier(records, id).value in records
  {
    if records != [] { ByIdentifierIn(Front(records), id); }
  }

  lemma {:induction false} ByNumberIn(records: seq<StoredCheckpoint>, revision: nat)
    ensures ByNumber(records, revision).Some? ==> ByNumber(records, revision).value in records
  {
    if records != [] { ByNumberIn(Front(records), revision); }
  }

  /** Both indexes hold the records of the chain and nothing else. */
  ghost predicate Bijection(sha: Sha, d: Disk, records: seq<StoredCheckpoint>) {
    && d.byRevision.Keys == Revisions(|records|)
    && (forall key :: key in d.byId <==> exists i :: 0 <= i < |records| && sha.ident(records[i].id) == key)
    && (forall i, j :: 0 <= i < j < |records| ==> sha.ident(records[i].id) != sha.ident(records[j].id))
    && (forall i :: 0 <= i < |records| ==>
          && sha.ident(records[i].id) in d.byId && i + 1 in d.byRevision
          && d.byId[sha.ident(records[i].id)] == d.byRevision[i + 1]
          && FileAt(d, d.byRevision[i + 1]) == Some(records[i]))
  }

  /** After validation, a clean audit says exactly that no record file is extra, missing or
      misplaced. */
  lemma {:induction false} AuditIsExact(sha: Sha, d: Disk, head: Head, verifyBody: bool)
    requires ValidateChain(sha, d, head, verifyBody).Ok?
    ensures var records := ValidateChain(sha, d, head, verifyBody).value;
            AuditClean(sha, d, records) <==> Bijection(sha, d, records)
  {
    var records := ValidateChain(sha, d, head, verifyBody).value;
    ValidationIsExact(sha, d, head, verifyBody, records);
    forall i, j | 0 <= i < j < |records|
      ensures records[i].id != records[j].id && sha.ident(records[i].id) != sha.ident(records[j].id)
    {
      ValidatedDistinct(sha, d, head, verifyBody, i, j);
    }
    forall i | 0 <= i < |records|
      ensures InPlace(sha, d, records, i, verifyBody) && records[i].revision == i + 1
    {}
    if AuditClean(sha, d, records) { CleanIsBijection(sha, d, records, verifyBody); }
    if Bijection(sha, d, records) { BijectionIsClean(sha, d, records, verifyBody); }
  }

  lemma {:induction false} CleanIsBijection(sha: Sha, d: Disk, records: seq<StoredCheckpoint>, verifyBody: bool)
    requires forall i :: 0 <= i < |records| ==> InPlace(sha, d, records, i, verifyBody)
    requires forall i, j :: 0 <= i < j < |records| ==> sha.ident(records[i].id) != sha.ident(records[j].id)
    requires AuditClean(sha, d, records)
    ensures Bijection(sha, d, records)
  {
    forall key | key in d.byId ensures exists i :: 0 <= i < |records| && sha.ident(records[i].id) == key {
      CleanKey(sha, d, records, key);
    }
    forall i | 0 <= i < |records|
      ensures sha.ident(records[i].id) in d.byId && i + 1 in d.byRevision
      ensures d.byId[sha.ident(records[i].id)] == d.byRevision[i + 1]
      ensures FileAt(d, d.byRevision[i + 1]) == Some(records[i])
    {
      assert InPlace(sha, d, records, i, verifyBody);
    }
    forall revision | revision in d.byRevision ensures 1 <= revision <= |records| {
      CleanRevision(sha, d, records, revision, verifyBody);
    }
    forall revision | revision in Revisions(|records|) ensures revision in d.byRevision {
      assert InPlace(sha, d, records, revision - 1, verifyBody);
    }
  }

  lemma {:induction false} CleanKey(sha: Sha, d: Disk, records: seq<StoredCheckpoint>, key: Digest)
    requires AuditClean(sha, d, records) && key in d.byId
    ensures exists i :: 0 <= i < |records| && sha.ident(records[i].id) == key
  {
    assert AuditIdEntry(sha, d, records, key).None?;
    var record := FileAt(d, d.byId[key]).value;
    ByIdentifierIn(records, record.id);
    var i :| 0 <= i < |records| && records[i] == record;
    assert sha.ident(records[i].id) == key;
  }

  lemma {:induction false} CleanRevision(
      sha: Sha, d: Disk, records: seq<StoredCheckpoint>, revision: nat, verifyBody: bool)
    requires forall i :: 0 <= i < |records| ==> InPlace(sha, d, records, i, verifyBody)
    requires AuditClean(sha, d, records) && revision in d.byRevision
    ensures 1 <= revision <= |records|
  {
    assert AuditRevisionEntry(d, records, revision).None?;
    var record := FileAt(d, d.byRevision[revision]).value;
    ByNumberIn(records, record.revision);
    var i :| 0 <= i < |records| && records[i] == record;
    assert InPlace(sha, d, records, i, verifyBody);
  }

  lemma {:induction false} BijectionIsClean(sha: Sha, d: Disk, records: seq<StoredCheckpoint>, verifyBody: bool)
    requires forall i :: 0 <= i < |records| ==> InPlace(sha, d, records, i, verifyBody)
    requires forall i, j :: 0 <= i < j < |records| ==> records[i].id != records[j].id
    requires Bijection(sha, d, records)
    ensures AuditClean(sha, d, records)
  {
    forall i | 0 <= i < |records| ensures records[i].revision == i + 1 {
      assert InPlace(sha, d, records, i, verifyBody);
    }
    hide InPlace;
    forall key | key in d.byId ensures AuditIdEntry(sha, d, records, key).None? {
      var i :| 0 <= i < |records| && sha.ident(records[i].id) == key;
      ByIdentifierAt(records, i);
    }
    forall revision | revision in d.byRevision ensures AuditRevisionEntry(d, records, revision).None? {
      assert revision in Revisions(|records|);
      ByNumberAt(records, revision - 1);
    }
  }

  // ----- on sound directories -----

  lemma {:induction false} CurrentInPlace(sha: Sha, d: Disk, c: Chain, i: nat, verifyBody: bool)
    requires Current(sha, d, c) && i < |c|
    ensures InPlace(sha, d, ChainList(c), i, verifyBody)
  {
    assert InOrder(sha, c, i) && Paired(sha, d, c[i]) && BodyHeld(d, c[i]);
    assert ParentOf(ChainList(c)[..i]) == HeadId(c[..i]);
  }

  /** Validation accepts a directory whose indexes and head are current, with and without reading
      the bodies. */
  lemma {:induction false} CurrentValidates(sha: Sha, d: Disk, c: Chain, verifyBody: bool)
    requires Current(sha, d, c) && c != []
    ensures ValidateChain(sha, d, d.head.value, verifyBody) == Ok(ChainList(c))
  {
    var records := ChainList(c);
    assert InOrder(sha, c, |c| - 1);
    forall i | 0 <= i < |records| ensures InPlace(sha, d, records, i, verifyBody) {
      CurrentInPlace(sha, d, c, i, verifyBody);
    }
    ValidationIsExact(sha, d, d.head.value, verifyBody, records);
  }

  lemma {:induction false} CurrentAudits(sha: Sha, d: Disk, c: Chain)
    requires Current(sha, d, c)
    ensures AuditClean(sha, d, ChainList(c))
  {
    if c == [] {
      assert d.byId.Keys == {} && d.byRevision.Keys == {};
    } else {
      CurrentValidates(sha, d, c, true);
      CurrentBijection(sha, d, c);
      AuditIsExact(sha, d, d.head.value, true);
    }
  }

  lemma {:induction false} CurrentBijection(sha: Sha, d: Disk, c: Chain)
    requires Current(sha, d, c)
    ensures Bijection(sha, d, ChainList(c))
  {
    var records := ChainList(c);
    forall i, j | 0 <= i < j < |records| ensures sha.ident(records[i].id) != sha.ident(records[j].id) {
      assert sha.ident(c[i].desc.id) != sha.ident(c[j].desc.id);
    }
    forall i | 0 <= i < |records|
      ensures sha.ident(records[i].id) in d.byId && i + 1 in d.byRevision
      ensures d.byId[sha.ident(records[i].id)] == d.byRevision[i + 1]
      ensures FileAt(d, d.byRevision[i + 1]) == Some(records[i])
    {
      CurrentInPlace(sha, d, c, i, true);
    }
    forall key ensures key in d.byId <==> exists i :: 0 <= i < |records| && sha.ident(records[i].id) == key {
      if key in d.byId {
        var i :| 0 <= i < |c| && sha.ident(c[i].desc.id) == key;
        assert sha.ident(records[i].id) == key;
      }
    }
  }
}
