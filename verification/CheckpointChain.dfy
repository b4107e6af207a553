/** The versioned checkpoint protocol of one execution stream: an append-only parent chain.

    `ChainSave`, `ChainLatest`, `ChainLoad` and `ChainList` are the reference every store of this
    protocol is compared with. */
module CheckpointChain {
  import opened Prelude
  import opened Metadata

  type Digest = string

  /** The digests the stores take, as unknown functions: bodies, checkpoint identifiers, records. */
  datatype Sha = Sha(body: Bytes -> Digest, ident: string -> Digest, record: StoredCheckpoint -> Digest)

  datatype StoredCheckpoint = StoredCheckpoint(
    id: string,
    parent: Option<string>,
    revision: nat,
    serializerName: string,
    serializerVersion: nat,
    contentType: string,
    size: nat,
    digest: Digest,
    metadata: Json)

  datatype WriteRequest = WriteRequest(
    id: string,
    parent: Option<string>,
    body: Bytes,
    serializerName: string,
    serializerVersion: nat,
    contentType: string,
    metadata: Json)

  datatype Entry = Entry(desc: StoredCheckpoint, body: Bytes)

  type Chain = seq<Entry>

  datatype Error =
    | InvalidCheckpointId | SelfParent
    | Conflict | StaleParent | PendingConflict
    | BodyIntegrityFailure | MissingBody | BodySizeMismatch | BodyDigestMismatch
    | InvalidRecord | InvalidHead | InvalidPending
    | DanglingRecords | RevisionGap | RevisionMismatch | ParentMismatch | RecordIndexMismatch
    | LinkMismatch | HeadMismatch | HeadDigestMismatch | MissingHeadRecord
    | ImpossiblePending | PendingRecordMismatch | RecordPathMismatch | FinalizedRecordMismatch

  // ----- identifiers -----

  predicate Alphanumeric(c: char) {
    'A' <= c <= 'Z' || 'a' <= c <= 'z' || '0' <= c <= '9'
  }

  predicate ValidId(id: string) {
    && 0 < |id| <= 255
    && Alphanumeric(id[0])
    && forall i :: 1 <= i < |id| ==> Alphanumeric(id[i]) || id[i] in "._:-"
  }

  /** Building a write request checks its identifiers. */
  function CheckRequest(req: WriteRequest): Option<Error> {
    if !ValidId(req.id) || (req.parent.Some? && !ValidId(req.parent.value)) then Some(InvalidCheckpointId)
    else if req.parent == Some(req.id) then Some(SelfParent)
    else None
  }

  /** A request is built exactly from valid identifiers of which the parent is another one. */
  lemma RequestIsBuiltIff(req: WriteRequest)
    ensures CheckRequest(req).None? <==>
              && Identifier(req.id, 255)
              && (req.parent.Some? ==> Identifier(req.parent.value, 255) && req.parent.value != req.id)
    ensures CheckRequest(req) == Some(SelfParent) <==> Identifier(req.id, 255) && req.parent == Some(req.id)
  {
    IdsAreIdentifiers(req.id);
    if req.parent.Some? { IdsAreIdentifiers(req.parent.value); }
    hide ValidId, Identifier;
  }

  lemma IdsAreIdentifiers(id: string)
    ensures ValidId(id) <==> Identifier(id, 255)
  {}

  // ----- the reference -----

  function Describe(sha: Sha, req: WriteRequest, revision: nat): StoredCheckpoint {
    StoredCheckpoint(req.id, req.parent, revision, req.serializerName, req.serializerVersion,
                     req.contentType, |req.body|, sha.body(req.body), req.metadata)
  }

  predicate SameMetadata(a: Json, b: Json) {
    CanonEq(Canonicalize(a), Canonicalize(b))
  }

  /** The idempotence test of the protocol: the stored version is the one being written. */
  predicate SameRequest(e: Entry, req: WriteRequest) {
    && e.desc.id == req.id
    && e.desc.parent == req.parent
    && e.body == req.body
    && e.desc.serializerName == req.serializerName
    && e.desc.serializerVersion == req.serializerVersion
    && e.desc.contentType == req.contentType
    && SameMetadata(e.desc.metadata, req.metadata)
  }

  function Find(c: Chain, id: string): (r: Option<Entry>)
    ensures r.Some? ==> r.value in c && r.value.desc.id == id
    ensures r.None? ==> forall e :: e in c ==> e.desc.id != id
  {
    if c == [] then None
    else if Last(c).desc.id == id then Some(Last(c))
    else Find(Front(c), id)
  }

  function HeadId(c: Chain): Option<string> {
    if c == [] then None else Some(Last(c).desc.id)
  }

  function ChainSave(sha: Sha, c: Chain, req: WriteRequest): (Chain, Result<StoredCheckpoint, Error>) {
    match Find(c, req.id)
    case Some(e) => (c, if SameRequest(e, req) then Ok(e.desc) else Err(Conflict))
    case None =>
      if req.parent != HeadId(c) then (c, Err(StaleParent))
      else
        var desc := Describe(sha, req, |c| + 1);
        (c + [Entry(desc, req.body)], Ok(desc))
  }

  /** Building the request and saving it. */
  function Submit(sha: Sha, c: Chain, req: WriteRequest): (Chain, Result<StoredCheckpoint, Error>) {
    match CheckRequest(req)
    case Some(e) => (c, Err(e))
    case None => ChainSave(sha, c, req)
  }

  function ChainLatest(c: Chain): Option<Entry> {
    if c == [] then None else Some(Last(c))
  }

  function ChainLoad(c: Chain, id: string): Option<Entry> {
    Find(c, id)
  }

  function ChainList(c: Chain): (r: seq<StoredCheckpoint>)
    ensures |r| == |c| && forall i :: 0 <= i < |c| ==> r[i] == c[i].desc
  {
    seq(|c|, i requires 0 <= i < |c| => c[i].desc)
  }

  /** A linear history: revisions count from one, each version names its predecessor, identifiers
      are distinct, and every descriptor describes its body. */
  ghost predicate WellChained(sha: Sha, c: Chain) {
    && (forall i :: 0 <= i < |c| ==> InOrder(sha, c, i))
    && (forall i, j :: 0 <= i < j < |c| ==> c[i].desc.id != c[j].desc.id)
  }

  ghost predicate InOrder(sha: Sha, c: Chain, i: nat)
    requires i < |c|
  {
    && c[i].desc.revision == i + 1
    && c[i].desc.parent == HeadId(c[..i])
    && Describes(sha, c[i])
  }

  ghost predicate Describes(sha: Sha, e: Entry) {
    e.desc.size == |e.body| && e.desc.digest == sha.body(e.body)
  }

  // ----- laws of the reference -----

  lemma WellChainedPrefix(sha: Sha, c: Chain, n: nat)
    requires WellChained(sha, c) && n <= |c|
    ensures WellChained(sha, c[..n])
  {
    forall i | 0 <= i < n ensures InOrder(sha, c[..n], i) {
      assert InOrder(sha, c, i) && c[..n][..i] == c[..i];
    }
  }

  lemma AllDescribed(sha: Sha, c: Chain)
    requires WellChained(sha, c)
    ensures forall e :: e in c ==> Describes(sha, e)
  {
    forall e | e in c ensures Describes(sha, e) {
      var i :| 0 <= i < |c| && c[i] == e;
      assert InOrder(sha, c, i);
    }
  }

  /** A save keeps the history linear and only ever appends. */
  lemma SaveKeepsHistory(sha: Sha, c: Chain, req: WriteRequest)
    requires WellChained(sha, c)
    ensures WellChained(sha, ChainSave(sha, c, req).0)
    ensures c <= ChainSave(sha, c, req).0 && |ChainSave(sha, c, req).0| <= |c| + 1
  {
    var (next, _) := ChainSave(sha, c, req);
    forall i | 0 <= i < |next| ensures InOrder(sha, next, i) {
      if i < |c| {
        assert InOrder(sha, c, i) && next[..i] == c[..i];
      } else {
        assert next[..i] == c;
      }
    }
  }

  /** Finding by identifier is exact on a linear history. */
  lemma {:induction false} FindAt(c: Chain, i: nat)
    requires i < |c| && forall j, k :: 0 <= j < k < |c| ==> c[j].desc.id != c[k].desc.id
    ensures Find(c, c[i].desc.id) == Some(c[i])
  {
    if i < |c| - 1 {
      FindAt(Front(c), i);
    }
  }

  /** What is found stays found on every longer history. */
  lemma {:induction false} FindStable(sha: Sha, c: Chain, longer: Chain, id: string)
    requires WellChained(sha, longer) && c <= longer && Find(c, id).Some?
    ensures Find(longer, id) == Find(c, id)
  {
    var e := Find(c, id).value;
    var i :| 0 <= i < |c| && c[i] == e;
    assert longer[i] == e;
    FindAt(longer, i);
  }

  /** A version is the request it was described from. */
  lemma {:induction false} DescribesItsRequest(sha: Sha, req: WriteRequest, revision: nat)
    requires WellKeyed(req.metadata)
    ensures SameRequest(Entry(Describe(sha, req, revision), req.body), req)
  {
    CanonicalExact(req.metadata, req.metadata);
    SameTreeReflexive(req.metadata);
  }

  /** Repeating a successful save returns the same version and changes nothing, however many
      other saves came between. */
  lemma RetryIsIdempotent(sha: Sha, c: Chain, req: WriteRequest, later: Chain)
    requires WellChained(sha, c) && WellChained(sha, later) && WellKeyed(req.metadata)
    requires ChainSave(sha, c, req).1.Ok? && ChainSave(sha, c, req).0 <= later
    ensures ChainSave(sha, later, req) == (later, ChainSave(sha, c, req).1)
  {
    hide SameRequest, WellKeyed;
    var (next, result) := ChainSave(sha, c, req);
    DescribesItsRequest(sha, req, |c| + 1);
    if Find(c, req.id).None? { FindAt(next, |c|); }
    FindStable(sha, next, later, req.id);
  }

  /** A descriptor and body say what the request says, field by field. */
  ghost predicate Carries(sha: Sha, e: Entry, req: WriteRequest) {
    && e.desc.id == req.id && e.desc.parent == req.parent && e.body == req.body
    && e.desc.serializerName == req.serializerName && e.desc.serializerVersion == req.serializerVersion
    && e.desc.contentType == req.contentType
    && e.desc.size == |req.body| && e.desc.digest == sha.body(req.body)
    && SameTree(e.desc.metadata, req.metadata)
  }

  ghost predicate Keyed(c: Chain) {
    forall i :: 0 <= i < |c| ==> WellKeyed(c[i].desc.metadata)
  }

  /** A new identifier is accepted exactly under the head as its parent, and then appended as the
      request says it. */
  lemma {:induction false} NewVersionCarries(sha: Sha, c: Chain, req: WriteRequest)
    requires forall i :: 0 <= i < |c| ==> c[i].desc.id != req.id
    ensures var (next, answer) := ChainSave(sha, c, req);
            if req.parent == (if c == [] then None else Some(c[|c| - 1].desc.id)) then
              && answer.Ok? && next == c + [Entry(answer.value, req.body)]
              && Carries(sha, Entry(answer.value, req.body), req)
              && answer.value.revision == |c| + 1 && answer.value.metadata == req.metadata
            else next == c && answer == Err(StaleParent)
  {
    SameTreeReflexive(req.metadata);
    assert forall e :: e in c ==> e.desc.id != req.id;
  }

  /** An identifier that is taken is accepted exactly for the request its version carries; a difference
      in any field or in the body is a conflict. */
  lemma {:induction false} TakenVersionCarries(sha: Sha, c: Chain, req: WriteRequest, i: nat)
    requires WellChained(sha, c) && Keyed(c) && WellKeyed(req.metadata) && i < |c| && c[i].desc.id == req.id
    ensures var (next, answer) := ChainSave(sha, c, req);
            next == c && answer == if Carries(sha, c[i], req) then Ok(c[i].desc) else Err(Conflict)
  {
    FindAt(c, i);
    assert InOrder(sha, c, i);
    CanonicalExact(c[i].desc.metadata, req.metadata);
  }

  /** Whatever is answered to an accepted save is what the request says, and is stored so. */
  lemma {:induction false} SavedCarries(sha: Sha, c: Chain, req: WriteRequest)
    requires WellChained(sha, c) && Keyed(c) && WellKeyed(req.metadata)
    ensures var (next, answer) := ChainSave(sha, c, req);
            && Keyed(next)
            && (answer.Ok? ==>
                  Entry(answer.value, req.body) in next && Carries(sha, Entry(answer.value, req.body), req))
  {
    hide Carries, Keyed, WellKeyed;
    if Find(c, req.id).Some? {
      var i :| 0 <= i < |c| && c[i] == Find(c, req.id).value;
      TakenVersionCarries(sha, c, req, i);
      hide ChainSave;
      BodyOfCarried(sha, c[i], req);
    } else {
      forall i | 0 <= i < |c| ensures c[i].desc.id != req.id { assert c[i] in c; }
      NewVersionCarries(sha, c, req);
      KeyedOn(c, req.metadata, ChainSave(sha, c, req).0);
    }
  }

  /** An accepted submission is found under its identifier, saying what the request says. */
  lemma {:induction false} SubmittedCarries(sha: Sha, c: Chain, req: WriteRequest)
    requires WellChained(sha, c) && Keyed(c) && WellKeyed(req.metadata) && Submit(sha, c, req).1.Ok?
    ensures var next := Submit(sha, c, req).0;
            && WellChained(sha, next) && Keyed(next) && c <= next
            && Find(next, req.id).Some? && Carries(sha, Find(next, req.id).value, req)
  {
    var (next, answer) := ChainSave(sha, c, req);
    SaveKeepsHistory(sha, c, req);
    SavedCarries(sha, c, req);
    hide ChainSave, Keyed, WellKeyed, ValidId;
    var i :| 0 <= i < |next| && next[i] == Entry(answer.value, req.body);
    FindAt(next, i);
  }

  lemma BodyOfCarried(sha: Sha, e: Entry, req: WriteRequest)
    ensures Carries(sha, e, req) ==> e.body == req.body
  {}

  lemma KeyedOn(c: Chain, metadata: Json, next: Chain)
    requires Keyed(c) && WellKeyed(metadata)
    requires next == c || (|next| == |c| + 1 && c <= next && next[|c|].desc.metadata == metadata)
    ensures Keyed(next)
  {}

  lemma {:induction false} SameTreeReflexive(a: Json)
    ensures SameTree(a, a)
    decreases a
  {
    match a
    case List(items) =>
      forall i | 0 <= i < |items| ensures SameTree(items[i], items[i]) { SameTreeReflexive(items[i]); }
    case Object(fields) =>
      forall i | 0 <= i < |fields| ensures FieldMatched(fields[i], fields) {
        SameTreeReflexive(fields[i].value);
      }
      assert SameFields(fields, fields) by {
        forall k | 0 <= k < |fields| ensures exists i | 0 <= i < |fields| :: fields[i].key == fields[k].key {
          assert fields[k].key == fields[k].key;
        }
      }
    case _ =>
  }
}
