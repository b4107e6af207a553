/** The write-once artifact protocol: its in-memory reference, and the lock-free filesystem store as
    a machine on which any number of writers interleave. */
module Artifacts {
  import opened Prelude
  import opened Metadata

  type Digest = string

  /** Digests of bodies and of storage keys, as unknown functions. */
  datatype Hashes = Hashes(body: Bytes -> Digest, ident: string -> Digest)

  datatype StoredArtifact = StoredArtifact(
    runId: string, storageKey: string, name: string, kind: string,
    contentType: Option<string>, size: nat, digest: Digest, metadata: Json)

  datatype Request = Request(
    runId: string, storageKey: string, body: Bytes, name: string, kind: string,
    contentType: Option<string>, metadata: Json)

  datatype Record = Record(artifact: StoredArtifact, body: Bytes)

  datatype Error =
    | Conflict | BodyIntegrityFailure | KeyMismatch
    | MissingBody | SizeMismatch | DigestMismatch | MissingManifest | IntegrityFailure

  type Items = map<string, Record>

  type Answer = Result<StoredArtifact, Error>

  function Describe(sha: Hashes, req: Request): StoredArtifact {
    StoredArtifact(req.runId, req.storageKey, req.name, req.kind, req.contentType,
                   |req.body|, sha.body(req.body), req.metadata)
  }

  // ----- the reference -----

  /** Descriptors compare field by field, their metadata as the host language compares dictionaries. */
  predicate SameArtifact(a: StoredArtifact, b: StoredArtifact) {
    b == a.(metadata := b.metadata) && HostEq(a.metadata, b.metadata)
  }

  /** The first write of a key decides; the same write again is accepted, another one refused. */
  function MemPut(sha: Hashes, items: Items, req: Request): (Items, Answer) {
    var candidate := Describe(sha, req);
    if req.storageKey in items then
      var existing := items[req.storageKey];
      (items,
       if SameArtifact(existing.artifact, candidate) && existing.body == req.body then Ok(existing.artifact)
       else Err(Conflict))
    else (items[req.storageKey := Record(candidate, req.body)], Ok(candidate))
  }

  class MemoryArtifactStore {
    const sha: Hashes
    var items: Items

    ghost predicate Valid()
      reads this
    {
      forall key :: key in items ==>
        && items[key].artifact.storageKey == key
        && items[key].artifact.size == |items[key].body|
        && items[key].artifact.digest == sha.body(items[key].body)
    }

    constructor (sha: Hashes)
      ensures Valid() && items == map[] && this.sha == sha
    {
      this.sha := sha;
      items := map[];
    }

    method Put(req: Request) returns (answer: Answer)
      requires Valid()
      modifies this
      ensures Valid() && (items, answer) == MemPut(sha, old(items), req)
    {
      var candidate := Describe(sha, req);
      if candidate.storageKey in items {
        var existing := items[candidate.storageKey];
        if SameArtifact(existing.artifact, candidate) && existing.body == req.body {
          return Ok(existing.artifact);
        }
        return Err(Conflict);
      }
      items := items[candidate.storageKey := Record(candidate, req.body)];
      return Ok(candidate);
    }

    method Get(storageKey: string) returns (answer: Result<Option<Record>, Error>)
      requires Valid()
      ensures answer == Ok(if storageKey in items then Some(items[storageKey]) else None)
    {
      if storageKey !in items {
        return Ok(None);
      }
      var record := items[storageKey];
      if record.artifact.size != |record.body| || record.artifact.digest != sha.body(record.body) {
        assert false;
      }
      return Ok(Some(record));
    }
  }

  /** Once written, a key keeps its record through every later write; a later write of the key is
      accepted exactly when it describes the same artifact and body, so repeating a write is. */
  lemma FirstWriteWins(sha: Hashes, items: Items, first: Request, later: Request)
    requires MemPut(sha, items, first).1.Ok?
    ensures var after := MemPut(sha, items, first).0;
            var (final, answer) := MemPut(sha, after, later);
            && first.storageKey in after && first.storageKey in final
            && final[first.storageKey] == after[first.storageKey]
            && after[first.storageKey].body == first.body
            && SameArtifact(after[first.storageKey].artifact, Describe(sha, first))
            && (later.storageKey == first.storageKey ==>
                  (answer.Ok? <==>
                     && SameArtifact(after[first.storageKey].artifact, Describe(sha, later))
                     && later.body == first.body))
            && (later == first ==> answer == MemPut(sha, items, first).1)
  {
    HostEqReflexive(first.metadata);
  }

  /** A record says what the request says, field by field. */
  ghost predicate Carries(sha: Hashes, r: Record, req: Request) {
    && r.artifact.runId == req.runId && r.artifact.storageKey == req.storageKey
    && r.artifact.name == req.name && r.artifact.kind == req.kind && r.artifact.contentType == req.contentType
    && r.artifact.size == |req.body| && r.artifact.digest == sha.body(req.body) && r.body == req.body
    && HostEq(r.artifact.metadata, req.metadata)
  }

  /** A free key is given a record that carries the request, with the metadata as it is; a taken one
      accepts exactly the requests that its record carries, and a difference in any field or in the body
      is a conflict. */
  lemma PutCarries(sha: Hashes, items: Items, req: Request)
    ensures var (after, answer) := MemPut(sha, items, req);
            if req.storageKey in items then
              && after == items
              && answer == (if Carries(sha, items[req.storageKey], req) then Ok(items[req.storageKey].artifact)
                            else Err(Conflict))
            else
              && answer.Ok? && after == items[req.storageKey := Record(answer.value, req.body)]
              && Carries(sha, Record(answer.value, req.body), req) && answer.value.metadata == req.metadata
  {
    HostEqReflexive(req.metadata);
  }

  /** Whatever is answered to an accepted put is stored, with the body, and says what the request says. */
  lemma PutStores(sha: Hashes, items: Items, req: Request)
    requires MemPut(sha, items, req).1.Ok?
    ensures var (after, answer) := MemPut(sha, items, req);
            && req.storageKey in after && after[req.storageKey] == Record(answer.value, req.body)
            && Carries(sha, Record(answer.value, req.body), req)
  {
    PutCarries(sha, items, req);
  }

  // ----- the filesystem store, one atomic step at a time -----

  datatype Shelf = Shelf(bodies: map<Digest, Bytes>, manifests: map<Digest, StoredArtifact>)

  /** Where a writer is: before its first look at the manifest, before reading the body of the
      manifest it found, before storing its body, before checking a body that was there, before
      linking its manifest, and, when that link was lost, before the two reads of the winner. */
  datatype Pc =
    | Looking
    | Comparing(found: StoredArtifact)
    | StoringBody
    | CheckingBody
    | Linking
    | Rereading
    | Confirming(winner: StoredArtifact)
    | Finished(answer: Answer)

  function CheckStoredBody(sha: Hashes, shelf: Shelf, artifact: StoredArtifact): Option<Error> {
    if artifact.digest !in shelf.bodies then Some(MissingBody)
    else if |shelf.bodies[artifact.digest]| != artifact.size then Some(SizeMismatch)
    else if sha.body(shelf.bodies[artifact.digest]) != artifact.digest then Some(DigestMismatch)
    else None
  }

  function Next(sha: Hashes, shelf: Shelf, req: Request, pc: Pc): (Shelf, Pc)
    requires !pc.Finished?
  {
    var artifact, key := Describe(sha, req), sha.ident(req.storageKey);
    match pc
    case Looking =>
      if key !in shelf.manifests then (shelf, StoringBody)
      else if sha.ident(shelf.manifests[key].storageKey) != key then (shelf, Finished(Err(KeyMismatch)))
      else (shelf, Comparing(shelf.manifests[key]))
    case Comparing(found) =>
      if CheckStoredBody(sha, shelf, found).Some? then
        (shelf, Finished(Err(CheckStoredBody(sha, shelf, found).value)))
      else if !SameArtifact(found, artifact) then (shelf, Finished(Err(Conflict)))
      else if shelf.bodies[found.digest] != req.body then (shelf, Finished(Err(BodyIntegrityFailure)))
      else (shelf, Finished(Ok(found)))
    case StoringBody =>
      if artifact.digest in shelf.bodies then (shelf, CheckingBody)
      else (shelf.(bodies := shelf.bodies[artifact.digest := req.body]), Linking)
    case CheckingBody =>
      if artifact.digest !in shelf.bodies then (shelf, Finished(Err(MissingBody)))
      else if shelf.bodies[artifact.digest] != req.body then (shelf, Finished(Err(BodyIntegrityFailure)))
      else (shelf, Linking)
    case Linking =>
      if key in shelf.manifests then (shelf, Rereading)
      else (shelf.(manifests := shelf.manifests[key := artifact]), Finished(Ok(artifact)))
    case Rereading =>
      if key !in shelf.manifests then (shelf, Finished(Err(MissingManifest)))
      else if sha.ident(shelf.manifests[key].storageKey) != key then (shelf, Finished(Err(KeyMismatch)))
      else (shelf, Confirming(shelf.manifests[key]))
    case Confirming(winner) =>
      if CheckStoredBody(sha, shelf, winner).Some? then
        (shelf, Finished(Err(CheckStoredBody(sha, shelf, winner).value)))
      else if !SameArtifact(winner, artifact) then (shelf, Finished(Err(Conflict)))
      else (shelf, Finished(Ok(winner)))
  }

  // ----- many writers -----

  type Pid = nat

  /** `slot` is where in the log the writer took effect, once it has. */
  datatype Writer = Writer(req: Request, pc: Pc, slot: Option<nat>)

  datatype Effect = Effect(pid: Pid, req: Request)

  /** The log lists the writes in the order in which they took effect. */
  datatype System = System(shelf: Shelf, writers: map<Pid, Writer>, used: set<Pid>, log: seq<Effect>)

  datatype Action = Begin(pid: Pid, req: Request) | Step(pid: Pid) | Die(pid: Pid)

  const EMPTY := System(Shelf(map[], map[]), map[], {}, [])

  /** A write takes effect when its manifest link succeeds, or when it reads a manifest of its key. */
  function TakesEffect(sha: Hashes, shelf: Shelf, w: Writer): bool {
    var key := sha.ident(w.req.storageKey);
    match w.pc
    case Looking => key in shelf.manifests && shelf.manifests[key].storageKey == w.req.storageKey
    case Rereading => key in shelf.manifests && shelf.manifests[key].storageKey == w.req.storageKey
    case Linking => key !in shelf.manifests
    case _ => false
  }

  ghost predicate Enabled(s: System, action: Action) {
    match action
    case Begin(pid, _) => pid !in s.used
    case Step(pid) => pid in s.writers && !s.writers[pid].pc.Finished?
    case Die(pid) => pid in s.writers
  }

  ghost function Perform(sha: Hashes, s: System, action: Action): System
    requires Enabled(s, action)
  {
    match action
    case Begin(pid, req) =>
      s.(writers := s.writers[pid := Writer(req, Looking, None)], used := s.used + {pid})
    case Step(pid) =>
      var w := s.writers[pid];
      var (shelf, pc) := Next(sha, s.shelf, w.req, w.pc);
      if TakesEffect(sha, s.shelf, w) then
        System(shelf, s.writers[pid := Writer(w.req, pc, Some(|s.log|))], s.used, s.log + [Effect(pid, w.req)])
      else System(shelf, s.writers[pid := w.(pc := pc)], s.used, s.log)
    case Die(pid) => s.(writers := s.writers - {pid})
  }

  ghost predicate Run(sha: Hashes, states: seq<System>, actions: seq<Action>) {
    && |states| == |actions| + 1
    && states[0] == EMPTY
    && forall i {:trigger actions[i]} :: 0 <= i < |actions| ==>
         Enabled(states[i], actions[i]) && states[i + 1] == Perform(sha, states[i], actions[i])
  }

  // ----- the sequential explanation -----

  ghost function Replay(sha: Hashes, log: seq<Effect>): Items {
    if log == [] then map[] else MemPut(sha, Replay(sha, Front(log)), Last(log).req).0
  }

  /** What the reference answers to the write in one slot of the log. */
  ghost function Replied(sha: Hashes, log: seq<Effect>, slot: nat): Answer
    requires slot < |log|
  {
    MemPut(sha, Replay(sha, log[..slot]), log[slot].req).1
  }

  /** Every manifest describes a stored body, and everything has the name its content gives it. */
  ghost predicate Sound(sha: Hashes, shelf: Shelf) {
    && (forall d :: d in shelf.bodies ==> sha.body(shelf.bodies[d]) == d)
    && (forall k :: k in shelf.manifests ==>
          && sha.ident(shelf.manifests[k].storageKey) == k
          && CheckStoredBody(sha, shelf, shelf.manifests[k]).None?)
  }

  ghost predicate Mirrors(sha: Hashes, shelf: Shelf, items: Items) {
    && (forall k :: k in shelf.manifests ==>
          var m := shelf.manifests[k];
          && m.storageKey in items && m.digest in shelf.bodies
          && items[m.storageKey] == Record(m, shelf.bodies[m.digest]))
    && (forall key :: key in items ==>
          sha.ident(key) in shelf.manifests && shelf.manifests[sha.ident(key)].storageKey == key)
  }

  /** Another key has the file name of the request's key, so that the write cannot take effect. */
  ghost predicate KeyTaken(sha: Hashes, shelf: Shelf, req: Request) {
    var key := sha.ident(req.storageKey);
    key in shelf.manifests && shelf.manifests[key].storageKey != req.storageKey
  }

  /** Another body has the file name of the request's body. */
  ghost predicate BodyTaken(sha: Hashes, shelf: Shelf, req: Request) {
    var digest := sha.body(req.body);
    digest in shelf.bodies && shelf.bodies[digest] != req.body
  }

  /** What a writer knows that has read a manifest: its write has taken effect, or never will. */
  ghost predicate FoundOk(sha: Hashes, s: System, w: Writer, found: StoredArtifact) {
    var key := sha.ident(w.req.storageKey);
    && key in s.shelf.manifests && s.shelf.manifests[key] == found
    && (found.storageKey == w.req.storageKey <==> w.slot.Some?)
    && (w.slot.Some? ==>
          && w.slot.value < |s.log|
          && Replied(sha, s.log, w.slot.value) == Settled(sha, s.shelf, w.req, found))
  }

  /** What is known of a writer from where it is. */
  ghost predicate WriterOk(sha: Hashes, s: System, pid: Pid, w: Writer) {
    var digest, key := sha.body(w.req.body), sha.ident(w.req.storageKey);
    && pid in s.used
    && (w.slot.Some? ==> w.slot.value < |s.log| && s.log[w.slot.value] == Effect(pid, w.req))
    && match w.pc {
         case Looking => w.slot.None?
         case Comparing(found) => FoundOk(sha, s, w, found)
         case StoringBody => w.slot.None?
         case CheckingBody => w.slot.None? && digest in s.shelf.bodies
         case Linking => w.slot.None? && digest in s.shelf.bodies && s.shelf.bodies[digest] == w.req.body
         case Rereading =>
           && w.slot.None? && digest in s.shelf.bodies && s.shelf.bodies[digest] == w.req.body
           && key in s.shelf.manifests
         case Confirming(winner) =>
           && FoundOk(sha, s, w, winner)
           && digest in s.shelf.bodies && s.shelf.bodies[digest] == w.req.body
         case Finished(answer) => AnswerOk(sha, s, w, answer)
       }
  }

  /** The reference answer for a key that already has a manifest. */
  ghost function Settled(sha: Hashes, shelf: Shelf, req: Request, m: StoredArtifact): Answer {
    if SameArtifact(m, Describe(sha, req)) && m.digest in shelf.bodies && shelf.bodies[m.digest] == req.body then Ok(m)
    else Err(Conflict)
  }

  /** A finished writer answers as the reference does in its slot, or reports the collision that
      kept it from doing so: another key's artifact as a conflict, another body as a failure. */
  ghost predicate AnswerOk(sha: Hashes, s: System, w: Writer, answer: Answer) {
    || (w.slot.Some? && w.slot.value < |s.log| && answer == Replied(sha, s.log, w.slot.value))
    || (w.slot.None? && answer == Err(Conflict) && KeyTaken(sha, s.shelf, w.req))
    || (answer == Err(BodyIntegrityFailure) && BodyTaken(sha, s.shelf, w.req))
  }

  ghost predicate Inv(sha: Hashes, s: System) {
    && Sound(sha, s.shelf)
    && Mirrors(sha, s.shelf, Replay(sha, s.log))
    && WritersOk(sha, s)
    && (forall i :: 0 <= i < |s.log| ==> s.log[i].pid in s.used)
    && (forall i :: 0 <= i < |s.log| && s.log[i].pid in s.writers ==> s.writers[s.log[i].pid].slot == Some(i))
    && (forall i, j :: 0 <= i < j < |s.log| ==> s.log[i].pid != s.log[j].pid)
  }

  /** Bodies and manifests are never removed or changed. */
  ghost predicate Grows(a: Shelf, b: Shelf) {
    && (forall d :: d in a.bodies ==> d in b.bodies && b.bodies[d] == a.bodies[d])
    && (forall k :: k in a.manifests ==> k in b.manifests && b.manifests[k] == a.manifests[k])
  }

  // ----- the invariant -----

  lemma {:induction false} RepliedStable(sha: Hashes, log: seq<Effect>, longer: seq<Effect>, slot: nat)
    requires slot < |log| && log <= longer
    ensures Replied(sha, longer, slot) == Replied(sha, log, slot)
  {
    assert longer[..slot] == log[..slot];
  }

  /** Nothing another writer does invalidates what is known of this one. */
  lemma {:induction false} WriterStable(sha: Hashes, s: System, s': System, pid: Pid, w: Writer)
    requires WriterOk(sha, s, pid, w) && Sound(sha, s.shelf)
    requires Grows(s.shelf, s'.shelf) && s.log <= s'.log && s.used <= s'.used
    ensures WriterOk(sha, s', pid, w)
  {
    if w.slot.Some? {
      RepliedStable(sha, s.log, s'.log, w.slot.value);
    }
  }

  /** One step only adds, and what it adds is named by its content. */
  lemma {:induction false} NextKeepsShelf(sha: Hashes, s: System, pid: Pid, w: Writer)
    requires WriterOk(sha, s, pid, w) && Sound(sha, s.shelf) && !w.pc.Finished?
    ensures var shelf := Next(sha, s.shelf, w.req, w.pc).0;
            Grows(s.shelf, shelf) && Sound(sha, shelf)
  {}

  /** A step that takes no effect leaves the mirrored items alone. */
  lemma {:induction false} QuietStep(sha: Hashes, s: System, pid: Pid, w: Writer, items: Items)
    requires WriterOk(sha, s, pid, w) && Sound(sha, s.shelf) && Mirrors(sha, s.shelf, items)
    requires !w.pc.Finished? && !TakesEffect(sha, s.shelf, w)
    ensures Mirrors(sha, Next(sha, s.shelf, w.req, w.pc).0, items)
  {}

  ghost predicate Reads(sha: Hashes, shelf: Shelf, req: Request, m: StoredArtifact) {
    var key := sha.ident(req.storageKey);
    key in shelf.manifests && shelf.manifests[key] == m && m.storageKey == req.storageKey
  }

  /** A step that takes effect is one reference write. */
  lemma {:induction false} EffectStep(sha: Hashes, s: System, pid: Pid, w: Writer, items: Items)
    requires WriterOk(sha, s, pid, w) && Sound(sha, s.shelf) && Mirrors(sha, s.shelf, items)
    requires !w.pc.Finished? && TakesEffect(sha, s.shelf, w)
    ensures var (shelf, pc) := Next(sha, s.shelf, w.req, w.pc);
            var (after, answer) := MemPut(sha, items, w.req);
            && Mirrors(sha, shelf, after)
            && (pc.Finished? ==> pc.answer == answer)
            && (pc.Comparing? ==> Reads(sha, shelf, w.req, pc.found) && answer == Settled(sha, shelf, w.req, pc.found))
            && (pc.Confirming? ==>
                  Reads(sha, shelf, w.req, pc.winner) && answer == Settled(sha, shelf, w.req, pc.winner))
            && (pc.Finished? || pc.Comparing? || pc.Confirming?)
            && (pc.Confirming? ==> w.pc.Rereading?)
  {}

  /** What is known of a writer after a step of its own that takes effect. */
  lemma {:induction false} EffectKeepsWriter(sha: Hashes, s: System, pid: Pid)
    requires Inv(sha, s) && Enabled(s, Step(pid)) && TakesEffect(sha, s.shelf, s.writers[pid])
    ensures var s' := Perform(sha, s, Step(pid)); WriterOk(sha, s', pid, s'.writers[pid])
  {
    hide HostEq, SameArtifact;
    var w, s', items := s.writers[pid], Perform(sha, s, Step(pid)), Replay(sha, s.log);
    NextKeepsShelf(sha, s, pid, w);
    EffectStep(sha, s, pid, w, items);
    assert s'.log[..|s.log|] == s.log;
    assert Replied(sha, s'.log, |s.log|) == MemPut(sha, items, w.req).1;
    hide Replay, MemPut, Sound, Mirrors;
  }

  /** And after one that does not. */
  lemma {:induction false} QuietKeepsWriter(sha: Hashes, s: System, pid: Pid)
    requires Enabled(s, Step(pid)) && !TakesEffect(sha, s.shelf, s.writers[pid])
    requires WriterOk(sha, s, pid, s.writers[pid]) && Sound(sha, s.shelf)
    ensures var s' := Perform(sha, s, Step(pid)); WriterOk(sha, s', pid, s'.writers[pid])
  {
    hide Replay, HostEq, MemPut;
    NextKeepsShelf(sha, s, pid, s.writers[pid]);
  }

  /** What is known of a writer after its own step. */
  lemma {:induction false} StepKeepsWriter(sha: Hashes, s: System, pid: Pid)
    requires Inv(sha, s) && Enabled(s, Step(pid))
    ensures var s' := Perform(sha, s, Step(pid)); WriterOk(sha, s', pid, s'.writers[pid])
  {
    hide WriterOk, Sound, TakesEffect, Perform;
    if TakesEffect(sha, s.shelf, s.writers[pid]) {
      EffectKeepsWriter(sha, s, pid);
    } else {
      QuietKeepsWriter(sha, s, pid);
    }
  }

  ghost predicate WritersOk(sha: Hashes, s: System) {
    forall pid :: pid in s.writers ==> WriterOk(sha, s, pid, s.writers[pid])
  }

  lemma {:induction false} StepKeepsWriters(sha: Hashes, s: System, pid: Pid)
    requires Inv(sha, s) && Enabled(s, Step(pid))
    ensures WritersOk(sha, Perform(sha, s, Step(pid)))
    ensures Grows(s.shelf, Perform(sha, s, Step(pid)).shelf) && Sound(sha, Perform(sha, s, Step(pid)).shelf)
  {
    var w, s' := s.writers[pid], Perform(sha, s, Step(pid));
    NextKeepsShelf(sha, s, pid, w);
    StepKeepsWriter(sha, s, pid);
    hide WriterOk;
    forall other | other in s'.writers ensures WriterOk(sha, s', other, s'.writers[other]) {
      if other != pid { WriterStable(sha, s, s', other, s.writers[other]); }
    }
  }

  lemma {:induction false} StepKeepsItems(sha: Hashes, s: System, pid: Pid)
    requires Inv(sha, s) && Enabled(s, Step(pid))
    ensures var s' := Perform(sha, s, Step(pid)); Mirrors(sha, s'.shelf, Replay(sha, s'.log))
  {
    var w, s', items := s.writers[pid], Perform(sha, s, Step(pid)), Replay(sha, s.log);
    assert WriterOk(sha, s, pid, w);
    if TakesEffect(sha, s.shelf, w) {
      EffectStep(sha, s, pid, w, items);
      assert Front(s'.log) == s.log;
    } else {
      QuietStep(sha, s, pid, w, items);
    }
  }

  lemma EffectIsFirst(sha: Hashes, s: System, pid: Pid)
    requires Inv(sha, s) && Enabled(s, Step(pid))
    ensures pid in s.used && (TakesEffect(sha, s.shelf, s.writers[pid]) ==> s.writers[pid].slot.None?)
  {
    assert WriterOk(sha, s, pid, s.writers[pid]);
  }

  lemma {:induction false} StepKeepsInv(sha: Hashes, s: System, pid: Pid)
    requires Inv(sha, s) && Enabled(s, Step(pid))
    ensures Inv(sha, Perform(sha, s, Step(pid)))
    ensures Grows(s.shelf, Perform(sha, s, Step(pid)).shelf)
  {
    hide Next, Sound, Mirrors, Grows, TakesEffect;
    StepKeepsWriters(sha, s, pid);
    StepKeepsItems(sha, s, pid);
    EffectIsFirst(sha, s, pid);
    hide WriterOk;
  }

  lemma {:induction false} ActionKeepsInv(sha: Hashes, s: System, action: Action)
    requires Inv(sha, s) && Enabled(s, action)
    ensures Inv(sha, Perform(sha, s, action)) && Grows(s.shelf, Perform(sha, s, action).shelf)
    ensures s.log <= Perform(sha, s, action).log
  {
    var s' := Perform(sha, s, action);
    match action
    case Begin(pid, req) =>
      forall other | other in s'.writers ensures WriterOk(sha, s', other, s'.writers[other]) {
        if other != pid { WriterStable(sha, s, s', other, s.writers[other]); }
      }
    case Step(pid) => StepKeepsInv(sha, s, pid);
    case Die(pid) =>
      forall other | other in s'.writers ensures WriterOk(sha, s', other, s'.writers[other]) {
        WriterStable(sha, s, s', other, s.writers[other]);
      }
  }

  lemma {:induction false} EmptySystem(sha: Hashes)
    ensures Inv(sha, EMPTY)
  {}

  /** Every reachable state, under any interleaving and any deaths: every manifest describes a
      stored body, and the shelf holds exactly what the logged writes put into the reference store,
      each writer having been logged at most once. */
  lemma {:induction false} RunsAreSound(sha: Hashes, states: seq<System>, actions: seq<Action>, i: nat)
    requires Run(sha, states, actions) && i < |states|
    ensures Inv(sha, states[i])
  {
    hide Inv, Perform, Enabled;
    EmptySystem(sha);
    if i > 0 {
      assert actions[i - 1] == actions[i - 1];
      RunsAreSound(sha, states, actions, i - 1);
      ActionKeepsInv(sha, states[i - 1], actions[i - 1]);
    }
  }

  /** What is published stays, and the order of effects is only ever extended. */
  lemma {:induction false} PublishedForGood(sha: Hashes, states: seq<System>, actions: seq<Action>, i: nat, j: nat)
    requires Run(sha, states, actions) && i <= j < |states|
    ensures Grows(states[i].shelf, states[j].shelf) && states[i].log <= states[j].log
    decreases j - i
  {
    hide Inv, Perform, Enabled;
    if i < j {
      assert actions[j - 1] == actions[j - 1];
      PublishedForGood(sha, states, actions, i, j - 1);
      RunsAreSound(sha, states, actions, j - 1);
      ActionKeepsInv(sha, states[j - 1], actions[j - 1]);
    }
  }

  /** Linearizability: the answer of a finished writer is the answer of the reference at the place
      of the write in the log, and that place lies between its start and its end, because it was
      not in the log when it started.  Otherwise two contents with one digest are on the shelf. */
  lemma {:induction false} AnswersLinearize(
      sha: Hashes, states: seq<System>, actions: seq<Action>, begun: nat, done: nat, pid: Pid, req: Request)
    requires Run(sha, states, actions) && begun < done < |states|
    requires actions[begun] == Begin(pid, req)
    requires pid in states[done].writers && states[done].writers[pid].pc.Finished?
    ensures var w := states[done].writers[pid];
            || (&& w.slot.Some? && |states[begun].log| <= w.slot.value < |states[done].log|
                && states[done].log[w.slot.value].pid == pid
                && w.pc.answer == Replied(sha, states[done].log, w.slot.value))
            || (w.slot.None? && w.pc.answer == Err(Conflict) && KeyTaken(sha, states[done].shelf, w.req))
            || (w.pc.answer == Err(BodyIntegrityFailure) && BodyTaken(sha, states[done].shelf, w.req))
  {
    RunsAreSound(sha, states, actions, begun);
    RunsAreSound(sha, states, actions, done);
    PublishedForGood(sha, states, actions, begun, done);
    var w := states[done].writers[pid];
    assert WriterOk(sha, states[done], pid, w);
    assert Enabled(states[begun], actions[begun]);
    forall k | 0 <= k < |states[begun].log| ensures states[done].log[k].pid != pid {
      assert states[begun].log[k] == states[done].log[k];
    }
  }

  // ----- reads -----

  /** A read of manifest and body, the body possibly from a later shelf. */
  function ReadAcross(sha: Hashes, first: Shelf, later: Shelf, storageKey: string): Result<Option<Record>, Error> {
    var key := sha.ident(storageKey);
    if key !in first.manifests then Ok(None)
    else
      var artifact := first.manifests[key];
      if sha.ident(artifact.storageKey) != key then Err(KeyMismatch)
      else
        match CheckStoredBody(sha, later, artifact)
        case Some(error) => Err(error)
        case None => Ok(Some(Record(artifact, later.bodies[artifact.digest])))
  }

  /** The reference read. */
  function MemGet(items: Items, storageKey: string): Option<Record> {
    if storageKey in items then Some(items[storageKey]) else None
  }

  /** The item of whichever key has the file name of the one asked for. */
  ghost function Lookup(sha: Hashes, items: Items, storageKey: string): Option<Record> {
    if holder :| holder in items && sha.ident(holder) == sha.ident(storageKey) then Some(items[holder]) else None
  }

  /** No other stored key has the file name of this one. */
  ghost predicate NameIsOwn(sha: Hashes, items: Items, storageKey: string) {
    forall other :: other in items && sha.ident(other) == sha.ident(storageKey) ==> other == storageKey
  }

  /** On a sound shelf a read never fails, however the shelf grows between its two parts: it finds the
      item whose key has the file name, and that is the reference's answer exactly when no other
      stored key has it. */
  lemma {:induction false} ReadsMirror(sha: Hashes, first: Shelf, later: Shelf, items: Items, storageKey: string)
    requires Sound(sha, first) && Mirrors(sha, first, items) && Grows(first, later)
    ensures ReadAcross(sha, first, later, storageKey) == Ok(Lookup(sha, items, storageKey))
    ensures ReadAcross(sha, first, later, storageKey) == Ok(MemGet(items, storageKey))
            <==> NameIsOwn(sha, items, storageKey)
    ensures storageKey in items ==> NameIsOwn(sha, items, storageKey)
  {
    var key := sha.ident(storageKey);
    if key in first.manifests {
      var holder := first.manifests[key].storageKey;
      assert holder in items && sha.ident(holder) == key;
    }
  }

  /** Of two keys with one digest, the one that was never written reads as the other. */
  lemma OtherKeysItem(sha: Hashes, req: Request, asked: string)
    requires asked != req.storageKey && sha.ident(asked) == sha.ident(req.storageKey)
    ensures var (shelf, answer) := Drive(sha, EMPTY.shelf, req, Looking);
            && answer == Ok(Describe(sha, req))
            && ReadAcross(sha, shelf, shelf, asked) == Ok(Some(Record(Describe(sha, req), req.body)))
            && asked !in MemPut(sha, map[], req).0
  {}

  // ----- the store object, one writer at a time -----

  /** Each step moves on. */
  function Rank(pc: Pc): nat {
    match pc
    case Looking => 7
    case StoringBody => 6
    case CheckingBody => 5
    case Linking => 4
    case Rereading => 3
    case Comparing(_) => 2
    case Confirming(_) => 1
    case Finished(_) => 0
  }

  function Drive(sha: Hashes, shelf: Shelf, req: Request, pc: Pc): (Shelf, Answer)
    decreases Rank(pc)
  {
    if pc.Finished? then (shelf, pc.answer)
    else var (next, then_) := Next(sha, shelf, req, pc); Drive(sha, next, req, then_)
  }

  class FilesystemArtifactStore {
    const sha: Hashes
    var bodies: map<Digest, Bytes>
    var manifests: map<Digest, StoredArtifact>

    constructor (sha: Hashes, shelf: Shelf)
      ensures this.sha == sha && Shelf(bodies, manifests) == shelf
    {
      this.sha := sha;
      bodies, manifests := shelf.bodies, shelf.manifests;
    }

    method LinkBody(digest: Digest, body: Bytes) returns (created: bool)
      modifies this`bodies
      ensures created <==> digest !in old(bodies)
      ensures bodies == if created then old(bodies)[digest := body] else old(bodies)
    {
      created := digest !in bodies;
      if created { bodies := bodies[digest := body]; }
    }

    method LinkManifest(key: Digest, artifact: StoredArtifact) returns (created: bool)
      modifies this`manifests
      ensures created <==> key !in old(manifests)
      ensures manifests == if created then old(manifests)[key := artifact] else old(manifests)
    {
      created := key !in manifests;
      if created { manifests := manifests[key := artifact]; }
    }

    ghost function Value(): Shelf
      reads this
    {
      Shelf(bodies, manifests)
    }

    /** Manifest and body under the file name of a key: on a sound shelf never an error, and the
        reference's answer unless another key has the name. */
    method LoadExisting(storageKey: string) returns (found: Result<Option<Record>, Error>)
      ensures found == ReadAcross(sha, Value(), Value(), storageKey)
      ensures forall items :: Sound(sha, Value()) && Mirrors(sha, Value(), items) ==>
                && found == Ok(Lookup(sha, items, storageKey))
                && (found == Ok(MemGet(items, storageKey)) <==> NameIsOwn(sha, items, storageKey))
    {
      forall items | Sound(sha, Value()) && Mirrors(sha, Value(), items)
        ensures ReadAcross(sha, Value(), Value(), storageKey) == Ok(Lookup(sha, items, storageKey))
        ensures ReadAcross(sha, Value(), Value(), storageKey) == Ok(MemGet(items, storageKey))
                <==> NameIsOwn(sha, items, storageKey)
      {
        ReadsMirror(sha, Value(), Value(), items, storageKey);
      }
      var key := sha.ident(storageKey);
      if key !in manifests {
        return Ok(None);
      }
      var artifact := manifests[key];
      if sha.ident(artifact.storageKey) != key {
        return Err(KeyMismatch);
      }
      var refusal := CheckStoredBody(sha, Shelf(bodies, manifests), artifact);
      if refusal.Some? {
        return Err(refusal.value);
      }
      return Ok(Some(Record(artifact, bodies[artifact.digest])));
    }

    /** Reading by key. */
    method Get(storageKey: string) returns (found: Result<Option<Record>, Error>)
      ensures found == ReadAcross(sha, Value(), Value(), storageKey)
      ensures forall items :: Sound(sha, Value()) && Mirrors(sha, Value(), items) ==>
                && found == Ok(Lookup(sha, items, storageKey))
                && (found == Ok(MemGet(items, storageKey)) <==> NameIsOwn(sha, items, storageKey))
    {
      found := LoadExisting(storageKey);
    }

    /** Undisturbed, a put is the machine driven to its end. */
    method Put(req: Request) returns (answer: Answer)
      modifies this
      ensures (Shelf(bodies, manifests), answer) == Drive(sha, Shelf(old(bodies), old(manifests)), req, Looking)
    {
      var artifact := Describe(sha, req);
      var existing := LoadExisting(req.storageKey);
      if existing.Err? {
        return Err(existing.error);
      }
      if existing.value.Some? {
        var record := existing.value.value;
        if !SameArtifact(record.artifact, artifact) {
          return Err(Conflict);
        }
        return if record.body != req.body then Err(BodyIntegrityFailure) else Ok(record.artifact);
      }
      var stored := LinkBody(artifact.digest, req.body);
      if !stored && bodies[artifact.digest] != req.body {
        return Err(BodyIntegrityFailure);
      }
      var linked := LinkManifest(sha.ident(req.storageKey), artifact);
      if !linked {
        assert false;
      }
      return Ok(artifact);
    }
  }

  /** When the store cannot answer as the reference: another key has the manifest's file name, or the
      key is free and another body has the body's, or the key holds this artifact with another body. */
  ghost predicate Diverges(sha: Hashes, shelf: Shelf, req: Request) {
    var key := sha.ident(req.storageKey);
    if key !in shelf.manifests then BodyTaken(sha, shelf, req)
    else KeyTaken(sha, shelf, req)
         || (SameArtifact(shelf.manifests[key], Describe(sha, req)) && BodyTaken(sha, shelf, req))
  }

  /** Undisturbed on a sound shelf, the store answers as the reference if and only if it does not
      diverge; where it does, it answers a conflict or a body failure, and leaves the shelf's manifests
      alone. */
  lemma {:induction false} SoloPutAgrees(sha: Hashes, shelf: Shelf, items: Items, req: Request)
    requires Sound(sha, shelf) && Mirrors(sha, shelf, items)
    ensures var (after, answer) := Drive(sha, shelf, req, Looking);
            var (expected, reply) := MemPut(sha, items, req);
            && (answer == reply <==> !Diverges(sha, shelf, req))
            && (answer == reply ==> Mirrors(sha, after, expected))
            && (answer != reply ==>
                  && Mirrors(sha, after, items)
                  && answer == Err(if KeyTaken(sha, shelf, req) then Conflict else BodyIntegrityFailure))
  {}

  /** A put that is accepted alone is read back as the request said it. */
  lemma {:induction false} SoloPutCarries(sha: Hashes, shelf: Shelf, items: Items, req: Request)
    requires Sound(sha, shelf) && Mirrors(sha, shelf, items) && Drive(sha, shelf, req, Looking).1.Ok?
    ensures var (after, answer) := Drive(sha, shelf, req, Looking);
            && Carries(sha, Record(answer.value, req.body), req)
            && sha.ident(req.storageKey) in after.manifests
            && after.manifests[sha.ident(req.storageKey)] == answer.value
            && sha.body(req.body) in after.bodies && after.bodies[sha.body(req.body)] == req.body
  {
    SoloPutAgrees(sha, shelf, items, req);
    hide Drive, MemPut, Carries, Diverges;
    PutStores(sha, items, req);
  }

  /** Records stay through every longer log. */
  lemma {:induction false} ReplayKeeps(sha: Hashes, log: seq<Effect>, longer: seq<Effect>, key: string)
    requires log <= longer && key in Replay(sha, log)
    ensures key in Replay(sha, longer) && Replay(sha, longer)[key] == Replay(sha, log)[key]
    decreases |longer|
  {
    if log != longer {
      assert log <= Front(longer);
      ReplayKeeps(sha, log, Front(longer), key);
      hide SameArtifact;
    }
  }

  /** In every run, what an accepted put answered says what its request said, and every later read of
      the key finds it with the body that was put. */
  lemma {:induction false} AcceptedPutsCarry(
      sha: Hashes, states: seq<System>, actions: seq<Action>, i: nat, j: nat, k: nat, pid: Pid)
    requires Run(sha, states, actions) && i <= j <= k < |states|
    requires pid in states[i].writers && states[i].writers[pid].pc.Finished? && states[i].writers[pid].pc.answer.Ok?
    ensures var w := states[i].writers[pid];
            var r := Record(w.pc.answer.value, w.req.body);
            && Carries(sha, r, w.req)
            && ReadAcross(sha, states[j].shelf, states[k].shelf, w.req.storageKey) == Ok(Some(r))
  {
    RunsAreSound(sha, states, actions, i);
    RunsAreSound(sha, states, actions, j);
    PublishedForGood(sha, states, actions, i, j);
    PublishedForGood(sha, states, actions, j, k);
    hide Run, ReadAcross, Carries, Lookup, NameIsOwn;
    var w, items := states[i].writers[pid], Replay(sha, states[j].log);
    FinishedStored(sha, states[i], pid);
    ReplayKeeps(sha, states[i].log, states[j].log, w.req.storageKey);
    hide Replay, Mirrors, Sound, Grows, WritersOk;
    ReadsMirror(sha, states[j].shelf, states[k].shelf, items, w.req.storageKey);
  }

  lemma {:induction false} FinishedStored(sha: Hashes, s: System, pid: Pid)
    requires Inv(sha, s) && pid in s.writers && s.writers[pid].pc.Finished? && s.writers[pid].pc.answer.Ok?
    ensures var w := s.writers[pid];
            var r, items := Record(w.pc.answer.value, w.req.body), Replay(sha, s.log);
            Carries(sha, r, w.req) && w.req.storageKey in items && items[w.req.storageKey] == r
  {
    var w := s.writers[pid];
    assert WriterOk(sha, s, pid, w);
    hide Inv, Carries, MemPut, Replay;
    var slot := w.slot.value;
    PutStores(sha, Replay(sha, s.log[..slot]), w.req);
    ReplayOne(sha, s.log, slot);
    ReplayKeeps(sha, s.log[..slot + 1], s.log, w.req.storageKey);
  }

  lemma ReplayOne(sha: Hashes, log: seq<Effect>, slot: nat)
    requires slot < |log|
    ensures Replay(sha, log[..slot + 1]) == MemPut(sha, Replay(sha, log[..slot]), log[slot].req).0
  {
    assert Front(log[..slot + 1]) == log[..slot];
  }
}
