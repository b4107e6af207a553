/** What the two workflows leave in their stores, in the words of the stored documents. */
module StoredForms {
  import opened Prelude
  import opened Metadata
  import C = CheckpointChain
  import A = Artifacts
  import P = PlainWorkflow
  import E = PlainEnding
  import Saga
  import S = SagaWorkflow

  /** A version written as JSON, with these names and this metadata. */
  ghost predicate IsVersion(e: C.Entry, id: string, parent: Option<string>, body: Bytes, metadata: Json) {
    && e.desc.id == id && e.desc.parent == parent && e.body == body
    && e.desc.serializerName == "json" && e.desc.serializerVersion == 1
    && e.desc.contentType == "application/json" && SameTree(e.desc.metadata, metadata)
  }

  /** An artifact written as JSON. */
  ghost predicate IsArtifact(
    r: A.Record, runId: string, key: string, name: string, kind: string, body: Bytes, metadata: Json)
  {
    && r.artifact.runId == runId && r.artifact.storageKey == key
    && r.artifact.name == name && r.artifact.kind == kind && r.body == body
    && r.artifact.contentType == Some("application/json") && HostEq(r.artifact.metadata, metadata)
  }

  // ----- the plain confirmation -----

  function PhaseIs(phase: string): Json {
    Object([Field("schema_version", Int(1)), Field("phase", Str(phase))])
  }

  lemma {:induction false} Saves(sha: C.Sha, chain: C.Chain, req: C.WriteRequest)
    requires C.WellChained(sha, chain) && C.Keyed(chain) && WellKeyed(req.metadata)
    requires req.serializerName == "json" && req.serializerVersion == 1 && req.contentType == "application/json"
    requires C.Submit(sha, chain, req).1.Ok?
    ensures var next := C.Submit(sha, chain, req).0;
            && chain <= next && C.Find(next, req.id).Some?
            && IsVersion(C.Find(next, req.id).value, req.id, req.parent, req.body, req.metadata)
  {
    C.SubmittedCarries(sha, chain, req);
  }

  lemma FlatObject(fields: seq<Field>)
    requires forall i :: 0 <= i < |fields| ==> fields[i].value.Int? || fields[i].value.Str?
    requires forall i, j :: 0 <= i < j < |fields| ==> fields[i].key != fields[j].key
    ensures WellKeyed(Object(fields))
  {}

  lemma PhaseKeyed(phase: string)
    ensures WellKeyed(PhaseIs(phase))
  {
    assert "schema_version"[0] != "phase"[0];
    FlatObject(PhaseIs(phase).fields);
  }

  /** A paused `execute` has stored the waiting version, and nothing else. */
  lemma {:induction false} PausedSays(
      env: P.Env, artifacts: A.Items, chain: C.Chain, subject: string, message: string)
    requires P.Faithful(env.codec) && C.WellChained(env.sha, chain) && C.Keyed(chain)
    requires P.Drive(env, artifacts, chain, P.Executing(subject, message)).2.Paused?
    ensures var (artifacts', chain', _) := P.Drive(env, artifacts, chain, P.Executing(subject, message));
            var found := C.Find(chain', "awaiting-confirmation-v1");
            && artifacts' == artifacts && chain <= chain' && found.Some?
            && IsVersion(found.value, "awaiting-confirmation-v1", None, found.value.body,
                         PhaseIs("awaiting_confirmation"))
            && env.codec.decode(found.value.body)
               == Some(P.Doc(1, map["phase" := P.Text("awaiting_confirmation"), "subject" := P.Text(subject),
                                    "message" := P.Text(message)]))
  {
    PhaseKeyed("awaiting_confirmation");
    var req := P.AwaitingRequest(env.codec, subject, message);
    P.DriveOn(env, artifacts, chain, P.Executing(subject, message));
    hide P.Drive, C.Submit, IsVersion, C.WellChained, C.Keyed;
    Saves(env.sha, chain, req);
  }

  function Word(action: string): string {
    if action == "confirm" then "confirmed" else "cancelled"
  }

  /** The decision document: the texts of the waiting state, the decision in words, and the note, which
      is called a reason when it cancels. */
  function DecisionIs(state: P.Doc, action: string, note: string): P.Doc
    requires "subject" in state.fields && "message" in state.fields
  {
    if action == "confirm" then
      P.Doc(1, map["subject" := state.fields["subject"], "message" := state.fields["message"],
                   "decision" := P.Text("confirmed"), "note" := P.Text(note)])
    else
      P.Doc(1, map["subject" := state.fields["subject"], "message" := state.fields["message"],
                   "decision" := P.Text("cancelled"), "reason" := P.Text(note)])
  }

  function DecisionMetadata(action: string): Json {
    Object([Field("decision", Str(Word(action))), Field("schema_version", Int(1))])
  }

  function DecisionKey(runId: string): string {
    "plain-confirmation/" + runId + "/decision.json"
  }

  /** The artifact of a put that was accepted. */
  lemma Puts(hashes: A.Hashes, items: A.Items, req: A.Request)
    requires A.MemPut(hashes, items, req).1.Ok? && req.contentType == Some("application/json")
    ensures var after := A.MemPut(hashes, items, req).0;
            && req.storageKey in after
            && IsArtifact(after[req.storageKey], req.runId, req.storageKey, req.name, req.kind, req.body, req.metadata)
  {
    A.PutStores(hashes, items, req);
  }

  /** What a resumed call reads. */
  lemma ResumesFrom(env: P.Env, chain: C.Chain, checkpointId: Option<string>, stored: C.Entry)
    requires P.Load(chain, checkpointId) == Ok(Some(stored))
    ensures stored in chain
    ensures checkpointId == None ==> stored == Last(chain)
    ensures checkpointId.Some? ==> stored.desc.id == checkpointId.value
  {}

  lemma {:induction false} DecidingFrom(
      env: P.Env, artifacts: A.Items, chain: C.Chain, checkpointId: Option<string>, action: string, note: string)
      returns (stored: C.Entry)
    requires P.Drive(env, artifacts, chain, P.Resuming(checkpointId, action, note)).2.Decided?
    ensures P.Load(chain, checkpointId) == Ok(Some(stored)) && E.Readable(env, stored.body)
    ensures action == "confirm" || action == "cancel"
    ensures var verdict := if action == "confirm" then P.Confirmed else P.Cancelled;
            P.Drive(env, artifacts, chain, P.Resuming(checkpointId, action, note))
            == P.Drive(env, artifacts, chain,
                       P.Deciding(stored, verdict, E.Decision(env, stored.body, verdict, note)))
  {
    P.DriveOn(env, artifacts, chain, P.Resuming(checkpointId, action, note));
    hide P.Drive, P.Decide, P.Load, E.Readable, E.Decision;
    var loaded := P.Load(chain, checkpointId);
    if loaded.Err? || loaded.value.None? {
      E.DecidesNothing(env, loaded, action, note);
      assert false;
    } else {
      stored := loaded.value.value;
      E.DecidesWhen(env, stored, action, note);
    }
  }

  /** What the two writes of a decision leave. */
  ghost predicate DecisionStored(
    env: P.Env, artifacts: A.Items, chain: C.Chain, stored: C.Entry, action: string, body: Bytes)
  {
    var key, found := DecisionKey(env.runId), C.Find(chain, "final-" + Word(action) + "-v1");
    && key in artifacts
    && IsArtifact(artifacts[key], env.runId, key, "plain Python decision", "decision", body, DecisionMetadata(action))
    && found.Some?
    && IsVersion(found.value, "final-" + Word(action) + "-v1", Some(stored.desc.id), body, PhaseIs(Word(action)))
  }

  lemma {:induction false} StoresDecision(
      env: P.Env, artifacts: A.Items, chain: C.Chain, stored: C.Entry, action: string, body: Bytes)
    requires C.WellChained(env.sha, chain) && C.Keyed(chain) && action in {"confirm", "cancel"}
    requires var verdict := if action == "confirm" then P.Confirmed else P.Cancelled;
             P.Drive(env, artifacts, chain, P.Deciding(stored, verdict, body)).2.Decided?
    ensures var verdict := if action == "confirm" then P.Confirmed else P.Cancelled;
            var (artifacts', chain', pc) := P.Drive(env, artifacts, chain, P.Deciding(stored, verdict, body));
            && pc == P.Decided(verdict) && chain <= chain'
            && DecisionStored(env, artifacts', chain', stored, action, body)
  {
    var verdict := if action == "confirm" then P.Confirmed else P.Cancelled;
    var put, save := P.DecisionRequest(env.runId, verdict, body), P.FinalRequest(stored.desc.id, verdict, body);
    assert put.storageKey == DecisionKey(env.runId) && put.metadata == DecisionMetadata(action);
    FinalNamed(action, stored.desc.id, body);
    hide P.Drive, C.Submit, A.MemPut, IsVersion, IsArtifact, C.WellChained, C.Keyed, P.DecisionKey, DecisionKey;
    P.DriveOn(env, artifacts, chain, P.Deciding(stored, verdict, body));
    var after := A.MemPut(env.hashes, artifacts, put).0;
    P.DriveOn(env, after, chain, P.Finalizing(stored.desc.id, verdict, body));
    Puts(env.hashes, artifacts, put);
    PhaseKeyed(Word(action));
    Saves(env.sha, chain, save);
  }

  lemma FinalNamed(action: string, parent: string, body: Bytes)
    requires action in {"confirm", "cancel"}
    ensures var save := P.FinalRequest(parent, if action == "confirm" then P.Confirmed else P.Cancelled, body);
            && save.id == "final-" + Word(action) + "-v1" && save.parent == Some(parent) && save.body == body
            && save.metadata == PhaseIs(Word(action))
  {
    assert "final-confirmed-v1" == "final-" + "confirmed" + "-v1";
    assert "final-cancelled-v1" == "final-" + "cancelled" + "-v1";
  }

  /** A resumed call that decides stores one body twice, as the decision artifact and as the final version;
      it says the texts of the version it resumed, and `confirm` as "confirmed" with its note, `cancel` as
      "cancelled" with its reason. */
  lemma {:induction false} DecidedSays(
      env: P.Env, artifacts: A.Items, chain: C.Chain, checkpointId: Option<string>, action: string, note: string)
      returns (stored: C.Entry, body: Bytes)
    requires P.Faithful(env.codec) && C.WellChained(env.sha, chain) && C.Keyed(chain)
    requires P.Drive(env, artifacts, chain, P.Resuming(checkpointId, action, note)).2.Decided?
    ensures stored in chain && E.Readable(env, stored.body)
    ensures if checkpointId.Some? then stored.desc.id == checkpointId.value else stored == Last(chain)
    ensures action == "confirm" || action == "cancel"
    ensures var (artifacts', chain', pc) := P.Drive(env, artifacts, chain, P.Resuming(checkpointId, action, note));
            && pc.verdict == (if action == "confirm" then P.Confirmed else P.Cancelled) && chain <= chain'
            && DecisionStored(env, artifacts', chain', stored, action, body)
    ensures env.codec.decode(body) == Some(DecisionIs(E.StateOf(env, stored.body), action, note))
  {
    stored := DecidingFrom(env, artifacts, chain, checkpointId, action, note);
    ResumesFrom(env, chain, checkpointId, stored);
    var verdict := if action == "confirm" then P.Confirmed else P.Cancelled;
    body := E.Decision(env, stored.body, verdict, note);
    assert P.DecisionDoc(E.StateOf(env, stored.body), verdict, note)
        == DecisionIs(E.StateOf(env, stored.body), action, note);
    hide P.Drive, P.Load, E.Readable, C.WellChained, C.Keyed, P.DecisionDoc, DecisionIs, DecisionStored;
    StoresDecision(env, artifacts, chain, stored, action, body);
  }

  lemma {:induction false} SameVerdict(
      env: P.Env, r: A.Record, verdict: P.Verdict, state: P.Doc, made: P.Verdict, note: string)
    requires P.Faithful(env.codec) && P.IsDecision(env, r, verdict)
    requires "subject" in state.fields && "message" in state.fields
    requires r.body == env.codec.encode(P.DecisionDoc(state, made, note))
    ensures made == verdict
  {
    var other: P.Doc, n :| "subject" in other.fields && "message" in other.fields
                           && r.body == env.codec.encode(P.DecisionDoc(other, verdict, n));
    assert P.DecisionDoc(other, verdict, n).fields["decision"] == P.DecisionDoc(state, made, note).fields["decision"];
    assert "confirmed"[1] != "cancelled"[1];
  }

  /** In every run whatever a finished call has decided is what both stores say. */
  lemma {:induction false} RunsSayDecision(
      env: P.Env, worlds: seq<P.World>, actions: seq<P.Action>, i: nat, a: nat) returns (note: string)
    requires P.Faithful(env.codec) && P.Run(env, worlds, actions) && i < |worlds|
    requires a in worlds[i].calls && worlds[i].calls[a].Decided?
    ensures var w, action := worlds[i], if worlds[i].calls[a].verdict.Confirmed? then "confirm" else "cancel";
            && |w.chain| == 2 && E.Readable(env, w.chain[0].body)
            && DecisionKey(env.runId) in w.artifacts
            && w.artifacts[DecisionKey(env.runId)].body == w.chain[1].body
            && w.chain[1].desc.id == "final-" + Word(action) + "-v1"
            && env.codec.decode(w.chain[1].body) == Some(DecisionIs(E.StateOf(env, w.chain[0].body), action, note))
  {
    var w, key := worlds[i], P.DecisionKey(env.runId);
    E.RunKeepsRooted(env, worlds, actions, i);
    hide P.Run, E.Readable;
    assert P.CallOk(env, w, w.calls[a]);
    var verdict := w.calls[a].verdict;
    var action := if verdict.Confirmed? then "confirm" else "cancel";
    FinalNamed(action, "", []);
    var made :| E.Made(env, w.chain, made, w.artifacts[key].body);
    note :| w.artifacts[key].body == E.Decision(env, w.chain[0].body, made, note);
    SameVerdict(env, w.artifacts[key], verdict, E.StateOf(env, w.chain[0].body), made, note);
    assert P.DecisionDoc(E.StateOf(env, w.chain[0].body), verdict, note)
        == DecisionIs(E.StateOf(env, w.chain[0].body), action, note);
  }

  // ----- the saga -----

  function StatusIs(status: string): Json {
    Object([Field("status", Str(status))])
  }

  function PartialIs(rs: seq<Saga.Branch>): Json {
    Object([Field("status", Str("partial_failure")), Field("retryable_count", Int(|Saga.RetryableOps(rs)|)),
            Field("fatal_count", Int(Saga.FatalCount(rs)))])
  }

  lemma PartialKeyed(rs: seq<Saga.Branch>)
    ensures WellKeyed(PartialIs(rs))
  {
    assert "status"[0] != "retryable_count"[0] && "status"[0] != "fatal_count"[0];
    assert "retryable_count"[0] != "fatal_count"[0];
    FlatObject(PartialIs(rs).fields);
  }

  lemma StatusKeyed(status: string)
    ensures WellKeyed(StatusIs(status))
  {
    FlatObject(StatusIs(status).fields);
  }

  /** The call writes a partial version. */
  lemma {:induction false} SavingSays(
      env: S.Env, artifacts: A.Items, chain: C.Chain, parent: Option<string>, state: Saga.State)
    requires S.Faithful(env.codec) && C.WellChained(env.sha, chain) && C.Keyed(chain)
    requires S.Drive(env, artifacts, chain, S.Saving(parent, state)).2.Paused?
    ensures var (artifacts', chain', pc) := S.Drive(env, artifacts, chain, S.Saving(parent, state));
            var id := "partial-" + S.Decimal(Saga.Total(state.results));
            var found := C.Find(chain', id);
            && artifacts' == artifacts && pc == S.Paused(state) && chain <= chain' && found.Some?
            && IsVersion(found.value, id, parent, found.value.body, PartialIs(state.results))
            && env.codec.decode(found.value.body) == Some(S.PartialDoc(state))
  {
    var req := S.PartialRequest(env, parent, state);
    assert req.id == "partial-" + S.Decimal(Saga.Total(state.results)) && req.metadata == PartialIs(state.results);
    S.DriveOn(env, artifacts, chain, S.Saving(parent, state));
    hide S.Drive, C.Submit, C.WellChained, C.Keyed, Saga.RetryableOps, Saga.FatalCount, Saga.Total, PartialIs;
    PartialKeyed(state.results);
    Saves(env.sha, chain, req);
  }

  /** What the two writes of a report leave. */
  ghost predicate ReportStored(
    env: S.Env, artifacts: A.Items, chain: C.Chain, parent: Option<string>, report: Saga.Report)
  {
    var key, id := "saga/" + env.runId + "/reconciliation.json", "final-" + report.status;
    && key in artifacts && C.Find(chain, id).Some?
    && var body := artifacts[key].body;
       && IsArtifact(artifacts[key], env.runId, key, "saga reconciliation", "reconciliation", body,
                     StatusIs(report.status))
       && IsVersion(C.Find(chain, id).value, id, parent, body, StatusIs(report.status))
       && env.codec.decode(body) == Some(S.ReportDoc(report))
  }

  lemma {:induction false} ReportingSays(
      env: S.Env, artifacts: A.Items, chain: C.Chain, parent: Option<string>, report: Saga.Report)
    requires S.Faithful(env.codec) && C.WellChained(env.sha, chain) && C.Keyed(chain)
    requires S.Drive(env, artifacts, chain, S.Reporting(parent, report)).2.Finished?
    ensures var (artifacts', chain', pc) := S.Drive(env, artifacts, chain, S.Reporting(parent, report));
            pc == S.Finished(report) && chain <= chain' && ReportStored(env, artifacts', chain', parent, report)
  {
    var put, save := S.ReportRequest(env, report), S.FinalRequest(env, parent, report);
    assert put.storageKey == "saga/" + env.runId + "/reconciliation.json" && put.metadata == StatusIs(report.status);
    assert save.id == "final-" + report.status && save.metadata == StatusIs(report.status);
    hide S.Drive, C.Submit, A.MemPut, C.WellChained, C.Keyed, S.ReportKey, S.FinalId, StatusIs;
    S.DriveOn(env, artifacts, chain, S.Reporting(parent, report));
    var after := A.MemPut(env.hashes, artifacts, put).0;
    S.DriveOn(env, after, chain, S.Finalizing(parent, report));
    Puts(env.hashes, artifacts, put);
    StatusKeyed(report.status);
    Saves(env.sha, chain, save);
  }

  /** The state that a resumed call starts from. */
  ghost predicate ResumesState(env: S.Env, chain: C.Chain, state: Saga.State) {
    chain != [] && env.codec.decode(Last(chain).body) == Some(S.PartialDoc(state))
  }

  /** What a call works out before it writes: the input's results, or for "retry_failed" and "compensate"
      what the retry or the compensation makes of the head's state. */
  ghost predicate WorksOut(env: S.Env, chain: C.Chain, pc: S.Pc, parent: Option<string>, plan: Saga.Plan) {
    match pc
    case Executing => parent == None && plan == S.Start(env)
    case Resuming(action) =>
      && chain != [] && parent == Some(Last(chain).desc.id)
      && exists state ::
           && ResumesState(env, chain, state)
           && ((action == "retry_failed" && plan == Saga.Retry(state))
               || (action == "compensate" && plan == Saga.Compensate(state)))
    case _ => false
  }

  /** How a call ends: with its plan carried out in the stores, or with a failure or a refusal. */
  lemma {:induction false} SagaCallSays(env: S.Env, artifacts: A.Items, chain: C.Chain, pc: S.Pc)
      returns (parent: Option<string>, plan: Saga.Plan)
    requires S.Faithful(env.codec) && C.WellChained(env.sha, chain) && C.Keyed(chain)
    requires pc.Executing? || pc.Resuming?
    requires var end := S.Drive(env, artifacts, chain, pc).2; end.Paused? || end.Finished?
    ensures WorksOut(env, chain, pc, parent, plan)
    ensures var (artifacts', chain', end) := S.Drive(env, artifacts, chain, pc);
            && chain <= chain'
            && (end.Paused? ==>
                  var id := "partial-" + S.Decimal(Saga.Total(end.state.results));
                  var found := C.Find(chain', id);
                  && plan == Saga.SavePartial(end.state) && artifacts' == artifacts && found.Some?
                  && IsVersion(found.value, id, parent, found.value.body, PartialIs(end.state.results))
                  && env.codec.decode(found.value.body) == Some(S.PartialDoc(end.state)))
            && (end.Finished? ==>
                  plan == Saga.Finish(end.report) && ReportStored(env, artifacts', chain', parent, end.report))
  {
    S.DriveOn(env, artifacts, chain, pc);
    var next;
    next, parent, plan := FirstStep(env, artifacts, chain, pc);
    hide S.Drive, C.WellChained, C.Keyed, WorksOut, ReportStored, IsVersion, PartialIs, S.Decimal, Saga.Total;
    if next.Saving? {
      SavingEnds(env, artifacts, chain, next);
      SavingSays(env, artifacts, chain, next.parent, next.state);
    } else {
      ReportingEnds(env, artifacts, chain, next);
      ReportingSays(env, artifacts, chain, next.parent, next.report);
    }
  }

  lemma {:induction false} FirstStep(env: S.Env, artifacts: A.Items, chain: C.Chain, pc: S.Pc)
      returns (next: S.Pc, parent: Option<string>, plan: Saga.Plan)
    requires pc.Executing? || pc.Resuming?
    requires var end := S.Drive(env, artifacts, chain, pc).2; end.Paused? || end.Finished?
    ensures S.Drive(env, artifacts, chain, pc) == S.Drive(env, artifacts, chain, next)
    ensures WorksOut(env, chain, pc, parent, plan)
    ensures match plan
            case SavePartial(state) => next == S.Saving(parent, state)
            case Finish(report) => next == S.Reporting(parent, report)
            case Reject(_) => false
  {
    S.DriveOn(env, artifacts, chain, pc);
    hide S.Drive, S.Start, Saga.Retry, Saga.Compensate;
    next := S.Advance(env, S.World(artifacts, chain, map[]), pc).2;
    if pc.Executing? {
      parent, plan := None, S.Start(env);
    } else {
      parent := Some(Last(chain).desc.id);
      var state := env.codec.decode(Last(chain).body).value.state;
      assert ResumesState(env, chain, state);
      plan := if pc.action == "retry_failed" then Saga.Retry(state) else Saga.Compensate(state);
    }
  }

  lemma SavingEnds(env: S.Env, artifacts: A.Items, chain: C.Chain, pc: S.Pc)
    requires pc.Saving?
    ensures !S.Drive(env, artifacts, chain, pc).2.Finished?
  {
    S.DriveOn(env, artifacts, chain, pc);
  }

  lemma ReportingEnds(env: S.Env, artifacts: A.Items, chain: C.Chain, pc: S.Pc)
    requires pc.Reporting?
    ensures !S.Drive(env, artifacts, chain, pc).2.Paused?
  {
    S.DriveOn(env, artifacts, chain, pc);
  }
}
