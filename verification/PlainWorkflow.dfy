/** The plain confirmation workflow on its two stores.

    One run: any number of `execute` and `resume` calls interleave, store call by store call, and
    any of them may die in between.  The stores are their references: the artifact store is
    write-once, the checkpoint store is parent-checked. */
module PlainWorkflow {
  import opened Prelude
  import Metadata
  import C = CheckpointChain
  import A = Artifacts
  import M = MemoryCheckpoint

  const AWAITING := "awaiting-confirmation-v1"

  datatype Verdict = Confirmed | Cancelled

  function FinalId(v: Verdict): string {
    match v
    case Confirmed => "final-confirmed-v1"
    case Cancelled => "final-cancelled-v1"
  }

  /** A decoded state body: the schema version (0 when missing) and the other fields. */
  datatype Doc = Doc(version: int, fields: map<string, Val>)

  datatype Val = Text(s: string) | Other

  /** JSON encoding and decoding of state bodies, as unknown functions. */
  datatype Codec = Codec(encode: Doc -> Bytes, decode: Bytes -> Option<Doc>)

  ghost predicate Faithful(codec: Codec) {
    forall doc :: codec.decode(codec.encode(doc)) == Some(doc)
  }

  datatype Failure =
    | Unavailable | Incompatible | NotResumable | BadAction | MissingField
    | ArtifactRefused(artifactError: A.Error) | CheckpointRefused(checkpointError: C.Error)

  // ----- pure parts -----

  function Get(doc: Doc, key: string, fallback: Option<Val>): Option<Val> {
    if key in doc.fields then Some(doc.fields[key]) else fallback
  }

  /** Version 1 is taken as it is; version 0 is renamed and checked; nothing else is accepted. */
  function MigrateState(doc: Doc): Result<Doc, Failure> {
    if doc.version == 1 then Ok(doc)
    else if doc.version == 0 then
      var subject := Get(doc, "title", Get(doc, "subject", None));
      var message := Get(doc, "body", Get(doc, "message", None));
      var phase := Get(doc, "phase", Some(Text("awaiting_confirmation")));
      if subject.Some? && subject.value.Text? && message.Some? && message.value.Text?
         && phase == Some(Text("awaiting_confirmation")) then
        Ok(Doc(1, map["phase" := Text("awaiting_confirmation"), "subject" := subject.value,
                      "message" := message.value]))
      else Err(Incompatible)
    else Err(Incompatible)
  }

  function AwaitingDoc(subject: string, message: string): Doc {
    Doc(1, map["phase" := Text("awaiting_confirmation"), "subject" := Text(subject), "message" := Text(message)])
  }

  /** The text a legacy state has under its old name, or else under its new one. */
  ghost predicate LegacyText(doc: Doc, former: string, current: string, text: string) {
    Text(text) == if former in doc.fields then doc.fields[former]
                  else if current in doc.fields then doc.fields[current] else Other
  }

  /** A legacy state migrates to exactly what `execute` writes now for its title and body, a current one
      stays as it is, and migrating again changes nothing. */
  lemma MigrationSettles(doc: Doc)
    requires MigrateState(doc).Ok?
    ensures var state := MigrateState(doc).value;
            && MigrateState(state) == Ok(state)
            && (doc.version == 1 ==> state == doc)
            && (doc.version != 1 ==>
                  exists subject, message ::
                    && LegacyText(doc, "title", "subject", subject) && LegacyText(doc, "body", "message", message)
                    && state == AwaitingDoc(subject, message))
  {
    if doc.version == 0 {
      var subject := Get(doc, "title", Get(doc, "subject", None)).value;
      var message := Get(doc, "body", Get(doc, "message", None)).value;
      assert LegacyText(doc, "title", "subject", subject.s) && LegacyText(doc, "body", "message", message.s);
      assert MigrateState(doc).value == AwaitingDoc(subject.s, message.s);
    }
  }

  /** Which states migrate: the current ones, and the legacy ones that have both texts and, if they have
      a phase, wait for confirmation. */
  lemma MigratesIff(doc: Doc)
    ensures MigrateState(doc).Ok? <==>
              || doc.version == 1
              || (&& doc.version == 0
                  && (exists subject :: LegacyText(doc, "title", "subject", subject))
                  && (exists message :: LegacyText(doc, "body", "message", message))
                  && ("phase" in doc.fields ==> doc.fields["phase"] == Text("awaiting_confirmation")))
    ensures MigrateState(doc).Err? ==> MigrateState(doc).error == Incompatible
  {
    if MigrateState(doc).Ok? { MigrationSettles(doc); }
    if subject :| LegacyText(doc, "title", "subject", subject) {
      assert Get(doc, "title", Get(doc, "subject", None)) == Some(Text(subject));
    }
    if message :| LegacyText(doc, "body", "message", message) {
      assert Get(doc, "body", Get(doc, "message", None)) == Some(Text(message));
    }
  }

  function DecisionDoc(state: Doc, v: Verdict, note: string): Doc
    requires "subject" in state.fields && "message" in state.fields
  {
    Doc(1, map["subject" := state.fields["subject"], "message" := state.fields["message"],
               "decision" := Text(if v.Confirmed? then "confirmed" else "cancelled"),
               (if v.Confirmed? then "note" else "reason") := Text(note)])
  }

  function PhaseMetadata(phase: string): Metadata.Json {
    Metadata.Object([Metadata.Field("schema_version", Metadata.Int(1)), Metadata.Field("phase", Metadata.Str(phase))])
  }

  function AwaitingRequest(codec: Codec, subject: string, message: string): C.WriteRequest {
    C.WriteRequest(AWAITING, None, codec.encode(AwaitingDoc(subject, message)), "json", 1, "application/json",
                   PhaseMetadata("awaiting_confirmation"))
  }

  function FinalRequest(parent: string, v: Verdict, body: Bytes): C.WriteRequest {
    C.WriteRequest(FinalId(v), Some(parent), body, "json", 1, "application/json",
                   PhaseMetadata(if v.Confirmed? then "confirmed" else "cancelled"))
  }

  function DecisionKey(runId: string): string {
    "plain-confirmation/" + runId + "/decision.json"
  }

  function DecisionRequest(runId: string, v: Verdict, body: Bytes): A.Request {
    var decision := if v.Confirmed? then "confirmed" else "cancelled";
    A.Request(runId, DecisionKey(runId), body, "plain Python decision", "decision", Some("application/json"),
              Metadata.Object([Metadata.Field("decision", Metadata.Str(decision)),
                               Metadata.Field("schema_version", Metadata.Int(1))]))
  }

  // ----- calls, store access by store access -----

  datatype Call =
    | Execute(subject: string, message: string)
    | Resume(checkpointId: Option<string>, action: string, note: string)

  datatype Pc =
    | Executing(subject: string, message: string)
    | Resuming(checkpointId: Option<string>, action: string, note: string)
    | Deciding(stored: C.Entry, verdict: Verdict, body: Bytes)
    | Finalizing(parent: string, verdict: Verdict, body: Bytes)
    | Paused
    | Decided(verdict: Verdict)
    | Failed(failure: Failure)

  /** The stores of one run and the calls under way. */
  datatype World = World(artifacts: A.Items, chain: C.Chain, calls: map<nat, Pc>)

  datatype Env = Env(runId: string, codec: Codec, sha: C.Sha, hashes: A.Hashes)

  predicate Running(pc: Pc) {
    pc.Executing? || pc.Resuming? || pc.Deciding? || pc.Finalizing?
  }

  function Load(chain: C.Chain, checkpointId: Option<string>): Result<Option<C.Entry>, C.Error> {
    match checkpointId
    case Some(id) => M.MemoryLoad(chain, id)
    case None => Ok(C.ChainLatest(chain))
  }

  /** Everything between reading the checkpoint and the first write. */
  function Decide(env: Env, loaded: Result<Option<C.Entry>, C.Error>, action: string, note: string): Pc {
    if loaded.Err? then Failed(CheckpointRefused(loaded.error))
    else if loaded.value.None? then Failed(Unavailable)
    else
      var stored := loaded.value.value;
      match env.codec.decode(stored.body)
      case None => Failed(Incompatible)
      case Some(raw) =>
        match MigrateState(raw)
        case Err(e) => Failed(e)
        case Ok(state) =>
          if Get(state, "phase", None) != Some(Text("awaiting_confirmation")) then Failed(NotResumable)
          else if action != "confirm" && action != "cancel" then Failed(BadAction)
          else if "subject" !in state.fields || "message" !in state.fields then Failed(MissingField)
          else
            var verdict := if action == "confirm" then Confirmed else Cancelled;
            Deciding(stored, verdict, env.codec.encode(DecisionDoc(state, verdict, note)))
  }

  /** One store access of one call. */
  function Advance(env: Env, w: World, pc: Pc): (A.Items, C.Chain, Pc)
    requires Running(pc)
  {
    match pc
    case Executing(subject, message) =>
      var (chain, answer) := C.Submit(env.sha, w.chain, AwaitingRequest(env.codec, subject, message));
      (w.artifacts, chain, if answer.Ok? then Paused else Failed(CheckpointRefused(answer.error)))
    case Resuming(checkpointId, action, note) =>
      (w.artifacts, w.chain, Decide(env, Load(w.chain, checkpointId), action, note))
    case Deciding(stored, verdict, body) =>
      var (artifacts, answer) := A.MemPut(env.hashes, w.artifacts, DecisionRequest(env.runId, verdict, body));
      (artifacts, w.chain,
       if answer.Ok? then Finalizing(stored.desc.id, verdict, body) else Failed(ArtifactRefused(answer.error)))
    case Finalizing(parent, verdict, body) =>
      var (chain, answer) := C.Submit(env.sha, w.chain, FinalRequest(parent, verdict, body));
      (w.artifacts, chain, if answer.Ok? then Decided(verdict) else Failed(CheckpointRefused(answer.error)))
  }

  datatype Action = Begin(id: nat, call: Call) | Step(id: nat) | Die(id: nat)

  ghost predicate Enabled(w: World, action: Action) {
    match action
    case Begin(id, _) => id !in w.calls
    case Step(id) => id in w.calls && Running(w.calls[id])
    case Die(id) => id in w.calls
  }

  function StartOf(call: Call): Pc {
    match call
    case Execute(subject, message) => Executing(subject, message)
    case Resume(checkpointId, action, note) => Resuming(checkpointId, action, note)
  }

  ghost function Perform(env: Env, w: World, action: Action): World
    requires Enabled(w, action)
  {
    match action
    case Begin(id, call) => w.(calls := w.calls[id := StartOf(call)])
    case Step(id) =>
      var (artifacts, chain, pc) := Advance(env, w, w.calls[id]);
      World(artifacts, chain, w.calls[id := pc])
    case Die(id) => w.(calls := w.calls - {id})
  }

  // ----- the invariant -----

  /** The one decision of the run, once it is stored. */
  ghost predicate IsDecision(env: Env, r: A.Record, verdict: Verdict) {
    && r == A.Record(A.Describe(env.hashes, DecisionRequest(env.runId, verdict, r.body)), r.body)
    && exists state: Doc, note ::
         && "subject" in state.fields && "message" in state.fields
         && r.body == env.codec.encode(DecisionDoc(state, verdict, note))
  }

  /** Empty, waiting, or waiting and decided as the stored decision says. */
  ghost predicate StreamShape(env: Env, w: World) {
    var key := DecisionKey(env.runId);
    && |w.chain| <= 2
    && (w.chain != [] ==> w.chain[0].desc.id == AWAITING)
    && (|w.chain| == 2 ==>
          && key in w.artifacts
          && exists verdict :: w.chain[1].desc.id == FinalId(verdict) && IsDecision(env, w.artifacts[key], verdict)
                               && w.chain[1].body == w.artifacts[key].body)
  }

  ghost predicate CallOk(env: Env, w: World, pc: Pc) {
    var key := DecisionKey(env.runId);
    match pc
    case Deciding(stored, verdict, body) =>
      && w.chain != [] && stored.desc.id == AWAITING
      && IsDecision(env, A.Record(A.Describe(env.hashes, DecisionRequest(env.runId, verdict, body)), body), verdict)
    case Finalizing(parent, verdict, body) =>
      && w.chain != [] && parent == AWAITING
      && key in w.artifacts && w.artifacts[key].body == body && IsDecision(env, w.artifacts[key], verdict)
    case Decided(verdict) =>
      && |w.chain| == 2 && w.chain[1].desc.id == FinalId(verdict)
      && key in w.artifacts && IsDecision(env, w.artifacts[key], verdict)
    case _ => true
  }

  ghost predicate Inv(env: Env, w: World) {
    var key := DecisionKey(env.runId);
    && C.WellChained(env.sha, w.chain)
    && StreamShape(env, w)
    && (forall k :: k in w.artifacts ==> k == key)
    && (key in w.artifacts ==> exists verdict :: IsDecision(env, w.artifacts[key], verdict))
    && (forall id :: id in w.calls ==> CallOk(env, w, w.calls[id]))
  }

  /** The verdict can be read off a decision body. */
  lemma VerdictReadable(env: Env, r: A.Record, r': A.Record, v: Verdict, v': Verdict)
    requires Faithful(env.codec) && IsDecision(env, r, v) && IsDecision(env, r', v') && r.body == r'.body
    ensures v == v'
  {
    var state: Doc, note :| "subject" in state.fields && "message" in state.fields
                            && r.body == env.codec.encode(DecisionDoc(state, v, note));
    var state': Doc, note' :| "subject" in state'.fields && "message" in state'.fields
                              && r'.body == env.codec.encode(DecisionDoc(state', v', note'));
    var doc, doc' := DecisionDoc(state, v, note), DecisionDoc(state', v', note');
    assert doc == doc';
    assert doc.fields["decision"] == doc'.fields["decision"];
    assert "confirmed"[1] != "cancelled"[1];
  }

  lemma DistinctIds()
    ensures FinalId(Confirmed) != FinalId(Cancelled)
    ensures FinalId(Confirmed) != AWAITING && FinalId(Cancelled) != AWAITING
  {
    assert "final-confirmed-v1"[7] != "final-cancelled-v1"[7];
    assert AWAITING[0] != "final-confirmed-v1"[0] && AWAITING[0] != "final-cancelled-v1"[0];
  }

  /** A decision body is not a state to resume from. */
  lemma DecisionsDoNotResume(env: Env, stored: C.Entry, r: A.Record, verdict: Verdict, action: string, note: string)
    requires Faithful(env.codec) && IsDecision(env, r, verdict) && stored.body == r.body
    ensures Decide(env, Ok(Some(stored)), action, note).Failed?
  {
    var state: Doc, n :| "subject" in state.fields && "message" in state.fields
                         && r.body == env.codec.encode(DecisionDoc(state, verdict, n));
    var doc := DecisionDoc(state, verdict, n);
    assert env.codec.decode(stored.body) == Some(doc);
    assert "phase" !in doc.fields;
  }

  // ----- steps -----

  /** Stores only grow: the stored decision stays, the stream is extended. */
  ghost predicate Extends(w: World, w': World) {
    && (forall k :: k in w.artifacts ==> k in w'.artifacts && w'.artifacts[k] == w.artifacts[k])
    && w.chain <= w'.chain
  }

  lemma {:induction false} CallStable(env: Env, w: World, w': World, pc: Pc)
    requires CallOk(env, w, pc) && Extends(w, w') && |w'.chain| <= 2
    ensures CallOk(env, w', pc)
  {}

  lemma {:induction false} ExecuteKeeps(env: Env, w: World, id: nat)
    requires Inv(env, w) && Enabled(w, Step(id)) && w.calls[id].Executing?
    ensures Inv(env, Perform(env, w, Step(id))) && Extends(w, Perform(env, w, Step(id)))
  {
    var w', pc := Perform(env, w, Step(id)), w.calls[id];
    var req := AwaitingRequest(env.codec, pc.subject, pc.message);
    C.SaveKeepsHistory(env.sha, w.chain, req);
    assert StreamShape(env, w');
    forall other | other in w'.calls ensures CallOk(env, w', w'.calls[other]) {
      if other != id { CallStable(env, w, w', w.calls[other]); }
    }
  }

  /** A call only decides on the waiting checkpoint. */
  lemma {:induction false} DecidesOnAwaiting(env: Env, w: World, checkpointId: Option<string>, action: string,
                                             note: string)
    requires Faithful(env.codec) && Inv(env, w)
    requires Decide(env, Load(w.chain, checkpointId), action, note).Deciding?
    ensures CallOk(env, w, Decide(env, Load(w.chain, checkpointId), action, note))
  {
    var stored := Load(w.chain, checkpointId).value.value;
    var key := DecisionKey(env.runId);
    assert stored in w.chain;
    if stored.desc.id != AWAITING {
      assert |w.chain| == 2 && stored == w.chain[1];
      var verdict :| w.chain[1].desc.id == FinalId(verdict) && IsDecision(env, w.artifacts[key], verdict)
                     && w.chain[1].body == w.artifacts[key].body;
      DecisionsDoNotResume(env, stored, w.artifacts[key], verdict, action, note);
    } else {
      var pc := Decide(env, Ok(Some(stored)), action, note);
      var raw := env.codec.decode(stored.body).value;
      var state := MigrateState(raw).value;
      assert pc.body == env.codec.encode(DecisionDoc(state, pc.verdict, note));
    }
  }

  lemma {:induction false} ResumeKeeps(env: Env, w: World, id: nat)
    requires Faithful(env.codec) && Inv(env, w) && Enabled(w, Step(id)) && w.calls[id].Resuming?
    ensures Inv(env, Perform(env, w, Step(id))) && Extends(w, Perform(env, w, Step(id)))
  {
    var w', pc := Perform(env, w, Step(id)), w.calls[id];
    forall other | other in w'.calls ensures CallOk(env, w', w'.calls[other]) {
      if other != id { CallStable(env, w, w', w.calls[other]); }
      else if w'.calls[id].Deciding? { DecidesOnAwaiting(env, w, pc.checkpointId, pc.action, pc.note); }
    }
    assert StreamShape(env, w');
  }

  lemma {:induction false} DecideKeeps(env: Env, w: World, id: nat)
    requires Faithful(env.codec) && Inv(env, w) && Enabled(w, Step(id)) && w.calls[id].Deciding?
    ensures Inv(env, Perform(env, w, Step(id))) && Extends(w, Perform(env, w, Step(id)))
  {
    var w', pc, key := Perform(env, w, Step(id)), w.calls[id], DecisionKey(env.runId);
    var candidate := A.Record(A.Describe(env.hashes, DecisionRequest(env.runId, pc.verdict, pc.body)), pc.body);
    assert CallOk(env, w, pc);
    assert key in w'.artifacts;
    if w'.calls[id].Finalizing? && key in w.artifacts {
      var verdict :| IsDecision(env, w.artifacts[key], verdict);
      VerdictReadable(env, w.artifacts[key], candidate, verdict, pc.verdict);
    }
    assert StreamShape(env, w');
    forall other | other in w'.calls ensures CallOk(env, w', w'.calls[other]) {
      if other != id { CallStable(env, w, w', w.calls[other]); }
    }
  }

  /** What saving the final version does: extend a waiting stream, or confirm a decided one. */
  lemma {:induction false} FinalSave(env: Env, w: World, verdict: Verdict, body: Bytes)
    requires C.WellChained(env.sha, w.chain) && 1 <= |w.chain| <= 2 && w.chain[0].desc.id == AWAITING
    ensures var req := FinalRequest(AWAITING, verdict, body);
            var (chain, answer) := C.Submit(env.sha, w.chain, req);
            && (answer.Ok? ==>
                  && |chain| == 2 && chain[1].desc.id == FinalId(verdict) && chain[1].body == body
                  && w.chain <= chain)
            && (answer.Err? ==> chain == w.chain)
  {
    DistinctIds();
    var req := FinalRequest(AWAITING, verdict, body);
    if C.Find(w.chain, req.id).Some? {
      assert C.Find(w.chain, req.id).value in w.chain;
    }
  }

  lemma {:induction false} FinalizeKeeps(env: Env, w: World, id: nat)
    requires Inv(env, w) && Enabled(w, Step(id)) && w.calls[id].Finalizing?
    ensures Inv(env, Perform(env, w, Step(id))) && Extends(w, Perform(env, w, Step(id)))
  {
    var w', pc, key := Perform(env, w, Step(id)), w.calls[id], DecisionKey(env.runId);
    assert CallOk(env, w, pc);
    C.SaveKeepsHistory(env.sha, w.chain, FinalRequest(pc.parent, pc.verdict, pc.body));
    FinalSave(env, w, pc.verdict, pc.body);
    if w'.calls[id].Decided? {
      assert w'.chain[1].desc.id == FinalId(pc.verdict) && IsDecision(env, w'.artifacts[key], pc.verdict);
    }
    assert StreamShape(env, w');
    forall other | other in w'.calls ensures CallOk(env, w', w'.calls[other]) {
      if other != id { CallStable(env, w, w', w.calls[other]); }
    }
  }

  lemma {:induction false} ActionKeepsInv(env: Env, w: World, action: Action)
    requires Faithful(env.codec) && Inv(env, w) && Enabled(w, action)
    ensures Inv(env, Perform(env, w, action)) && Extends(w, Perform(env, w, action))
  {
    match action
    case Step(id) =>
      match w.calls[id] {
        case Executing(_, _) => ExecuteKeeps(env, w, id);
        case Resuming(_, _, _) => ResumeKeeps(env, w, id);
        case Deciding(_, _, _) => DecideKeeps(env, w, id);
        case Finalizing(_, _, _) => FinalizeKeeps(env, w, id);
        case _ =>
      }
    case _ =>
      var w' := Perform(env, w, action);
      forall other | other in w'.calls ensures CallOk(env, w', w'.calls[other]) {
        if other in w.calls { CallStable(env, w, w', w.calls[other]); }
      }
  }

  // ----- runs -----

  /** A run begins on empty stores, or on a waiting checkpoint an earlier release left. */
  ghost predicate Initial(env: Env, w: World) {
    && w.artifacts == map[] && w.calls == map[]
    && C.WellChained(env.sha, w.chain) && |w.chain| <= 1
    && (w.chain != [] ==> w.chain[0].desc.id == AWAITING)
  }

  ghost predicate Run(env: Env, worlds: seq<World>, actions: seq<Action>) {
    && |worlds| == |actions| + 1
    && Initial(env, worlds[0])
    && forall i {:trigger actions[i]} :: 0 <= i < |actions| ==>
         Enabled(worlds[i], actions[i]) && worlds[i + 1] == Perform(env, worlds[i], actions[i])
  }

  lemma {:induction false} RunKeepsInv(env: Env, worlds: seq<World>, actions: seq<Action>, i: nat)
    requires Faithful(env.codec) && Run(env, worlds, actions) && i < |worlds|
    ensures Inv(env, worlds[i])
  {
    if i > 0 {
      assert actions[i - 1] == actions[i - 1];
      RunKeepsInv(env, worlds, actions, i - 1);
      ActionKeepsInv(env, worlds[i - 1], actions[i - 1]);
    }
  }

  lemma {:induction false} RunExtends(env: Env, worlds: seq<World>, actions: seq<Action>, i: nat, j: nat)
    requires Faithful(env.codec) && Run(env, worlds, actions) && i <= j < |worlds|
    ensures Extends(worlds[i], worlds[j])
    decreases j - i
  {
    if i < j {
      assert actions[j - 1] == actions[j - 1];
      RunExtends(env, worlds, actions, i, j - 1);
      RunKeepsInv(env, worlds, actions, j - 1);
      ActionKeepsInv(env, worlds[j - 1], actions[j - 1]);
    }
  }

  /** Unique decision: whatever interleaves and whatever dies, the stored decision never changes
      once it exists, the stream is empty, waiting, or waiting and decided as stored, and any two
      calls that finish have finished with the same verdict. */
  lemma {:induction false} UniqueDecision(
      env: Env, worlds: seq<World>, actions: seq<Action>, i: nat, j: nat, a: nat, b: nat)
    requires Faithful(env.codec) && Run(env, worlds, actions) && i <= j < |worlds|
    ensures StreamShape(env, worlds[j])
    ensures DecisionKey(env.runId) in worlds[i].artifacts ==>
              DecisionKey(env.runId) in worlds[j].artifacts
              && worlds[j].artifacts[DecisionKey(env.runId)] == worlds[i].artifacts[DecisionKey(env.runId)]
    ensures (a in worlds[i].calls && worlds[i].calls[a].Decided?
             && b in worlds[j].calls && worlds[j].calls[b].Decided?) ==>
              worlds[i].calls[a].verdict == worlds[j].calls[b].verdict
  {
    RunKeepsInv(env, worlds, actions, i);
    RunKeepsInv(env, worlds, actions, j);
    RunExtends(env, worlds, actions, i, j);
    if a in worlds[i].calls && worlds[i].calls[a].Decided? && b in worlds[j].calls && worlds[j].calls[b].Decided? {
      assert CallOk(env, worlds[i], worlds[i].calls[a]) && CallOk(env, worlds[j], worlds[j].calls[b]);
      VerdictReadable(env, worlds[j].artifacts[DecisionKey(env.runId)], worlds[j].artifacts[DecisionKey(env.runId)],
                      worlds[i].calls[a].verdict, worlds[j].calls[b].verdict);
    }
  }

  // ----- one call on its own, as the executable runs it -----

  function Rank(pc: Pc): nat {
    match pc
    case Executing(_, _) => 3
    case Resuming(_, _, _) => 3
    case Deciding(_, _, _) => 2
    case Finalizing(_, _, _) => 1
    case _ => 0
  }

  /** A call with nothing interleaved: its steps one after the other. */
  function Drive(env: Env, artifacts: A.Items, chain: C.Chain, pc: Pc): (A.Items, C.Chain, Pc)
    decreases Rank(pc)
  {
    if !Running(pc) then (artifacts, chain, pc)
    else
      var (artifacts', chain', pc') := Advance(env, World(artifacts, chain, map[]), pc);
      Drive(env, artifacts', chain', pc')
  }

  lemma DriveOn(env: Env, artifacts: A.Items, chain: C.Chain, pc: Pc)
    requires Running(pc)
    ensures var (artifacts', chain', pc') := Advance(env, World(artifacts, chain, map[]), pc);
            && Drive(env, artifacts, chain, pc) == Drive(env, artifacts', chain', pc')
            && (!Running(pc') ==> Drive(env, artifacts, chain, pc) == (artifacts', chain', pc'))
  {}

  class PlainExecutable {
    const env: Env
    const artifactStore: A.MemoryArtifactStore
    const checkpointStore: M.MemoryCheckpointStore

    ghost predicate Valid()
      reads this, artifactStore, checkpointStore
    {
      && artifactStore.Valid() && artifactStore.sha == env.hashes
      && checkpointStore.Valid() && checkpointStore.sha == env.sha
    }

    ghost function After(pc: Pc): (A.Items, C.Chain, Pc)
      reads this, artifactStore, checkpointStore
    {
      Drive(env, artifactStore.items, checkpointStore.chain, pc)
    }

    constructor (env: Env, artifactStore: A.MemoryArtifactStore, checkpointStore: M.MemoryCheckpointStore)
      requires artifactStore.Valid() && artifactStore.sha == env.hashes
      requires checkpointStore.Valid() && checkpointStore.sha == env.sha
      ensures Valid()
      ensures this.env == env && this.artifactStore == artifactStore && this.checkpointStore == checkpointStore
    {
      this.env, this.artifactStore, this.checkpointStore := env, artifactStore, checkpointStore;
    }

    method Execute(subject: string, message: string) returns (outcome: Pc)
      requires Valid()
      modifies artifactStore, checkpointStore
      ensures Valid()
      ensures (artifactStore.items, checkpointStore.chain, outcome) == old(After(Executing(subject, message)))
    {
      DriveOn(env, artifactStore.items, checkpointStore.chain, Executing(subject, message));
      var answer := SubmitVersion(AwaitingRequest(env.codec, subject, message));
      outcome := if answer.Ok? then Paused else Failed(CheckpointRefused(answer.error));
    }

    method Resume(checkpointId: Option<string>, action: string, note: string) returns (outcome: Pc)
      requires Valid()
      modifies artifactStore, checkpointStore
      ensures Valid()
      ensures (artifactStore.items, checkpointStore.chain, outcome) == old(After(Resuming(checkpointId, action, note)))
    {
      DriveOn(env, artifactStore.items, checkpointStore.chain, Resuming(checkpointId, action, note));
      var stored := None;
      if checkpointId.Some? {
        var found := checkpointStore.LoadCheckpoint(checkpointId.value);
        if found.Err? {
          return Failed(CheckpointRefused(found.error));
        }
        stored := found.value;
      } else {
        stored := checkpointStore.LoadLatest();
      }
      if stored.None? {
        return Failed(Unavailable);
      }
      var raw := env.codec.decode(stored.value.body);
      if raw.None? {
        return Failed(Incompatible);
      }
      var migrated := MigrateState(raw.value);
      if migrated.Err? {
        return Failed(migrated.error);
      }
      var state := migrated.value;
      if Get(state, "phase", None) != Some(Text("awaiting_confirmation")) {
        return Failed(NotResumable);
      }
      if action != "confirm" && action != "cancel" {
        return Failed(BadAction);
      }
      if "subject" !in state.fields || "message" !in state.fields {
        return Failed(MissingField);
      }
      var verdict := if action == "confirm" then Confirmed else Cancelled;
      outcome := StoreDecision(stored.value, verdict, env.codec.encode(DecisionDoc(state, verdict, note)));
    }

    method StoreDecision(stored: C.Entry, verdict: Verdict, body: Bytes) returns (outcome: Pc)
      requires Valid()
      modifies artifactStore, checkpointStore
      ensures Valid()
      ensures (artifactStore.items, checkpointStore.chain, outcome) == old(After(Deciding(stored, verdict, body)))
    {
      DriveOn(env, artifactStore.items, checkpointStore.chain, Deciding(stored, verdict, body));
      var artifact := artifactStore.Put(DecisionRequest(env.runId, verdict, body));
      if artifact.Err? {
        return Failed(ArtifactRefused(artifact.error));
      }
      DriveOn(env, artifactStore.items, checkpointStore.chain, Finalizing(stored.desc.id, verdict, body));
      var answer := SubmitVersion(FinalRequest(stored.desc.id, verdict, body));
      outcome := if answer.Ok? then Decided(verdict) else Failed(CheckpointRefused(answer.error));
    }

    method SubmitVersion(req: C.WriteRequest) returns (answer: Result<C.StoredCheckpoint, C.Error>)
      requires Valid()
      modifies checkpointStore
      ensures Valid() && (checkpointStore.chain, answer) == C.Submit(env.sha, old(checkpointStore.chain), req)
    {
      var refusal := C.CheckRequest(req);
      if refusal.Some? {
        return Err(refusal.value);
      }
      answer := checkpointStore.Save(req);
    }
  }
}
