/** The order-fulfilment saga on its two stores: any number of calls on one run, interleaved store
    access by store access, any of which may die in between. */
module SagaWorkflow {
  import opened Prelude
  import opened Saga
  import Metadata
  import C = CheckpointChain
  import A = Artifacts
  import M = MemoryCheckpoint

  /** A stored body: the state of an unfinished saga, or the report of a finished one. */
  datatype Doc = PartialDoc(state: State) | ReportDoc(report: Report)

  datatype Codec = Codec(encode: Doc -> Bytes, decode: Bytes -> Option<Doc>)

  ghost predicate Faithful(codec: Codec) {
    forall doc :: codec.decode(codec.encode(doc)) == Some(doc)
  }

  /** The run, its fixed input, and the unknown functions. */
  datatype Env = Env(
    runId: string, orderId: string, plan: Option<FailurePlan>, codec: Codec, sha: C.Sha, hashes: A.Hashes)

  // ----- names -----

  function Decimal(n: nat): (s: string)
    ensures |s| > 0 && (n < 10 ==> |s| == 1)
    ensures forall c :: c in s ==> '0' <= c <= '9'
  {
    var digit := [('0' as int + n % 10) as char];
    if n < 10 then digit else Decimal(n / 10) + digit
  }

  lemma {:induction false} DecimalInjective(m: nat, n: nat)
    requires Decimal(m) == Decimal(n)
    ensures m == n
  {
    assert Last(Decimal(m)) == ('0' as int + m % 10) as char;
    assert Last(Decimal(n)) == ('0' as int + n % 10) as char;
    if m >= 10 && n >= 10 {
      assert Front(Decimal(m)) == Decimal(m / 10) && Front(Decimal(n)) == Decimal(n / 10);
      DecimalInjective(m / 10, n / 10);
    }
  }

  function PartialId(rs: seq<Branch>): string {
    "partial-" + Decimal(Total(rs))
  }

  function FinalId(status: string): string {
    "final-" + status
  }

  lemma {:induction false} PartialIdsDiffer(a: seq<Branch>, b: seq<Branch>)
    ensures PartialId(a) == PartialId(b) <==> Total(a) == Total(b)
    ensures forall status :: PartialId(a) != FinalId(status)
  {
    assert PartialId(a)[8..] == Decimal(Total(a)) && PartialId(b)[8..] == Decimal(Total(b));
    if PartialId(a) == PartialId(b) { DecimalInjective(Total(a), Total(b)); }
    forall status ensures PartialId(a) != FinalId(status) {
      assert PartialId(a)[0] == 'p' && FinalId(status)[0] == 'f';
    }
  }

  function PartialRequest(env: Env, parent: Option<string>, state: State): C.WriteRequest {
    C.WriteRequest(
      PartialId(state.results), parent, env.codec.encode(PartialDoc(state)), "json", 1, "application/json",
      Metadata.Object([
        Metadata.Field("status", Metadata.Str("partial_failure")),
        Metadata.Field("retryable_count", Metadata.Int(|RetryableOps(state.results)|)),
        Metadata.Field("fatal_count", Metadata.Int(FatalCount(state.results)))]))
  }

  function StatusMetadata(status: string): Metadata.Json {
    Metadata.Object([Metadata.Field("status", Metadata.Str(status))])
  }

  function FinalRequest(env: Env, parent: Option<string>, report: Report): C.WriteRequest {
    C.WriteRequest(FinalId(report.status), parent, env.codec.encode(ReportDoc(report)), "json", 1,
                   "application/json", StatusMetadata(report.status))
  }

  function ReportKey(runId: string): string {
    "saga/" + runId + "/reconciliation.json"
  }

  function ReportRequest(env: Env, report: Report): A.Request {
    A.Request(env.runId, ReportKey(env.runId), env.codec.encode(ReportDoc(report)), "saga reconciliation",
              "reconciliation", Some("application/json"), StatusMetadata(report.status))
  }

  // ----- calls, store access by store access -----

  datatype Call = Execute | Resume(action: string)

  function Opened(call: Call): Pc {
    match call case Execute => Executing case Resume(action) => Resuming(action)
  }

  datatype Pc =
    | Executing
    | Resuming(action: string)
    | Saving(parent: Option<string>, state: State)
    | Reporting(parent: Option<string>, report: Report)
    | Finalizing(parent: Option<string>, report: Report)
    | Paused(state: State)
    | Finished(report: Report)
    | Failed(failure: Failure)
    | CheckpointRefused(checkpointError: C.Error)
    | ArtifactRefused(artifactError: A.Error)

  predicate Running(pc: Pc) {
    pc.Executing? || pc.Resuming? || pc.Saving? || pc.Reporting? || pc.Finalizing?
  }

  datatype World = World(artifacts: A.Items, chain: C.Chain, calls: map<nat, Pc>)

  function Pursue(parent: Option<string>, plan: Plan): Pc {
    match plan
    case SavePartial(state) => Saving(parent, state)
    case Finish(report) => Reporting(parent, report)
    case Reject(failure) => Failed(failure)
  }

  /** What `execute` arrives at before it touches a store. */
  function Start(env: Env): Plan {
    match ParsePlan(env.plan)
    case Err(failure) => Reject(failure)
    case Ok(plan) => Reconcile(Invoke(Begin(env.orderId, plan)))
  }

  /** What `resume` arrives at from the latest version; the report has no `branch_results`. */
  function Continue(env: Env, latest: Option<C.Entry>, action: string): Pc {
    match latest
    case None => Failed(Unavailable)
    case Some(e) =>
      match env.codec.decode(e.body)
      case None => Failed(BadDocument)
      case Some(doc) =>
        if action != "retry_failed" && action != "compensate" then Failed(BadAction)
        else
          match doc
          case PartialDoc(state) =>
            Pursue(Some(e.desc.id), if action == "retry_failed" then Retry(state) else Compensate(state))
          case ReportDoc(_) => Failed(MissingField)
  }

  /** One store access of one call. */
  function Advance(env: Env, w: World, pc: Pc): (A.Items, C.Chain, Pc)
    requires Running(pc)
  {
    match pc
    case Executing => (w.artifacts, w.chain, Pursue(None, Start(env)))
    case Resuming(action) => (w.artifacts, w.chain, Continue(env, C.ChainLatest(w.chain), action))
    case Saving(parent, state) =>
      var (chain, answer) := C.Submit(env.sha, w.chain, PartialRequest(env, parent, state));
      (w.artifacts, chain, if answer.Ok? then Paused(state) else CheckpointRefused(answer.error))
    case Reporting(parent, report) =>
      var (artifacts, answer) := A.MemPut(env.hashes, w.artifacts, ReportRequest(env, report));
      (artifacts, w.chain, if answer.Ok? then Finalizing(parent, report) else ArtifactRefused(answer.error))
    case Finalizing(parent, report) =>
      var (chain, answer) := C.Submit(env.sha, w.chain, FinalRequest(env, parent, report));
      (w.artifacts, chain, if answer.Ok? then Finished(report) else CheckpointRefused(answer.error))
  }

  datatype Action = Arrive(id: nat, call: Call) | Step(id: nat) | Die(id: nat)

  ghost predicate Enabled(w: World, action: Action) {
    match action
    case Arrive(id, _) => id !in w.calls
    case Step(id) => id in w.calls && Running(w.calls[id])
    case Die(id) => id in w.calls
  }

  ghost function Perform(env: Env, w: World, action: Action): World
    requires Enabled(w, action)
  {
    match action
    case Arrive(id, call) => w.(calls := w.calls[id := Opened(call)])
    case Step(id) =>
      var (artifacts, chain, pc) := Advance(env, w, w.calls[id]);
      World(artifacts, chain, w.calls[id := pc])
    case Die(id) => w.(calls := w.calls - {id})
  }

  // ----- where a version comes from -----

  /** The saga state stored under an identifier. */
  function StateAt(env: Env, chain: C.Chain, id: string): Option<State> {
    match C.Find(chain, id)
    case None => None
    case Some(e) => match env.codec.decode(e.body) case Some(PartialDoc(state)) => Some(state) case _ => None
  }

  /** A plan some call may have made on this stream: from the input, or from a stored state. */
  ghost predicate Produced(env: Env, chain: C.Chain, parent: Option<string>, plan: Plan) {
    match parent
    case None => plan == Start(env)
    case Some(id) =>
      StateAt(env, chain, id).Some?
      && (plan == Retry(StateAt(env, chain, id).value) || plan == Compensate(StateAt(env, chain, id).value))
  }

  function PlanOf(env: Env, e: C.Entry): Plan {
    match env.codec.decode(e.body)
    case None => Reject(MissingField)
    case Some(PartialDoc(state)) => SavePartial(state)
    case Some(ReportDoc(report)) => Finish(report)
  }

  ghost predicate Records(env: Env, e: C.Entry, plan: Plan) {
    match plan
    case SavePartial(state) => e.desc.id == PartialId(state.results) && e.body == env.codec.encode(PartialDoc(state))
    case Finish(report) => e.desc.id == FinalId(report.status) && e.body == env.codec.encode(ReportDoc(report))
    case Reject(_) => false
  }

  /** Version i is what its predecessor (or the input) leads to. */
  ghost predicate Follows(env: Env, chain: C.Chain, i: nat)
    requires i < |chain|
  {
    var plan := PlanOf(env, chain[i]);
    Produced(env, chain[..i], C.HeadId(chain[..i]), plan) && Records(env, chain[i], plan)
  }

  ghost predicate Lineage(env: Env, chain: C.Chain) {
    C.WellChained(env.sha, chain) && forall i :: 0 <= i < |chain| ==> Follows(env, chain, i)
  }

  ghost predicate IsReport(env: Env, r: A.Record, report: Report) {
    r == A.Record(A.Describe(env.hashes, ReportRequest(env, report)), env.codec.encode(ReportDoc(report)))
  }

  /** The stored report was planned on this stream. */
  ghost predicate Reported(env: Env, w: World, report: Report) {
    var key := ReportKey(env.runId);
    && key in w.artifacts && IsReport(env, w.artifacts[key], report)
    && exists parent :: Produced(env, w.chain, parent, Finish(report))
  }

  ghost predicate CallOk(env: Env, w: World, pc: Pc) {
    match pc
    case Saving(parent, state) => Produced(env, w.chain, parent, SavePartial(state))
    case Reporting(parent, report) => Produced(env, w.chain, parent, Finish(report))
    case Finalizing(parent, report) => Produced(env, w.chain, parent, Finish(report)) && Reported(env, w, report)
    case Finished(report) => Reported(env, w, report) && FinalStored(env, w, report)
    case _ => true
  }

  ghost predicate FinalStored(env: Env, w: World, report: Report) {
    C.Find(w.chain, FinalId(report.status)).Some?
  }

  ghost predicate Inv(env: Env, w: World) {
    && Lineage(env, w.chain)
    && (forall key :: key in w.artifacts ==> key == ReportKey(env.runId))
    && (ReportKey(env.runId) in w.artifacts ==> exists report :: Reported(env, w, report))
    && (forall e :: e in w.chain && PlanOf(env, e).Finish? ==> Reported(env, w, PlanOf(env, e).report))
    && (forall id :: id in w.calls ==> CallOk(env, w, w.calls[id]))
  }

  // ----- steps -----

  ghost predicate Extends(w: World, w': World) {
    && (forall k :: k in w.artifacts ==> k in w'.artifacts && w'.artifacts[k] == w.artifacts[k])
    && w.chain <= w'.chain
  }

  lemma {:induction false} ProducedStable(env: Env, chain: C.Chain, chain': C.Chain, parent: Option<string>, plan: Plan)
    requires C.WellChained(env.sha, chain') && chain <= chain' && Produced(env, chain, parent, plan)
    ensures Produced(env, chain', parent, plan)
  {
    if parent.Some? { C.FindStable(env.sha, chain, chain', parent.value); }
  }

  lemma {:induction false} ReportedStable(env: Env, w: World, w': World, report: Report)
    requires Reported(env, w, report) && Extends(w, w') && C.WellChained(env.sha, w'.chain)
    ensures Reported(env, w', report)
  {
    var parent :| Produced(env, w.chain, parent, Finish(report));
    ProducedStable(env, w.chain, w'.chain, parent, Finish(report));
  }

  lemma {:induction false} CallStable(env: Env, w: World, w': World, pc: Pc)
    requires CallOk(env, w, pc) && Extends(w, w') && C.WellChained(env.sha, w'.chain)
    ensures CallOk(env, w', pc)
  {
    match pc
    case Saving(parent, state) => ProducedStable(env, w.chain, w'.chain, parent, SavePartial(state));
    case Reporting(parent, report) => ProducedStable(env, w.chain, w'.chain, parent, Finish(report));
    case Finalizing(parent, report) =>
      ProducedStable(env, w.chain, w'.chain, parent, Finish(report));
      ReportedStable(env, w, w', report);
    case Finished(report) =>
      ReportedStable(env, w, w', report);
      C.FindStable(env.sha, w.chain, w'.chain, FinalId(report.status));
    case _ =>
  }

  /** An entry appended under the head's name extends the lineage. */
  lemma {:induction false} LineageGrows(env: Env, chain: C.Chain, chain': C.Chain, plan: Plan)
    requires Faithful(env.codec) && Lineage(env, chain) && C.WellChained(env.sha, chain')
    requires |chain'| == |chain| + 1 && chain'[..|chain|] == chain
    requires Produced(env, chain, C.HeadId(chain), plan) && Records(env, Last(chain'), plan)
    ensures Lineage(env, chain') && PlanOf(env, Last(chain')) == plan
  {
    forall i | 0 <= i < |chain'| ensures Follows(env, chain', i) {
      if i < |chain| { assert Follows(env, chain, i) && chain'[..i] == chain[..i]; }
    }
  }

  /** Saving what a call planned keeps the lineage, whether it appends, repeats or is refused. */
  lemma {:induction false} SubmitKeeps(env: Env, chain: C.Chain, req: C.WriteRequest, plan: Plan)
    requires Faithful(env.codec) && Lineage(env, chain)
    requires Produced(env, chain, req.parent, plan)
    requires match plan
             case SavePartial(state) => req == PartialRequest(env, req.parent, state)
             case Finish(report) => req == FinalRequest(env, req.parent, report)
             case Reject(_) => false
    ensures var (chain', answer) := C.Submit(env.sha, chain, req);
            && Lineage(env, chain') && chain <= chain'
            && (forall e :: e in chain' ==> e in chain || PlanOf(env, e) == plan)
            && (answer.Ok? ==> C.Find(chain', req.id).Some?)
  {
    C.SaveKeepsHistory(env.sha, chain, req);
    var (chain', answer) := C.Submit(env.sha, chain, req);
    if chain' != chain {
      assert chain'[..|chain|] == chain;
      LineageGrows(env, chain, chain', plan);
    }
  }

  lemma {:induction false} SavingKeeps(env: Env, w: World, id: nat)
    requires Faithful(env.codec) && Inv(env, w) && Enabled(w, Step(id)) && w.calls[id].Saving?
    ensures Inv(env, Perform(env, w, Step(id))) && Extends(w, Perform(env, w, Step(id)))
  {
    var w', pc := Perform(env, w, Step(id)), w.calls[id];
    assert CallOk(env, w, pc);
    SubmitKeeps(env, w.chain, PartialRequest(env, pc.parent, pc.state), SavePartial(pc.state));
    OthersKeep(env, w, w', id);
  }

  lemma {:induction false} FinalizingKeeps(env: Env, w: World, id: nat)
    requires Faithful(env.codec) && Inv(env, w) && Enabled(w, Step(id)) && w.calls[id].Finalizing?
    ensures Inv(env, Perform(env, w, Step(id))) && Extends(w, Perform(env, w, Step(id)))
  {
    var w', pc := Perform(env, w, Step(id)), w.calls[id];
    assert CallOk(env, w, pc);
    SubmitKeeps(env, w.chain, FinalRequest(env, pc.parent, pc.report), Finish(pc.report));
    ReportedStable(env, w, w', pc.report);
    OthersKeep(env, w, w', id);
  }

  lemma SameReport(env: Env, r: A.Record, report: Report, report': Report)
    requires Faithful(env.codec) && IsReport(env, r, report) && r.body == env.codec.encode(ReportDoc(report'))
    ensures report == report'
  {
    assert env.codec.decode(r.body) == Some(ReportDoc(report)) == Some(ReportDoc(report'));
  }

  /** Storing a report succeeds exactly when no other report is stored. */
  lemma {:induction false} PutReport(env: Env, w: World, report: Report)
    requires Faithful(env.codec) && Inv(env, w)
    ensures var key := ReportKey(env.runId);
            var (artifacts, answer) := A.MemPut(env.hashes, w.artifacts, ReportRequest(env, report));
            && (answer.Ok? <==> (key in w.artifacts ==> IsReport(env, w.artifacts[key], report)))
            && (answer.Ok? ==> key in artifacts && IsReport(env, artifacts[key], report))
  {
    var key := ReportKey(env.runId);
    Metadata.HostEqReflexive(StatusMetadata(report.status));
    if key in w.artifacts {
      var stored: Report :| Reported(env, w, stored);
      if w.artifacts[key].body == env.codec.encode(ReportDoc(report)) {
        SameReport(env, w.artifacts[key], stored, report);
      }
    }
  }

  lemma {:induction false} ReportingKeeps(env: Env, w: World, id: nat)
    requires Faithful(env.codec) && Inv(env, w) && Enabled(w, Step(id)) && w.calls[id].Reporting?
    ensures Inv(env, Perform(env, w, Step(id))) && Extends(w, Perform(env, w, Step(id)))
  {
    var w', pc := Perform(env, w, Step(id)), w.calls[id];
    assert CallOk(env, w, pc);
    PutReport(env, w, pc.report);
    hide IsReport, Start, Retry, Compensate, PlanOf, Metadata.HostEq;
    if w'.calls[id].Finalizing? {
      assert Produced(env, w'.chain, pc.parent, Finish(pc.report));
      assert Reported(env, w', pc.report);
    }
    OthersKeep(env, w, w', id);
  }

  lemma {:induction false} DecidingKeeps(env: Env, w: World, id: nat)
    requires Inv(env, w) && Enabled(w, Step(id)) && (w.calls[id].Executing? || w.calls[id].Resuming?)
    ensures Inv(env, Perform(env, w, Step(id))) && Extends(w, Perform(env, w, Step(id)))
  {
    hide Start, Retry, Compensate, Reported, PlanOf;
    var w' := Perform(env, w, Step(id));
    OthersKeep(env, w, w', id);
  }

  /** The invariant after a step, given what the step itself brought about. */
  lemma {:induction false} OthersKeep(env: Env, w: World, w': World, id: nat)
    requires Inv(env, w) && Extends(w, w') && Lineage(env, w'.chain)
    requires forall other :: other in w'.calls && other != id ==> other in w.calls && w'.calls[other] == w.calls[other]
    requires id in w'.calls ==> CallOk(env, w', w'.calls[id])
    requires forall key :: key in w'.artifacts ==> key == ReportKey(env.runId)
    requires ReportKey(env.runId) in w'.artifacts ==>
               ReportKey(env.runId) in w.artifacts || exists report :: Reported(env, w', report)
    requires forall e :: e in w'.chain && PlanOf(env, e).Finish? ==>
               e in w.chain || Reported(env, w', PlanOf(env, e).report)
    ensures Inv(env, w')
  {
    forall other | other in w'.calls ensures CallOk(env, w', w'.calls[other]) {
      if other != id { CallStable(env, w, w', w.calls[other]); }
    }
    if ReportKey(env.runId) in w.artifacts {
      var report :| Reported(env, w, report);
      ReportedStable(env, w, w', report);
    }
    forall e | e in w'.chain && PlanOf(env, e).Finish? ensures Reported(env, w', PlanOf(env, e).report) {
      if e in w.chain { ReportedStable(env, w, w', PlanOf(env, e).report); }
    }
  }

  lemma {:induction false} ActionKeepsInv(env: Env, w: World, action: Action)
    requires Faithful(env.codec) && Inv(env, w) && Enabled(w, action)
    ensures Inv(env, Perform(env, w, action)) && Extends(w, Perform(env, w, action))
  {
    match action
    case Step(id) =>
      match w.calls[id] {
        case Saving(_, _) => SavingKeeps(env, w, id);
        case Reporting(_, _) => ReportingKeeps(env, w, id);
        case Finalizing(_, _) => FinalizingKeeps(env, w, id);
        case Executing => DecidingKeeps(env, w, id);
        case Resuming(_) => DecidingKeeps(env, w, id);
        case _ =>
      }
    case Arrive(id, _) => OthersKeep(env, w, Perform(env, w, action), id);
    case Die(id) => OthersKeep(env, w, Perform(env, w, action), id);
  }

  // ----- what every version says -----

  /** A partial version accounts for every operation; a final one reports soundly. */
  ghost predicate SoundPlan(env: Env, plan: Plan) {
    match plan
    case SavePartial(state) => Accounted(env.orderId, state)
    case Finish(report) => SoundReport(env.orderId, report)
    case Reject(_) => true
  }

  lemma {:induction false} StartSound(env: Env)
    ensures SoundPlan(env, Start(env))
  {
    if ParsePlan(env.plan).Ok? {
      var plan := ParsePlan(env.plan).value;
      BeginAccounts(env.orderId, plan);
      ReconcileAccounts(env.orderId, Invoke(Begin(env.orderId, plan)));
    }
  }

  lemma {:induction false} NothingRetryable(rs: seq<Branch>)
    requires forall r :: r in rs ==> !FailedRetryably(r)
    ensures RetryableOps(rs) == []
  {
    RetryableIn(rs);
    if RetryableOps(rs) != [] { assert RetryableOps(rs)[0] in RetryableOps(rs); }
  }

  lemma {:induction false} ContinueSound(env: Env, state: State)
    requires Accounted(env.orderId, state)
    ensures SoundPlan(env, Retry(state)) && SoundPlan(env, Compensate(state))
    ensures Retry(state).SavePartial? ==>
              && RetryableOps(Retry(state).state.results) == []
              && Total(Retry(state).state.results) == Total(state.results) + |RetryableOps(state.results)|
  {
    var next := Invoke(Reselect(state));
    assert next.orderId == env.orderId && Retry(state) == Reconcile(next);
    RetryReruns(env.orderId, state);
    ReconcileAccounts(env.orderId, next);
    NothingRetryable(next.results);
    CompensateReports(env.orderId, state);
    hide Accounted, AccountsFor, SoundReport, Invoke, Reselect, RetryableOps, Total, Compensate, Retry, Retried;
    hide FailedRetryably;
  }

  lemma {:induction false} LineagePrefix(env: Env, chain: C.Chain, n: nat)
    requires Lineage(env, chain) && n <= |chain|
    ensures Lineage(env, chain[..n])
  {
    C.WellChainedPrefix(env.sha, chain, n);
    forall i | 0 <= i < n ensures Follows(env, chain[..n], i) {
      assert Follows(env, chain, i) && chain[..n][..i] == chain[..i];
    }
  }

  /** Each version after the first continues the state its predecessor stores. */
  lemma {:induction false} Predecessor(env: Env, chain: C.Chain, i: nat)
    requires Lineage(env, chain) && 0 < i < |chain|
    ensures PlanOf(env, chain[i - 1]).SavePartial?
    ensures var state := PlanOf(env, chain[i - 1]).state;
            PlanOf(env, chain[i]) == Retry(state) || PlanOf(env, chain[i]) == Compensate(state)
  {
    assert Follows(env, chain, i);
    LineagePrefix(env, chain, i);
    C.FindAt(chain[..i], i - 1);
    assert Last(chain[..i]) == chain[i - 1];
  }

  lemma {:induction false} VersionsSound(env: Env, chain: C.Chain, i: nat)
    requires Lineage(env, chain) && i < |chain|
    ensures SoundPlan(env, PlanOf(env, chain[i]))
  {
    hide Accounted, SoundReport, Retry, Compensate, Start, Records;
    assert Follows(env, chain, i);
    if i == 0 {
      StartSound(env);
    } else {
      VersionsSound(env, chain, i - 1);
      Predecessor(env, chain, i);
      ContinueSound(env, PlanOf(env, chain[i - 1]).state);
    }
  }

  lemma {:induction false} StateAtSound(env: Env, chain: C.Chain, id: string)
    requires Lineage(env, chain) && StateAt(env, chain, id).Some?
    ensures Accounted(env.orderId, StateAt(env, chain, id).value)
  {
    var i :| 0 <= i < |chain| && chain[i] == C.Find(chain, id).value;
    VersionsSound(env, chain, i);
  }

  lemma {:induction false} ProducedSound(env: Env, chain: C.Chain, parent: Option<string>, plan: Plan)
    requires Lineage(env, chain) && Produced(env, chain, parent, plan)
    ensures SoundPlan(env, plan)
  {
    if parent.None? {
      StartSound(env);
    } else {
      StateAtSound(env, chain, parent.value);
      ContinueSound(env, StateAt(env, chain, parent.value).value);
    }
  }

  lemma DistinctVersions(env: Env, chain: C.Chain, i: nat, j: nat)
    requires C.WellChained(env.sha, chain) && i < j < |chain|
    ensures chain[i].desc.id != chain[j].desc.id
  {}

  /** A partial version after another one is its retry: something was retried, the N of `partial-N`
      rose by the number of branches re-run, and nothing is left to retry. */
  lemma {:induction false} RetriesRaise(env: Env, chain: C.Chain, i: nat)
    requires Lineage(env, chain) && 0 < i < |chain| && PlanOf(env, chain[i]).SavePartial?
    ensures PlanOf(env, chain[i - 1]).SavePartial?
    ensures var before, after := PlanOf(env, chain[i - 1]).state.results, PlanOf(env, chain[i]).state.results;
            && RetryableOps(before) != [] && RetryableOps(after) == []
            && Total(after) == Total(before) + |RetryableOps(before)|
            && chain[i - 1].desc.id == PartialId(before) && chain[i].desc.id == PartialId(after)
  {
    hide Accounted, SoundReport, Undo, Succeeded, C.WellChained;
    VersionsSound(env, chain, i - 1);
    Predecessor(env, chain, i);
    assert Follows(env, chain, i - 1) && Follows(env, chain, i);
    assert chain[i - 1].desc.id != chain[i].desc.id by { DistinctVersions(env, chain, i - 1, i); }
    var state := PlanOf(env, chain[i - 1]).state;
    CompensateReports(env.orderId, state);
    ContinueSound(env, state);
    if RetryableOps(state.results) == [] {
      EmptyRetry(env.orderId, state);
    }
  }

  /** So a saga stores at most two partial versions and a final one, which nothing follows. */
  lemma {:induction false} AtMostThreeVersions(env: Env, chain: C.Chain)
    requires Lineage(env, chain)
    ensures |chain| <= 3
    ensures forall i :: 0 <= i < |chain| && PlanOf(env, chain[i]).Finish? ==> i == |chain| - 1
    ensures forall i :: 0 <= i < |chain| - 1 ==> PlanOf(env, chain[i]).SavePartial?
  {
    forall i | 0 <= i < |chain| - 1 ensures PlanOf(env, chain[i]).SavePartial? { Predecessor(env, chain, i + 1); }
    if |chain| > 3 {
      RetriesRaise(env, chain, 1);
      RetriesRaise(env, chain, 2);
    }
  }

  lemma {:induction false} OwnParentRefused(env: Env, state: State, next: State)
    requires C.ValidId(PartialId(state.results)) && Total(next.results) == Total(state.results)
    ensures C.CheckRequest(PartialRequest(env, Some(PartialId(state.results)), next)) == Some(C.SelfParent)
  {
    hide C.ValidId, RetryableOps, FatalCount, Total;
  }

  lemma {:induction false} OtherParentDiffers(env: Env, state: State, next: State)
    requires Total(next.results) != Total(state.results)
    ensures C.CheckRequest(PartialRequest(env, Some(PartialId(state.results)), next)) != Some(C.SelfParent)
  {
    hide C.ValidId, RetryableOps, FatalCount, Total;
    PartialIdsDiffer(next.results, state.results);
  }

  /** The store refuses a retry exactly when there is nothing to retry: the version would be its own
      parent.  This is the action a paused saga does not offer. */
  lemma {:induction false} RetryRefusedIff(env: Env, state: State)
    requires Accounted(env.orderId, state)
    ensures RetryableOps(state.results) == [] <==>
              && Retry(state).SavePartial?
              && C.CheckRequest(PartialRequest(env, Some(PartialId(state.results)), Retry(state).state))
                 == Some(C.SelfParent)
  {
    hide Accounted, RetryableOps, C.CheckRequest, PartialRequest, Retry, PartialId;
    if RetryableOps(state.results) == [] {
      EmptyRetry(env.orderId, state);
      PartialIdValid(env.orderId, state);
      OwnParentRefused(env, state, state);
    } else {
      ContinueSound(env, state);
      if Retry(state).SavePartial? { OtherParentDiffers(env, state, Retry(state).state); }
    }
  }

  lemma {:induction false} PartialIdValid(orderId: string, state: State)
    requires Accounted(orderId, state)
    ensures C.ValidId(PartialId(state.results))
  {
    var id := PartialId(state.results);
    assert Total(state.results) <= 6 by { SixAtMost(orderId, state); }
    hide Accounted, Total;
    assert id[..8] == "partial-" && id[8..] == Decimal(Total(state.results));
    forall i | 1 <= i < |id| ensures C.Alphanumeric(id[i]) || id[i] in "._:-" {
      if i < 8 { assert id[i] == "partial-"[i]; } else { assert id[i] == id[8..][i - 8]; }
    }
  }

  lemma {:induction false} SixAtMost(orderId: string, state: State)
    requires Accounted(orderId, state)
    ensures Total(state.results) <= 6
  {
    TotalBound(orderId, state.failurePlan, state.results);
    hide Sound, Total;
    OpsOf(state.results);
    assert |multiset(Ops(state.results))| == |multiset(OPERATIONS)| == 3;
  }

  lemma {:induction false} TotalBound(orderId: string, plan: FailurePlan, rs: seq<Branch>)
    requires forall r :: r in rs ==> Sound(orderId, plan, r)
    ensures |rs| <= Total(rs) <= 2 * |rs|
  {
    if rs != [] {
      assert rs[0] in rs;
      TotalBound(orderId, plan, rs[1..]);
    }
  }

  /** A finished saga cannot be resumed, whatever the action. */
  lemma {:induction false} FinishedSagasStay(env: Env, chain: C.Chain, action: string)
    requires Lineage(env, chain) && chain != [] && PlanOf(env, Last(chain)).Finish?
    ensures Continue(env, C.ChainLatest(chain), action).Failed?
  {}

  // ----- runs -----

  ghost predicate Run(env: Env, worlds: seq<World>, actions: seq<Action>) {
    && |worlds| == |actions| + 1
    && worlds[0] == World(map[], [], map[])
    && forall i {:trigger actions[i]} :: 0 <= i < |actions| ==>
         Enabled(worlds[i], actions[i]) && worlds[i + 1] == Perform(env, worlds[i], actions[i])
  }

  /** Some actions lead from one world to another. */
  ghost predicate Leads(env: Env, w: World, steps: seq<Action>, w': World)
    decreases |steps|
  {
    if steps == [] then w' == w
    else Enabled(w, steps[0]) && Leads(env, Perform(env, w, steps[0]), steps[1..], w')
  }

  lemma LeadsNowhere(env: Env, w: World)
    ensures Leads(env, w, [], w)
  {}

  lemma LeadsOne(env: Env, w: World, step: Action)
    requires Enabled(w, step)
    ensures Leads(env, w, [step], Perform(env, w, step))
  {
    assert [step][1..] == [];
  }

  lemma LeadsDeath(env: Env, w: World, id: nat)
    requires id in w.calls
    ensures Leads(env, w, [Die(id)], w.(calls := w.calls - {id}))
  {
    LeadsOne(env, w, Die(id));
  }

  lemma LeadsTwo(env: Env, w: World, first: Action, second: Action)
    requires Enabled(w, first) && Enabled(Perform(env, w, first), second)
    ensures Leads(env, w, [first, second], Perform(env, Perform(env, w, first), second))
  {
    assert [first, second][1..] == [second];
    LeadsOne(env, Perform(env, w, first), second);
  }

  lemma {:induction false} RunKeepsInv(env: Env, worlds: seq<World>, actions: seq<Action>, i: nat)
    requires Faithful(env.codec) && Run(env, worlds, actions) && i < |worlds|
    ensures Inv(env, worlds[i])
  {
    if i > 0 {
      assert actions[i - 1] == actions[i - 1];
      RunKeepsInv(env, worlds, actions, i - 1);
      ActionKeepsInv(env, worlds[i - 1], actions[i - 1]);
    }
  }

  lemma {:induction false} RunExtends(env: Env, worlds: seq<World>, actions: seq<Action>, i: nat, j: nat)
    requires Faithful(env.codec) && Run(env, worlds, actions) && i <= j < |worlds|
    ensures Extends(worlds[i], worlds[j])
    decreases j - i
  {
    if i < j {
      assert actions[j - 1] == actions[j - 1];
      RunExtends(env, worlds, actions, i, j - 1);
      RunKeepsInv(env, worlds, actions, j - 1);
      ActionKeepsInv(env, worlds[j - 1], actions[j - 1]);
    }
  }

  /** Every version of every run: partial versions account for each operation exactly once, a final
      version is a sound report and is the stored one. */
  lemma {:induction false} EveryVersionIsSound(
      env: Env, worlds: seq<World>, actions: seq<Action>, i: nat, k: nat)
    requires Faithful(env.codec) && Run(env, worlds, actions) && i < |worlds| && k < |worlds[i].chain|
    ensures var plan := PlanOf(env, worlds[i].chain[k]);
            && Records(env, worlds[i].chain[k], plan) && SoundPlan(env, plan)
            && (k == 0 ==> plan == Start(env))
            && (plan.Finish? ==>
                  && k == |worlds[i].chain| - 1
                  && ReportKey(env.runId) in worlds[i].artifacts
                  && worlds[i].artifacts[ReportKey(env.runId)].body == worlds[i].chain[k].body)
            && |worlds[i].chain| <= 3
  {
    RunKeepsInv(env, worlds, actions, i);
    var chain := worlds[i].chain;
    assert Follows(env, chain, k);
    VersionsSound(env, chain, k);
    AtMostThreeVersions(env, chain);
    if PlanOf(env, chain[k]).Finish? {
      assert chain[k] in chain;
      assert Reported(env, worlds[i], PlanOf(env, chain[k]).report);
    }
  }

  /** All that ends a saga ends it with the stored report. */
  lemma {:induction false} FinalsAgree(env: Env, w: World, report: Report)
    requires Faithful(env.codec) && Inv(env, w) && Reported(env, w, report)
    ensures forall k :: 0 <= k < |w.chain| && PlanOf(env, w.chain[k]).Finish? ==>
              PlanOf(env, w.chain[k]) == Finish(report)
    ensures forall id :: id in w.calls && w.calls[id].Finished? ==> w.calls[id].report == report
  {
    hide PlanOf, Produced;
    var r := w.artifacts[ReportKey(env.runId)];
    forall k | 0 <= k < |w.chain| && PlanOf(env, w.chain[k]).Finish?
      ensures PlanOf(env, w.chain[k]) == Finish(report)
    {
      assert w.chain[k] in w.chain;
      SameReport(env, r, PlanOf(env, w.chain[k]).report, report);
    }
    forall id | id in w.calls && w.calls[id].Finished? ensures w.calls[id].report == report {
      assert CallOk(env, w, w.calls[id]);
      SameReport(env, r, w.calls[id].report, report);
    }
  }

  /** One outcome: once a report is stored it never changes, it is sound, and all calls that finish
      finish with that report, so a saga is never both completed and compensated. */
  lemma {:induction false} OneOutcome(
      env: Env, worlds: seq<World>, actions: seq<Action>, i: nat, j: nat, a: nat, b: nat)
    requires Faithful(env.codec) && Run(env, worlds, actions) && i <= j < |worlds|
    requires a in worlds[i].calls && worlds[i].calls[a].Finished?
    ensures var report := worlds[i].calls[a].report;
            && SoundReport(env.orderId, report)
            && ReportKey(env.runId) in worlds[j].artifacts
            && IsReport(env, worlds[j].artifacts[ReportKey(env.runId)], report)
            && (forall k :: 0 <= k < |worlds[j].chain| && PlanOf(env, worlds[j].chain[k]).Finish? ==>
                  PlanOf(env, worlds[j].chain[k]) == Finish(report))
            && (b in worlds[j].calls && worlds[j].calls[b].Finished? ==> worlds[j].calls[b].report == report)
  {
    RunKeepsInv(env, worlds, actions, i);
    RunKeepsInv(env, worlds, actions, j);
    RunExtends(env, worlds, actions, i, j);
    hide IsReport, PlanOf, Lineage, SoundReport;
    var w, report := worlds[i], worlds[i].calls[a].report;
    assert CallOk(env, w, w.calls[a]);
    var parent :| Produced(env, w.chain, parent, Finish(report));
    ProducedSound(env, w.chain, parent, Finish(report));
    ReportStays(env, w, worlds[j], report);
    FinalsAgree(env, worlds[j], report);
  }

  lemma {:induction false} ReportStays(env: Env, w: World, w': World, report: Report)
    requires Reported(env, w, report) && Extends(w, w') && Inv(env, w')
    ensures Reported(env, w', report)
  {
    ReportedStable(env, w, w', report);
  }

  // ----- one call on its own, as the executable runs it -----

  function Rank(pc: Pc): nat {
    match pc
    case Executing => 3
    case Resuming(_) => 3
    case Reporting(_, _) => 2
    case Saving(_, _) => 1
    case Finalizing(_, _) => 1
    case _ => 0
  }

  /** A call with nothing interleaved: its steps one after the other. */
  function Drive(env: Env, artifacts: A.Items, chain: C.Chain, pc: Pc): (A.Items, C.Chain, Pc)
    decreases Rank(pc)
  {
    if !Running(pc) then (artifacts, chain, pc)
    else
      var (artifacts', chain', pc') := Advance(env, World(artifacts, chain, map[]), pc);
      Drive(env, artifacts', chain', pc')
  }

  lemma DriveOn(env: Env, artifacts: A.Items, chain: C.Chain, pc: Pc)
    requires Running(pc)
    ensures var (artifacts', chain', pc') := Advance(env, World(artifacts, chain, map[]), pc);
            && Drive(env, artifacts, chain, pc) == Drive(env, artifacts', chain', pc')
            && (!Running(pc') ==> Drive(env, artifacts, chain, pc) == (artifacts', chain', pc'))
  {}

  lemma FinalIdValid(status: string)
    requires status == "completed" || status == "compensated"
    ensures C.ValidId(FinalId(status))
  {
    var id := FinalId(status);
    if status == "completed" { assert id == "final-completed"; } else { assert id == "final-compensated"; }
  }

  /** The final version of a report planned from the latest state is always accepted. */
  lemma {:induction false} FinalAccepted(env: Env, chain: C.Chain, report: Report)
    requires Faithful(env.codec) && Lineage(env, chain) && chain != [] && PlanOf(env, Last(chain)).SavePartial?
    requires Produced(env, chain, C.HeadId(chain), Finish(report))
    ensures C.Submit(env.sha, chain, FinalRequest(env, C.HeadId(chain), report)).1.Ok?
  {
    var head, id := Last(chain), FinalId(report.status);
    assert Follows(env, chain, |chain| - 1);
    VersionsSound(env, chain, |chain| - 1);
    ProducedSound(env, chain, C.HeadId(chain), Finish(report));
    PartialIdValid(env.orderId, PlanOf(env, head).state);
    FinalIdValid(report.status);
    PartialIdsDiffer(PlanOf(env, head).state.results, []);
    AtMostThreeVersions(env, chain);
    hide C.ValidId, Accounted, SoundReport, PlanOf, Produced, PartialId, Lineage;
    if C.Find(chain, id).Some? {
      var i :| 0 <= i < |chain| && chain[i] == C.Find(chain, id).value;
      NoFinalYet(env, chain, i, report.status);
    }
  }

  lemma {:induction false} NoFinalYet(env: Env, chain: C.Chain, i: nat, status: string)
    requires Lineage(env, chain) && i < |chain| && PlanOf(env, Last(chain)).SavePartial?
    ensures chain[i].desc.id != FinalId(status)
  {
    AtMostThreeVersions(env, chain);
    assert Follows(env, chain, i) && PlanOf(env, chain[i]).SavePartial?;
    PartialIdsDiffer(PlanOf(env, chain[i]).state.results, []);
  }

  /** A resumed call, alone, finishes the saga exactly when it ends in a report and no other report
      is stored. */
  lemma {:induction false} FinishesIff(env: Env, w: World, action: string)
    requires Faithful(env.codec) && Inv(env, w) && w.chain != [] && PlanOf(env, Last(w.chain)).SavePartial?
    ensures var key := ReportKey(env.runId);
            Drive(env, w.artifacts, w.chain, Resuming(action)).2.Finished? <==>
              match Continue(env, C.ChainLatest(w.chain), action)
              case Reporting(_, report) => key in w.artifacts ==> IsReport(env, w.artifacts[key], report)
              case _ => false
  {
    hide Inv, IsReport, PlanOf, Produced, Continue, Reported;
    var pc := Continue(env, C.ChainLatest(w.chain), action);
    ContinueProduces(env, w.chain, action);
    DriveOn(env, w.artifacts, w.chain, Resuming(action));
    if Running(pc) { DriveOn(env, w.artifacts, w.chain, pc); }
    if pc.Reporting? {
      var (artifacts, _) := A.MemPut(env.hashes, w.artifacts, ReportRequest(env, pc.report));
      PutReport(env, w, pc.report);
      FinalAccepted(env, w.chain, pc.report) by { LineageOf(env, w); }
      DriveOn(env, artifacts, w.chain, Finalizing(pc.parent, pc.report));
    }
  }

  lemma LineageOf(env: Env, w: World)
    requires Inv(env, w)
    ensures Lineage(env, w.chain)
  {}

  /** What a call plans from the latest version, it plans from the head. */
  lemma {:induction false} ContinueProduces(env: Env, chain: C.Chain, action: string)
    requires chain != [] && C.Find(chain, Last(chain).desc.id) == Some(Last(chain))
    ensures var pc := Continue(env, C.ChainLatest(chain), action);
            && !pc.Finished? && !pc.Executing? && !pc.Resuming? && !pc.Finalizing?
            && (pc.Reporting? ==> pc.parent == C.HeadId(chain) && Produced(env, chain, pc.parent, Finish(pc.report)))
  {
    hide Retry, Compensate, Start;
  }

  lemma {:induction false} StrandedState(env: Env, w: World, after: State, report: Report, action: string)
    requires Faithful(env.codec) && Inv(env, w) && w.chain != []
    requires PlanOf(env, Last(w.chain)) == SavePartial(after)
    requires Accounted(env.orderId, after) && RetryableOps(after.results) == [] && report.results != after.results
    requires ReportKey(env.runId) in w.artifacts && IsReport(env, w.artifacts[ReportKey(env.runId)], report)
    ensures !Drive(env, w.artifacts, w.chain, Resuming(action)).2.Finished?
  {
    hide Inv, Drive, Accounted, RetryableOps, Retry, Undo, Succeeded;
    FinishesIff(env, w, action);
    EmptyRetry(env.orderId, after);
    if Compensate(after).Finish? && IsReport(env, w.artifacts[ReportKey(env.runId)], Compensate(after).report) {
      SameReport(env, w.artifacts[ReportKey(env.runId)], report, Compensate(after).report);
    }
  }

  /** A compensation that dies between its two writes strands a saga that is then retried: while a
      failure remains, no resumed call can finish it any more. */
  lemma {:induction false} RetryStrands(env: Env, w: World, n: nat, report: Report, action: string)
    requires Faithful(env.codec) && Inv(env, w) && |w.chain| == n + 1 && n > 0 && PlanOf(env, w.chain[n]).SavePartial?
    requires PlanOf(env, w.chain[n - 1]).SavePartial? && Compensate(PlanOf(env, w.chain[n - 1]).state) == Finish(report)
    requires ReportKey(env.runId) in w.artifacts && IsReport(env, w.artifacts[ReportKey(env.runId)], report)
    ensures !Drive(env, w.artifacts, w.chain, Resuming(action)).2.Finished?
  {
    RetriesRaise(env, w.chain, n);
    VersionsSound(env, w.chain, n);
    var before, after := PlanOf(env, w.chain[n - 1]).state, PlanOf(env, w.chain[n]).state;
    hide Inv, Drive, IsReport, Accounted, RetryableOps, Undo, Succeeded, PlanOf;
    assert report.results == before.results;
    StrandedState(env, w, after, report, action);
  }

  // ----- stranded for good, and exactly when that can happen -----

  /** A compensation's report is stored, its final version is not, and a retry came after it. */
  ghost predicate Stranded(env: Env, w: World) {
    var n := |w.chain| - 1;
    && n > 0
    && PlanOf(env, w.chain[n]).SavePartial? && PlanOf(env, w.chain[n - 1]).SavePartial?
    && Compensate(PlanOf(env, w.chain[n - 1]).state).Finish?
    && ReportKey(env.runId) in w.artifacts
    && IsReport(env, w.artifacts[ReportKey(env.runId)], Compensate(PlanOf(env, w.chain[n - 1]).state).report)
  }

  /** A saga with two partial versions has nothing left to retry; only compensating would end it. */
  lemma {:induction false} ThirdVersionCompensates(env: Env, chain: C.Chain, n: nat)
    requires Lineage(env, chain) && 0 < n && n + 1 < |chain| && PlanOf(env, chain[n]).SavePartial?
    ensures PlanOf(env, chain[n - 1]).SavePartial?
    ensures PlanOf(env, chain[n + 1]) == Compensate(PlanOf(env, chain[n]).state)
    ensures PlanOf(env, chain[n + 1]).Finish?
    ensures PlanOf(env, chain[n + 1]).report.results != PlanOf(env, chain[n - 1]).state.results
  {
    hide Accounted, Undo, Succeeded, RetryableOps, Reselect, Invoke;
    RetriesRaise(env, chain, n);
    Predecessor(env, chain, n + 1);
    VersionsSound(env, chain, n);
    var before, after := PlanOf(env, chain[n - 1]).state, PlanOf(env, chain[n]).state;
    DistinctVersions(env, chain, n, n + 1);
    assert Follows(env, chain, n) && Follows(env, chain, n + 1);
    hide Lineage, Follows;
    EmptyRetry(env.orderId, after);
    CompensateReports(env.orderId, after);
    assert Total(before.results) != Total(after.results);
  }

  /** A final version makes the chain three long: no saga that is stranded now has one then. */
  lemma {:induction false} StrandedHasNoFinal(env: Env, w: World, w': World, k: nat)
    requires Faithful(env.codec) && Inv(env, w) && Stranded(env, w) && Inv(env, w') && Extends(w, w')
    requires k < |w'.chain|
    ensures !PlanOf(env, w'.chain[k]).Finish?
  {
    var n := |w.chain| - 1;
    AtMostThreeVersions(env, w'.chain);
    if PlanOf(env, w'.chain[k]).Finish? {
      assert w'.chain[n] == w.chain[n] && w'.chain[n - 1] == w.chain[n - 1];
      assert k == n + 1 == 2;
      ThirdVersionCompensates(env, w'.chain, n);
      assert w'.chain[k] in w'.chain;
      var r := w'.artifacts[ReportKey(env.runId)];
      SameReport(env, r, PlanOf(env, w'.chain[k]).report, Compensate(PlanOf(env, w.chain[n - 1]).state).report);
    }
  }

  lemma {:induction false} StrandedNotFinished(env: Env, w: World, w': World, id: nat)
    requires Faithful(env.codec) && Inv(env, w) && Stranded(env, w) && Inv(env, w') && Extends(w, w')
    ensures id in w'.calls ==> !w'.calls[id].Finished?
  {
    if id in w'.calls && w'.calls[id].Finished? {
      assert CallOk(env, w', w'.calls[id]);
      var status := w'.calls[id].report.status;
      var k :| 0 <= k < |w'.chain| && w'.chain[k] == C.Find(w'.chain, FinalId(status)).value;
      assert Follows(env, w'.chain, k);
      StrandedHasNoFinal(env, w, w', k);
      PartialIdsDiffer(PlanOf(env, w'.chain[k]).state.results, []);
    }
  }

  /** Once stranded, whatever calls come, interleave and die, none ever finishes the saga. */
  lemma {:induction false} StrandedForGood(
      env: Env, worlds: seq<World>, actions: seq<Action>, i: nat, j: nat, id: nat)
    requires Faithful(env.codec) && Run(env, worlds, actions) && i <= j < |worlds| && Stranded(env, worlds[i])
    ensures id in worlds[j].calls ==> !worlds[j].calls[id].Finished?
    ensures forall k :: 0 <= k < |worlds[j].chain| ==> !PlanOf(env, worlds[j].chain[k]).Finish?
  {
    RunKeepsInv(env, worlds, actions, i);
    RunKeepsInv(env, worlds, actions, j);
    RunExtends(env, worlds, actions, i, j);
    var chain := worlds[j].chain;
    forall k | 0 <= k < |chain| ensures !PlanOf(env, chain[k]).Finish? {
      StrandedHasNoFinal(env, worlds[i], worlds[j], k);
    }
    StrandedNotFinished(env, worlds[i], worlds[j], id);
  }

  ghost predicate Reachable(env: Env, w: World) {
    exists worlds, actions :: Run(env, worlds, actions) && Last(worlds) == w
  }

  lemma ReachEmpty(env: Env)
    ensures Reachable(env, World(map[], [], map[]))
  {
    assert Run(env, [World(map[], [], map[])], []);
  }

  lemma ReachNext(env: Env, w: World, action: Action)
    requires Reachable(env, w) && Enabled(w, action)
    ensures Reachable(env, Perform(env, w, action))
  {
    hide Enabled, Perform;
    var worlds, actions :| Run(env, worlds, actions) && Last(worlds) == w;
    var worlds', actions' := worlds + [Perform(env, w, action)], actions + [action];
    forall i {:trigger actions'[i]} | 0 <= i < |actions'|
      ensures Enabled(worlds'[i], actions'[i]) && worlds'[i + 1] == Perform(env, worlds'[i], actions'[i])
    {
      if i < |actions| { assert actions'[i] == actions[i]; }
    }
    assert Run(env, worlds', actions');
  }

  lemma {:induction false} ReachableInv(env: Env, w: World)
    requires Faithful(env.codec) && Reachable(env, w)
    ensures Inv(env, w)
  {
    var worlds, actions :| Run(env, worlds, actions) && Last(worlds) == w;
    RunKeepsInv(env, worlds, actions, |worlds| - 1);
  }

  /** The input plans a retryable and a fatal failure. */
  ghost predicate MixedInput(env: Env) {
    && ParsePlan(env.plan).Ok?
    && (exists op :: op in ParsePlan(env.plan).value && ParsePlan(env.plan).value[op] == "retryable")
    && (exists op :: op in ParsePlan(env.plan).value && ParsePlan(env.plan).value[op] == "fatal")
  }

  lemma {:induction false} ResultOf(rs: seq<Branch>, op: string) returns (r: Branch)
    requires multiset(Ops(rs)) == multiset(OPERATIONS) && op in OPERATIONS
    ensures r in rs && r.operation == op
  {
    OpsOf(rs);
    assert op in multiset(Ops(rs));
    var i :| 0 <= i < |Ops(rs)| && Ops(rs)[i] == op;
    r := rs[i];
  }

  /** With a mixed input the first run is partial, and so is its retry. */
  lemma {:induction false} MixedPauses(env: Env)
    requires MixedInput(env)
    ensures Start(env).SavePartial? && Accounted(env.orderId, Start(env).state)
    ensures Retry(Start(env).state).SavePartial? && RetryableOps(Start(env).state.results) != []
  {
    var plan := ParsePlan(env.plan).value;
    var begun := Invoke(Begin(env.orderId, plan));
    BeginAccounts(env.orderId, plan);
    ReconcileAccounts(env.orderId, begun);
    var again :| again in plan && plan[again] == "retryable";
    var never :| never in plan && plan[never] == "fatal";
    var a := ResultOf(begun.results, again);
    var b := ResultOf(begun.results, never);
    assert Sound(env.orderId, plan, a) && Sound(env.orderId, plan, b);
    assert "retryable" != "fatal" by { assert "retryable"[0] != "fatal"[0]; }
    assert Failing(begun.results) && FailedRetryably(a) && !FailedRetryably(b) && b.status == "failed";
    StillFailing(env.orderId, Start(env).state, a, b);
  }

  lemma {:induction false} StillFailing(orderId: string, state: State, a: Branch, b: Branch)
    requires Accounted(orderId, state) && a in state.results && b in state.results
    requires FailedRetryably(a) && !FailedRetryably(b) && b.status == "failed"
    ensures Retry(state).SavePartial? && RetryableOps(state.results) != []
  {
    RetryableIn(state.results);
    hide Accounted, RetryableOps;
    RetryReruns(orderId, state);
    assert b in Invoke(Reselect(state)).results;
  }

  /** A partial version saved under the head is accepted when it is a new one. */
  lemma {:induction false} PartialAccepted(env: Env, chain: C.Chain, state: State)
    requires C.ValidId(PartialId(state.results))
    requires chain == [] ||
             (|chain| == 1 && C.ValidId(chain[0].desc.id) && chain[0].desc.id != PartialId(state.results))
    ensures var (chain', answer) := C.Submit(env.sha, chain, PartialRequest(env, C.HeadId(chain), state));
            && answer.Ok? && |chain'| == |chain| + 1 && chain'[..|chain|] == chain
            && Last(chain').desc.id == PartialId(state.results)
            && Last(chain').body == env.codec.encode(PartialDoc(state))
  {
    hide C.ValidId, PartialId, RetryableOps, FatalCount;
    if chain != [] { assert C.Find(chain[..0], PartialId(state.results)).None?; }
  }

  lemma {:induction false} StepGoes(env: Env, w: World, id: nat, artifacts: A.Items, chain: C.Chain, pc: Pc)
    requires Reachable(env, w) && id in w.calls && Running(w.calls[id])
    requires Advance(env, w, w.calls[id]) == (artifacts, chain, pc)
    ensures Reachable(env, World(artifacts, chain, w.calls[id := pc]))
  {
    hide Reachable, Advance;
    ReachNext(env, w, Step(id));
  }

  lemma {:induction false} CallArrives(env: Env, w: World, id: nat, call: Call, pc: Pc)
    requires Reachable(env, w) && id !in w.calls
    requires pc == Opened(call)
    ensures Reachable(env, w.(calls := w.calls[id := pc]))
  {
    hide Reachable;
    ReachNext(env, w, Arrive(id, call));
  }

  lemma {:induction false} DecidingGoes(env: Env, w: World, id: nat, pc: Pc)
    requires Reachable(env, w) && id in w.calls
    requires w.calls[id] == Executing || w.calls[id].Resuming?
    requires pc == match w.calls[id]
                   case Executing => Pursue(None, Start(env))
                   case Resuming(action) => Continue(env, C.ChainLatest(w.chain), action)
                   case _ => w.calls[id]
    ensures Reachable(env, w.(calls := w.calls[id := pc]))
  {
    hide Reachable, Pursue, Start, Continue;
    StepGoes(env, w, id, w.artifacts, w.chain, pc);
  }

  lemma {:induction false} SavingGoes(env: Env, w: World, id: nat, chain: C.Chain)
    requires Reachable(env, w) && id in w.calls && w.calls[id].Saving?
    requires C.Submit(env.sha, w.chain, PartialRequest(env, w.calls[id].parent, w.calls[id].state)).0 == chain
    requires C.Submit(env.sha, w.chain, PartialRequest(env, w.calls[id].parent, w.calls[id].state)).1.Ok?
    ensures Reachable(env, World(w.artifacts, chain, w.calls[id := Paused(w.calls[id].state)]))
  {
    hide Reachable, C.Submit, PartialRequest;
    StepGoes(env, w, id, w.artifacts, chain, Paused(w.calls[id].state));
  }

  lemma {:induction false} ReportingGoes(env: Env, w: World, id: nat, artifacts: A.Items)
    requires Reachable(env, w) && id in w.calls && w.calls[id].Reporting?
    requires A.MemPut(env.hashes, w.artifacts, ReportRequest(env, w.calls[id].report)).0 == artifacts
    requires A.MemPut(env.hashes, w.artifacts, ReportRequest(env, w.calls[id].report)).1.Ok?
    ensures Reachable(env, World(artifacts, w.chain, w.calls - {id}))
  {
    hide Reachable, A.MemPut, ReportRequest;
    var pc := Finalizing(w.calls[id].parent, w.calls[id].report);
    StepGoes(env, w, id, artifacts, w.chain, pc);
    ReachNext(env, World(artifacts, w.chain, w.calls[id := pc]), Die(id));
    assert w.calls[id := pc] - {id} == w.calls - {id};
  }

  ghost predicate First(env: Env, state: State) {
    Start(env) == SavePartial(state) && Accounted(env.orderId, state)
  }

  /** Executing such an input pauses on a first partial version. */
  lemma {:induction false} FirstVersion(env: Env, state: State) returns (w: World)
    requires Faithful(env.codec) && First(env, state)
    ensures Reachable(env, w) && w.artifacts == map[] && 1 !in w.calls
    ensures |w.chain| == 1 && PlanOf(env, w.chain[0]) == SavePartial(state)
    ensures w.chain[0].desc.id == PartialId(state.results)
  {
    hide Reachable, Start, PartialId, Accounted, C.Submit, PartialRequest, PlanOf, Faithful;
    FirstAccepted(env, state);
    ReachEmpty(env);
    var w0 := World(map[], [], map[]);
    CallArrives(env, w0, 0, Execute, Executing);
    var w1 := w0.(calls := w0.calls[0 := Executing]);
    DecidingGoes(env, w1, 0, Saving(None, state));
    var w2 := w1.(calls := w1.calls[0 := Saving(None, state)]);
    var chain := C.Submit(env.sha, [], PartialRequest(env, None, state)).0;
    SavingGoes(env, w2, 0, chain);
    w := World(map[], chain, w2.calls[0 := Paused(state)]);
  }

  lemma {:induction false} FirstAccepted(env: Env, state: State)
    requires Faithful(env.codec) && Accounted(env.orderId, state)
    ensures var (chain, answer) := C.Submit(env.sha, [], PartialRequest(env, None, state));
            && answer.Ok? && |chain| == 1 && PlanOf(env, chain[0]) == SavePartial(state)
            && chain[0].desc.id == PartialId(state.results)
  {
    hide Accounted, C.Submit, C.ValidId, PartialId, PartialRequest;
    PartialIdValid(env.orderId, state);
    PartialAccepted(env, [], state);
  }

  /** A compensation stores its report and dies. */
  lemma {:induction false} CompensationDies(env: Env, state: State, report: Report, w: World) returns (w': World)
    requires Faithful(env.codec) && Compensate(state) == Finish(report)
    requires Reachable(env, w) && w.artifacts == map[] && 1 !in w.calls
    requires |w.chain| == 1 && PlanOf(env, w.chain[0]) == SavePartial(state)
    ensures Reachable(env, w') && w'.chain == w.chain && 1 !in w'.calls
    ensures ReportKey(env.runId) in w'.artifacts && IsReport(env, w'.artifacts[ReportKey(env.runId)], report)
  {
    var parent := Some(w.chain[0].desc.id);
    assert Continue(env, C.ChainLatest(w.chain), "compensate") == Reporting(parent, report);
    hide Reachable, PlanOf, Continue, Compensate;
    CallArrives(env, w, 1, Resume("compensate"), Resuming("compensate"));
    var w1 := w.(calls := w.calls[1 := Resuming("compensate")]);
    DecidingGoes(env, w1, 1, Reporting(parent, report));
    var w2 := w1.(calls := w1.calls[1 := Reporting(parent, report)]);
    var (artifacts, answer) := A.MemPut(env.hashes, w.artifacts, ReportRequest(env, report));
    assert answer.Ok? && ReportKey(env.runId) in artifacts && IsReport(env, artifacts[ReportKey(env.runId)], report);
    hide A.MemPut, ReportRequest, IsReport;
    ReportingGoes(env, w2, 1, artifacts);
    w' := World(artifacts, w.chain, w2.calls - {1});
  }

  /** A retry follows and saves its second partial version. */
  lemma {:induction false} RetryFollows(env: Env, state: State, next: State, w: World) returns (w': World)
    requires Faithful(env.codec) && Accounted(env.orderId, state) && RetryableOps(state.results) != []
    requires Retry(state) == SavePartial(next)
    requires Reachable(env, w) && 1 !in w.calls
    requires |w.chain| == 1 && PlanOf(env, w.chain[0]) == SavePartial(state)
    requires w.chain[0].desc.id == PartialId(state.results)
    ensures Reachable(env, w') && w'.artifacts == w.artifacts
    ensures |w'.chain| == 2 && w'.chain[0] == w.chain[0] && PlanOf(env, w'.chain[1]) == SavePartial(next)
  {
    hide Reachable, Continue, Retry, PartialId, C.Submit, Accounted, RetryableOps, PartialRequest;
    SecondAccepted(env, state, next, w.chain);
    var parent := Some(w.chain[0].desc.id);
    RetryContinues(env, w.chain, state, next);
    CallArrives(env, w, 1, Resume("retry_failed"), Resuming("retry_failed"));
    var w1 := w.(calls := w.calls[1 := Resuming("retry_failed")]);
    DecidingGoes(env, w1, 1, Saving(parent, next));
    var w2 := w1.(calls := w1.calls[1 := Saving(parent, next)]);
    var (chain, _) := C.Submit(env.sha, w.chain, PartialRequest(env, parent, next));
    SavingGoes(env, w2, 1, chain);
    w' := World(w.artifacts, chain, w2.calls[1 := Paused(next)]);
    assert chain[0] == chain[..1][0];
  }

  lemma RetryContinues(env: Env, chain: C.Chain, state: State, next: State)
    requires |chain| == 1 && PlanOf(env, chain[0]) == SavePartial(state) && Retry(state) == SavePartial(next)
    ensures C.HeadId(chain) == Some(chain[0].desc.id)
    ensures Continue(env, C.ChainLatest(chain), "retry_failed") == Saving(Some(chain[0].desc.id), next)
  {
    hide Retry, Compensate;
  }

  lemma {:induction false} SecondAccepted(env: Env, state: State, next: State, chain: C.Chain)
    requires Accounted(env.orderId, state) && RetryableOps(state.results) != [] && Retry(state) == SavePartial(next)
    requires |chain| == 1 && chain[0].desc.id == PartialId(state.results)
    ensures var (chain', answer) := C.Submit(env.sha, chain, PartialRequest(env, C.HeadId(chain), next));
            && answer.Ok? && |chain'| == 2 && chain'[..1] == chain
            && Last(chain').body == env.codec.encode(PartialDoc(next))
  {
    hide Accounted, RetryableOps, Retry, C.Submit, C.ValidId, PartialId;
    ContinueSound(env, state);
    PartialIdValid(env.orderId, state);
    PartialIdValid(env.orderId, next);
    PartialIdsDiffer(state.results, next.results);
    PartialAccepted(env, chain, next);
  }

  /** A stranded saga had a retryable and a fatal failure in its input. */
  lemma {:induction false} StrandedIsMixed(env: Env, w: World)
    requires Faithful(env.codec) && Inv(env, w) && Stranded(env, w)
    ensures MixedInput(env)
  {
    var n := |w.chain| - 1;
    assert PlanOf(env, w.chain[n]).SavePartial?;
    LineageOf(env, w);
    hide Inv, Stranded, MixedInput;
    RetriesRaise(env, w.chain, n);
    if n > 1 { RetriesRaise(env, w.chain, n - 1); }
    TwoPartials(env, w.chain);
  }

  lemma {:induction false} TwoPartials(env: Env, chain: C.Chain)
    requires Lineage(env, chain) && |chain| == 2 && PlanOf(env, chain[1]).SavePartial?
    ensures MixedInput(env)
  {
    RetriesRaise(env, chain, 1);
    VersionsSound(env, chain, 0);
    Predecessor(env, chain, 1);
    var first := PlanOf(env, chain[0]).state;
    assert Follows(env, chain, 0) && chain[..0] == [];
    CompensateReports(env.orderId, first);
    hide Accounted, Lineage, RetryableOps, Total, Reselect, Invoke, Undo, Succeeded, MixedInput;
    MixedFromRetry(env, first);
  }

  lemma FailureWasPlanned(orderId: string, plan: FailurePlan, r: Branch)
    requires ValidPlan(plan) && Sound(orderId, plan, r) && r.status == "failed"
    ensures r.operation in plan && plan[r.operation] == (if FailedRetryably(r) then "retryable" else "fatal")
  {}

  lemma {:induction false} RetryableInInput(orderId: string, state: State) returns (op: string)
    requires Accounted(orderId, state) && RetryableOps(state.results) != []
    ensures op in state.failurePlan && state.failurePlan[op] == "retryable"
  {
    hide RetryableOps, Failing;
    var r := SomeRetryable(state.results);
    assert Sound(orderId, state.failurePlan, r);
    hide Accounted, Sound;
    FailureWasPlanned(orderId, state.failurePlan, r);
    op := r.operation;
  }

  lemma {:induction false} FatalInInput(orderId: string, state: State) returns (op: string)
    requires Accounted(orderId, state) && Retry(state).SavePartial?
    ensures op in state.failurePlan && state.failurePlan[op] == "fatal"
  {
    var next := Invoke(Reselect(state));
    RetryReruns(orderId, state);
    var r :| r in next.results && r.status == "failed";
    assert next.failurePlan == state.failurePlan - (set o | o in RetryableOps(state.results));
    hide RetryableOps, Failing, Accounted, Sound, Invoke, Reselect;
    FailureWasPlanned(orderId, next.failurePlan, r);
    op := r.operation;
  }

  lemma FirstPlan(env: Env, first: State)
    requires Start(env) == SavePartial(first)
    ensures ParsePlan(env.plan) == Ok(first.failurePlan)
  {
    hide Failing, RunBranches;
  }

  lemma {:induction false} MixedFromRetry(env: Env, first: State)
    requires Start(env) == SavePartial(first) && Accounted(env.orderId, first)
    requires RetryableOps(first.results) != [] && Retry(first).SavePartial?
    ensures MixedInput(env)
  {
    hide Start, Accounted, RetryableOps, Retry, ParsePlan;
    FirstPlan(env, first);
    var a := RetryableInInput(env.orderId, first);
    var b := FatalInInput(env.orderId, first);
  }

  /** A saga can be stranded exactly when its input plans both a retryable and a fatal failure. */
  lemma {:induction false} StrandingIff(env: Env)
    requires Faithful(env.codec)
    ensures (exists w :: Reachable(env, w) && Stranded(env, w)) <==> MixedInput(env)
  {
    if w :| Reachable(env, w) && Stranded(env, w) {
      ReachableInv(env, w);
      StrandedIsMixed(env, w);
    }
    if MixedInput(env) {
      MixedPauses(env);
      var state := Start(env).state;
      var next := Retry(state).state;
      CompensateReports(env.orderId, state);
      var report := Compensate(state).report;
      hide Reachable, Start, Compensate, Retry, MixedInput, IsReport, Accounted, PlanOf;
      var w1 := FirstVersion(env, state);
      var w2 := CompensationDies(env, state, report, w1);
      var w3 := RetryFollows(env, state, next, w2);
      assert Stranded(env, w3);
    }
  }

  class SagaExecutable {
    const env: Env
    const artifactStore: A.MemoryArtifactStore
    const checkpointStore: M.MemoryCheckpointStore

    ghost predicate Valid()
      reads this, artifactStore, checkpointStore
    {
      && artifactStore.Valid() && artifactStore.sha == env.hashes
      && checkpointStore.Valid() && checkpointStore.sha == env.sha
    }

    ghost function After(pc: Pc): (A.Items, C.Chain, Pc)
      reads this, artifactStore, checkpointStore
    {
      Drive(env, artifactStore.items, checkpointStore.chain, pc)
    }

    constructor (env: Env, artifactStore: A.MemoryArtifactStore, checkpointStore: M.MemoryCheckpointStore)
      requires artifactStore.Valid() && artifactStore.sha == env.hashes
      requires checkpointStore.Valid() && checkpointStore.sha == env.sha
      ensures Valid()
      ensures this.env == env && this.artifactStore == artifactStore && this.checkpointStore == checkpointStore
    {
      this.env, this.artifactStore, this.checkpointStore := env, artifactStore, checkpointStore;
    }

    method Execute() returns (outcome: Pc)
      requires Valid()
      modifies artifactStore, checkpointStore
      ensures Valid() && (artifactStore.items, checkpointStore.chain, outcome) == old(After(Executing))
    {
      DriveOn(env, artifactStore.items, checkpointStore.chain, Executing);
      match ParsePlan(env.plan) {
        case Err(failure) => return Failed(failure);
        case Ok(plan) =>
          var state := Begin(env.orderId, plan);
          var results := ExecuteBranches(state);
          outcome := ReconcileResults(state.(results := results), None);
      }
    }

    method Resume(action: string) returns (outcome: Pc)
      requires Valid()
      modifies artifactStore, checkpointStore
      ensures Valid() && (artifactStore.items, checkpointStore.chain, outcome) == old(After(Resuming(action)))
    {
      DriveOn(env, artifactStore.items, checkpointStore.chain, Resuming(action));
      var stored := checkpointStore.LoadLatest();
      if stored.None? {
        return Failed(Unavailable);
      }
      var raw := env.codec.decode(stored.value.body);
      if raw.None? {
        return Failed(BadDocument);
      }
      if action == "retry_failed" {
        if raw.value.ReportDoc? {
          return Failed(MissingField);
        }
        var state := Reselect(raw.value.state);
        var results := ExecuteBranches(state);
        outcome := ReconcileResults(state.(results := results), Some(stored.value.desc.id));
      } else if action == "compensate" {
        if raw.value.ReportDoc? {
          return Failed(MissingField);
        }
        outcome := CompensateResults(raw.value.state, Some(stored.value.desc.id));
      } else {
        outcome := Failed(BadAction);
      }
    }

    method ReconcileResults(state: State, parent: Option<string>) returns (outcome: Pc)
      requires Valid()
      modifies artifactStore, checkpointStore
      ensures Valid()
      ensures (artifactStore.items, checkpointStore.chain, outcome) == old(After(Pursue(parent, Reconcile(state))))
    {
      if exists r :: r in state.results && r.status == "failed" {
        var partial := State(state.orderId, state.failurePlan, AttemptsOf(state.results), [], state.results);
        DriveOn(env, artifactStore.items, checkpointStore.chain, Saving(parent, partial));
        var answer := SubmitVersion(PartialRequest(env, parent, partial));
        outcome := if answer.Ok? then Paused(partial) else CheckpointRefused(answer.error);
      } else {
        outcome := Finalize(parent, Report(state.orderId, "completed", state.results, []));
      }
    }

    method CompensateResults(state: State, parent: Option<string>) returns (outcome: Pc)
      requires Valid()
      modifies artifactStore, checkpointStore
      ensures Valid()
      ensures (artifactStore.items, checkpointStore.chain, outcome) == old(After(Pursue(parent, Compensate(state))))
    {
      var undone := Compensations(state.orderId, Succeeded(state.results));
      match undone {
        case None => return Failed(MissingField);
        case Some(compensations) =>
          outcome := Finalize(parent, Report(state.orderId, "compensated", state.results, compensations));
      }
    }

    method Finalize(parent: Option<string>, report: Report) returns (outcome: Pc)
      requires Valid()
      modifies artifactStore, checkpointStore
      ensures Valid()
      ensures (artifactStore.items, checkpointStore.chain, outcome) == old(After(Reporting(parent, report)))
    {
      DriveOn(env, artifactStore.items, checkpointStore.chain, Reporting(parent, report));
      var stored := artifactStore.Put(ReportRequest(env, report));
      if stored.Err? {
        return ArtifactRefused(stored.error);
      }
      DriveOn(env, artifactStore.items, checkpointStore.chain, Finalizing(parent, report));
      var answer := SubmitVersion(FinalRequest(env, parent, report));
      outcome := if answer.Ok? then Finished(report) else CheckpointRefused(answer.error);
    }

    method SubmitVersion(req: C.WriteRequest) returns (answer: Result<C.StoredCheckpoint, C.Error>)
      requires Valid()
      modifies checkpointStore
      ensures Valid() && (checkpointStore.chain, answer) == C.Submit(env.sha, old(checkpointStore.chain), req)
    {
      var refusal := C.CheckRequest(req);
      if refusal.Some? {
        return Err(refusal.value);
      }
      answer := checkpointStore.Save(req);
    }
  }
}
