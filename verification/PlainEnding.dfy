/** When a waiting confirmation can still be decided: exactly while its state can be read. */
module PlainEnding {
  import opened Prelude
  import opened PlainWorkflow
  import C = CheckpointChain
  import A = Artifacts
  import M = MemoryCheckpoint
  import Metadata

  /** A stored body that resuming accepts. */
  predicate Readable(env: Env, body: Bytes) {
    && env.codec.decode(body).Some?
    && MigrateState(env.codec.decode(body).value).Ok?
    && var state := MigrateState(env.codec.decode(body).value).value;
       && Get(state, "phase", None) == Some(Text("awaiting_confirmation"))
       && "subject" in state.fields && "message" in state.fields
  }

  function StateOf(env: Env, body: Bytes): (state: Doc)
    requires Readable(env, body)
    ensures "subject" in state.fields && "message" in state.fields
  {
    MigrateState(env.codec.decode(body).value).value
  }

  function VerdictOf(action: string): Option<Verdict> {
    if action == "confirm" then Some(Confirmed) else if action == "cancel" then Some(Cancelled) else None
  }

  /** The decision a resumed call arrives at. */
  function Decision(env: Env, body: Bytes, verdict: Verdict, note: string): Bytes
    requires Readable(env, body)
  {
    env.codec.encode(DecisionDoc(StateOf(env, body), verdict, note))
  }

  // ----- a resumed call on its own -----

  lemma DecidesWhen(env: Env, stored: C.Entry, action: string, note: string)
    ensures var pc := Decide(env, Ok(Some(stored)), action, note);
            if Readable(env, stored.body) && VerdictOf(action).Some? then
              var verdict := VerdictOf(action).value;
              pc == Deciding(stored, verdict, Decision(env, stored.body, verdict, note))
            else pc.Failed?
  {}

  lemma DecidesNothing(env: Env, loaded: Result<Option<C.Entry>, C.Error>, action: string, note: string)
    requires loaded.Err? || loaded.value.None?
    ensures Decide(env, loaded, action, note).Failed?
  {}

  lemma {:induction false} PutDecision(env: Env, w: World, verdict: Verdict, body: Bytes)
    requires Faithful(env.codec) && Inv(env, w)
    requires IsDecision(env, A.Record(A.Describe(env.hashes, DecisionRequest(env.runId, verdict, body)), body), verdict)
    ensures A.MemPut(env.hashes, w.artifacts, DecisionRequest(env.runId, verdict, body)).1.Ok? <==>
              (DecisionKey(env.runId) in w.artifacts ==> w.artifacts[DecisionKey(env.runId)].body == body)
  {
    var key, req := DecisionKey(env.runId), DecisionRequest(env.runId, verdict, body);
    var candidate := A.Record(A.Describe(env.hashes, req), body);
    Metadata.HostEqReflexive(req.metadata);
    if key in w.artifacts && w.artifacts[key].body == body {
      var stored :| IsDecision(env, w.artifacts[key], stored);
      VerdictReadable(env, w.artifacts[key], candidate, stored, verdict);
    }
  }

  lemma IdsValid(verdict: Verdict)
    ensures C.ValidId(AWAITING) && C.ValidId(FinalId(verdict)) && FinalId(verdict) != AWAITING
  {
    DistinctIds();
  }

  /** The final version of a waiting stream is always accepted. */
  lemma {:induction false} FinalAccepted(env: Env, chain: C.Chain, verdict: Verdict, body: Bytes)
    requires |chain| == 1 && chain[0].desc.id == AWAITING
    ensures C.Submit(env.sha, chain, FinalRequest(AWAITING, verdict, body)).1.Ok?
  {
    hide C.ValidId, FinalId;
    IdsValid(verdict);
    assert Front(chain) == [];
  }

  lemma {:induction false} LoadsWaiting(env: Env, w: World, checkpointId: Option<string>)
    requires Inv(env, w) && |w.chain| == 1
    ensures Load(w.chain, checkpointId) == Ok(Some(w.chain[0])) <==> checkpointId in {None, Some(AWAITING)}
    ensures checkpointId !in {None, Some(AWAITING)} ==>
              Load(w.chain, checkpointId).Err? || Load(w.chain, checkpointId) == Ok(None)
  {}

  /** What has to hold for a resumed call to decide: it names the waiting version, that version can be
      read, the action is one of the two, and no other decision is stored. */
  ghost predicate CanDecide(env: Env, w: World, checkpointId: Option<string>, action: string, note: string)
    requires w.chain != []
  {
    var key, body := DecisionKey(env.runId), w.chain[0].body;
    && checkpointId in {None, Some(AWAITING)}
    && Readable(env, body) && VerdictOf(action).Some?
    && (key in w.artifacts ==> w.artifacts[key].body == Decision(env, body, VerdictOf(action).value, note))
  }

  /** On a waiting stream a resumed call, alone, decides if and only if that holds. */
  lemma {:induction false} ResumeDecidesIff(
      env: Env, w: World, checkpointId: Option<string>, action: string, note: string)
    requires Faithful(env.codec) && Inv(env, w) && |w.chain| == 1
    ensures Drive(env, w.artifacts, w.chain, Resuming(checkpointId, action, note)).2.Decided? <==>
              CanDecide(env, w, checkpointId, action, note)
  {
    hide Drive, Load, Decide, Readable, Inv, IsDecision;
    LoadsWaiting(env, w, checkpointId);
    DriveOn(env, w.artifacts, w.chain, Resuming(checkpointId, action, note));
    if checkpointId in {None, Some(AWAITING)} {
      DecidesWhen(env, w.chain[0], action, note);
    } else {
      DecidesNothing(env, Load(w.chain, checkpointId), action, note);
    }
    if checkpointId in {None, Some(AWAITING)} && Readable(env, w.chain[0].body) && VerdictOf(action).Some? {
      DecidingDecidesIff(env, w, VerdictOf(action).value, note);
    }
  }

  lemma {:induction false} DecidingDecidesIff(env: Env, w: World, verdict: Verdict, note: string)
    requires Faithful(env.codec) && Inv(env, w) && |w.chain| == 1 && Readable(env, w.chain[0].body)
    ensures var key, body := DecisionKey(env.runId), Decision(env, w.chain[0].body, verdict, note);
            Drive(env, w.artifacts, w.chain, Deciding(w.chain[0], verdict, body)).2.Decided? <==>
              (key in w.artifacts ==> w.artifacts[key].body == body)
  {
    var body := Decision(env, w.chain[0].body, verdict, note);
    var candidate := A.Record(A.Describe(env.hashes, DecisionRequest(env.runId, verdict, body)), body);
    assert IsDecision(env, candidate, verdict);
    PutDecision(env, w, verdict, body);
    FinalAccepted(env, w.chain, verdict, body);
    hide Drive, IsDecision, Decision, Inv, DecisionRequest, FinalRequest;
    DriveOn(env, w.artifacts, w.chain, Deciding(w.chain[0], verdict, body));
    var (artifacts, answer) := A.MemPut(env.hashes, w.artifacts, DecisionRequest(env.runId, verdict, body));
    if answer.Ok? { DriveOn(env, artifacts, w.chain, Finalizing(AWAITING, verdict, body)); }
  }

  // ----- decisions are made from the waiting version -----

  ghost predicate Made(env: Env, chain: C.Chain, verdict: Verdict, body: Bytes) {
    chain != [] && Readable(env, chain[0].body) && exists note :: body == Decision(env, chain[0].body, verdict, note)
  }

  ghost predicate CallRooted(env: Env, w: World, pc: Pc) {
    match pc
    case Deciding(_, verdict, body) => Made(env, w.chain, verdict, body)
    case Finalizing(_, verdict, body) => Made(env, w.chain, verdict, body)
    case _ => true
  }

  /** The stored decision, and every decision under way, was made from the waiting version. */
  ghost predicate Rooted(env: Env, w: World) {
    && (DecisionKey(env.runId) in w.artifacts ==>
          exists verdict :: Made(env, w.chain, verdict, w.artifacts[DecisionKey(env.runId)].body))
    && (forall id :: id in w.calls ==> CallRooted(env, w, w.calls[id]))
  }

  lemma {:induction false} StillMade(env: Env, chain: C.Chain, chain': C.Chain, verdict: Verdict, body: Bytes)
    requires Made(env, chain, verdict, body) && chain <= chain'
    ensures Made(env, chain', verdict, body)
  {}

  lemma {:induction false} StaysRooted(env: Env, w: World, w': World, pc: Pc)
    requires CallRooted(env, w, pc) && w.chain <= w'.chain
    ensures CallRooted(env, w', pc)
  {
    hide Made;
    if pc.Deciding? || pc.Finalizing? { StillMade(env, w.chain, w'.chain, pc.verdict, pc.body); }
  }

  /** The version a call decides on is the first one. */
  lemma {:induction false} DecidesFromFirst(
      env: Env, w: World, checkpointId: Option<string>, action: string, note: string)
    requires Faithful(env.codec) && Inv(env, w)
    ensures CallRooted(env, w, Decide(env, Load(w.chain, checkpointId), action, note))
  {
    var loaded := Load(w.chain, checkpointId);
    if loaded.Err? || loaded.value.None? {
      DecidesNothing(env, loaded, action, note);
    } else {
      var stored := loaded.value.value;
      DecidesWhen(env, stored, action, note);
      if Decide(env, loaded, action, note).Deciding? {
        DecidesOnAwaiting(env, w, checkpointId, action, note);
        assert stored in w.chain;
        hide IsDecision, Decide, Readable;
        OnlyFirstWaits(env, w, stored);
      }
    }
  }

  lemma {:induction false} OnlyFirstWaits(env: Env, w: World, stored: C.Entry)
    requires Inv(env, w) && stored in w.chain && stored.desc.id == AWAITING
    ensures stored == w.chain[0]
  {
    DistinctIds();
  }

  lemma {:induction false} ActionKeepsRooted(env: Env, w: World, action: Action)
    requires Faithful(env.codec) && Inv(env, w) && Rooted(env, w) && Enabled(w, action)
    ensures Rooted(env, Perform(env, w, action))
  {
    var w', key := Perform(env, w, action), DecisionKey(env.runId);
    ActionKeepsInv(env, w, action);
    hide Inv, Made;
    forall id | id in w'.calls ensures CallRooted(env, w', w'.calls[id]) {
      if id in w.calls && w'.calls[id] == w.calls[id] { StaysRooted(env, w, w', w.calls[id]); }
      else if action.Step? && w.calls[id].Resuming? {
        DecidesFromFirst(env, w, w.calls[id].checkpointId, w.calls[id].action, w.calls[id].note);
      } else if action.Step? { StaysRooted(env, w, w', w.calls[id]); }
    }
    if key in w.artifacts {
      var verdict :| Made(env, w.chain, verdict, w.artifacts[key].body);
      StillMade(env, w.chain, w'.chain, verdict, w.artifacts[key].body);
    } else if key in w'.artifacts {
      assert CallRooted(env, w, w.calls[action.id]);
    }
  }

  lemma {:induction false} RunKeepsRooted(env: Env, worlds: seq<World>, actions: seq<Action>, i: nat)
    requires Faithful(env.codec) && Run(env, worlds, actions) && i < |worlds|
    ensures Inv(env, worlds[i]) && Rooted(env, worlds[i])
  {
    RunKeepsInv(env, worlds, actions, i);
    if i > 0 {
      assert actions[i - 1] == actions[i - 1];
      RunKeepsRooted(env, worlds, actions, i - 1);
      hide Inv, Rooted, Enabled, Perform, Initial;
      ActionKeepsRooted(env, worlds[i - 1], actions[i - 1]);
    }
  }

  // ----- no waiting confirmation is lost -----

  /** Some resumed call, left alone, decides. */
  ghost predicate Decidable(env: Env, w: World) {
    exists checkpointId, action, note ::
      Drive(env, w.artifacts, w.chain, Resuming(checkpointId, action, note)).2.Decided?
  }

  /** A waiting stream can be decided if and only if its version can be read: a decision that was stored
      by a call that died never blocks it, because repeating that decision ends it. */
  lemma {:induction false} DecidableIff(env: Env, w: World)
    requires Faithful(env.codec) && Inv(env, w) && Rooted(env, w) && |w.chain| == 1
    ensures Decidable(env, w) <==> Readable(env, w.chain[0].body)
  {
    hide Drive, Inv, Readable, Decision;
    if checkpointId, action, note :|
      Drive(env, w.artifacts, w.chain, Resuming(checkpointId, action, note)).2.Decided?
    {
      ResumeDecidesIff(env, w, checkpointId, action, note);
    }
    if Readable(env, w.chain[0].body) {
      var action, note := RepeatsDecision(env, w);
      ResumeDecidesIff(env, w, None, action, note);
    }
  }

  lemma {:induction false} RepeatsDecision(env: Env, w: World) returns (action: string, note: string)
    requires Rooted(env, w) && w.chain != [] && Readable(env, w.chain[0].body)
    ensures CanDecide(env, w, None, action, note)
  {
    hide Readable, Decision;
    var key := DecisionKey(env.runId);
    if key in w.artifacts {
      var verdict :| Made(env, w.chain, verdict, w.artifacts[key].body);
      note :| w.artifacts[key].body == Decision(env, w.chain[0].body, verdict, note);
      action := if verdict.Confirmed? then "confirm" else "cancel";
    } else {
      action, note := "confirm", "";
    }
  }

  /** While the waiting version cannot be read, no call decides, however calls interleave. */
  lemma {:induction false} UnreadableIsNeverDecided(
      env: Env, worlds: seq<World>, actions: seq<Action>, i: nat, j: nat, a: nat)
    requires Faithful(env.codec) && Run(env, worlds, actions) && i <= j < |worlds|
    requires worlds[i].chain != [] && !Readable(env, worlds[i].chain[0].body)
    ensures a in worlds[j].calls ==> !worlds[j].calls[a].Decided?
  {
    RunExtends(env, worlds, actions, i, j);
    RunKeepsRooted(env, worlds, actions, j);
    hide Run, Readable, StreamShape, IsDecision;
    if a in worlds[j].calls { assert CallOk(env, worlds[j], worlds[j].calls[a]); }
  }

  /** One of the first n actions of the run was a call of `execute` with these texts. */
  ghost predicate Asked(actions: seq<Action>, n: nat, subject: string, message: string) {
    exists k, id :: 0 <= k < n <= |actions| && actions[k] == Begin(id, Execute(subject, message))
  }

  ghost predicate AsAsked(env: Env, w: World, actions: seq<Action>, n: nat) {
    && (forall id :: id in w.calls && w.calls[id].Executing? ==>
          Asked(actions, n, w.calls[id].subject, w.calls[id].message))
    && (w.chain != [] ==>
          exists subject, message ::
            Asked(actions, n, subject, message) && w.chain[0].body == env.codec.encode(AwaitingDoc(subject, message)))
  }

  lemma AskedStill(actions: seq<Action>, n: nat, subject: string, message: string)
    requires Asked(actions, n, subject, message) && n < |actions|
    ensures Asked(actions, n + 1, subject, message)
  {}

  lemma {:induction false} ActionAsAsked(env: Env, w: World, actions: seq<Action>, n: nat)
    requires Inv(env, w) && n < |actions| && Enabled(w, actions[n]) && AsAsked(env, w, actions, n)
    requires w.chain <= Perform(env, w, actions[n]).chain
    ensures AsAsked(env, Perform(env, w, actions[n]), actions, n + 1)
  {
    var w' := Perform(env, w, actions[n]);
    hide Asked, IsDecision, Decide, C.CheckRequest;
    forall id | id in w'.calls && w'.calls[id].Executing?
      ensures Asked(actions, n + 1, w'.calls[id].subject, w'.calls[id].message)
    {
      if id in w.calls && w.calls[id] == w'.calls[id] {
        AskedStill(actions, n, w.calls[id].subject, w.calls[id].message);
      } else {
        BegunNow(env, w, actions, n, id);
      }
    }
    if w.chain != [] {
      var subject, message :| Asked(actions, n, subject, message)
                              && w.chain[0].body == env.codec.encode(AwaitingDoc(subject, message));
      AskedStill(actions, n, subject, message);
    } else if w'.chain != [] {
      assert CallOk(env, w, w.calls[actions[n].id]);
      var pc := w.calls[actions[n].id];
      AskedStill(actions, n, pc.subject, pc.message);
      assert w'.chain[0].body == env.codec.encode(AwaitingDoc(pc.subject, pc.message));
    }
  }

  lemma BegunNow(env: Env, w: World, actions: seq<Action>, n: nat, id: nat)
    requires n < |actions| && Enabled(w, actions[n])
    requires var w' := Perform(env, w, actions[n]);
             id in w'.calls && w'.calls[id].Executing? && !(id in w.calls && w.calls[id] == w'.calls[id])
    ensures var pc := Perform(env, w, actions[n]).calls[id]; Asked(actions, n + 1, pc.subject, pc.message)
  {
    hide Readable, MigrateState;
    var pc := Perform(env, w, actions[n]).calls[id];
    assert actions[n] == Begin(id, Execute(pc.subject, pc.message));
  }

  lemma NothingAsked(env: Env, w: World, actions: seq<Action>)
    requires Initial(env, w) && w.chain == []
    ensures AsAsked(env, w, actions, 0)
  {}

  lemma {:induction false} NextAsAsked(env: Env, w: World, actions: seq<Action>, n: nat)
    requires Faithful(env.codec) && Inv(env, w) && n < |actions| && Enabled(w, actions[n])
    requires AsAsked(env, w, actions, n)
    ensures AsAsked(env, Perform(env, w, actions[n]), actions, n + 1)
  {
    hide Inv, AsAsked, Perform, Enabled;
    ActionKeepsInv(env, w, actions[n]);
    ActionAsAsked(env, w, actions, n);
  }

  /** The waiting version says what some call of `execute` was asked to confirm. */
  lemma {:induction false} WaitsAsAsked(env: Env, worlds: seq<World>, actions: seq<Action>, i: nat)
    requires Faithful(env.codec) && Run(env, worlds, actions) && worlds[0].chain == [] && i < |worlds|
    ensures AsAsked(env, worlds[i], actions, i)
  {
    hide Inv, AsAsked, Perform, Enabled, Initial;
    if i == 0 {
      NothingAsked(env, worlds[0], actions);
    } else {
      assert actions[i - 1] == actions[i - 1];
      WaitsAsAsked(env, worlds, actions, i - 1);
      RunKeepsInv(env, worlds, actions, i - 1);
      NextAsAsked(env, worlds[i - 1], actions, i - 1);
    }
  }

  /** So a confirmation that `execute` began can be decided in every world in which it waits. */
  lemma {:induction false} ExecutedStaysDecidable(env: Env, worlds: seq<World>, actions: seq<Action>, i: nat)
    requires Faithful(env.codec) && Run(env, worlds, actions) && worlds[0].chain == []
    requires i < |worlds| && |worlds[i].chain| == 1
    ensures Decidable(env, worlds[i])
  {
    RunKeepsRooted(env, worlds, actions, i);
    WaitsAsAsked(env, worlds, actions, i);
    hide Run, Inv, Rooted, Decidable;
    var subject, message :| worlds[i].chain[0].body == env.codec.encode(AwaitingDoc(subject, message));
    assert Readable(env, worlds[i].chain[0].body);
    DecidableIff(env, worlds[i]);
  }
}
