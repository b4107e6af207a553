/** The saga on a disk: its versions in a stream directory, its report on the artifact shelf, every
    file operation of both interleaved with whatever else happens and cut off anywhere. */
module DurableSaga {
  import opened Prelude
  import C = CheckpointChain
  import D = CheckpointDisk
  import Recovery = CheckpointRecovery
  import Save = CheckpointSave
  import Stream = CheckpointRuns
  import A = Artifacts
  import S = SagaWorkflow
  import Saga

  /** A call that is storing its report is the writer of its own name in the artifact store. */
  datatype World = World(fs: D.Fs, store: A.System, calls: map<nat, S.Pc>)

  /** `Cut` ends a call inside its access to the stream directory and leaves any of the directories
      that a crash may leave.  A power failure is a `Cut`, or an `Outside` crash, and the end of every
      other call.  `Outside` is whatever readers and other streams do to the directory. */
  datatype Action =
    | Arrive(id: nat, call: S.Call)
    | Decide(id: nat)
    | Refuse(id: nat)
    | Access(id: nat, answer: Stream.Answer, unlinks: bool)
    | Cut(id: nat, unlinks: bool, at: nat, left: D.Disk)
    | BeginPut(id: nat)
    | StepPut(id: nat)
    | EndPut(id: nat)
    | Die(id: nat)
    | Outside(event: Stream.Event)

  predicate AtStream(pc: S.Pc) {
    pc.Resuming? || pc.Saving? || pc.Finalizing?
  }

  function RequestOf(env: S.Env, pc: S.Pc): C.WriteRequest
    requires pc.Saving? || pc.Finalizing?
  {
    if pc.Saving? then S.PartialRequest(env, pc.parent, pc.state) else S.FinalRequest(env, pc.parent, pc.report)
  }

  /** Why the request of a save cannot even be built. */
  function Refusal(env: S.Env, pc: S.Pc): Option<C.Error>
    requires AtStream(pc)
  {
    if pc.Resuming? then None else C.CheckRequest(RequestOf(env, pc))
  }

  function AccessOf(env: S.Env, pc: S.Pc): Stream.Call
    requires AtStream(pc)
  {
    if pc.Resuming? then Stream.LatestCall else Stream.SaveCall(RequestOf(env, pc))
  }

  /** Where a call goes on with the answer of the checkpoint store. */
  function Receive(env: S.Env, pc: S.Pc, answer: Stream.Answer): S.Pc
    requires AtStream(pc)
  {
    match answer
    case Read(Ok(latest)) => if pc.Resuming? then S.Continue(env, latest, pc.action) else pc
    case Saved(Ok(_)) =>
      if pc.Saving? then S.Paused(pc.state) else if pc.Finalizing? then S.Finished(pc.report) else pc
    case Read(Err(error)) => S.CheckpointRefused(error)
    case Saved(Err(error)) => S.CheckpointRefused(error)
    case Listed(_) => pc
  }

  function AfterPut(pc: S.Pc, answer: A.Answer): S.Pc
    requires pc.Reporting?
  {
    if answer.Ok? then S.Finalizing(pc.parent, pc.report) else S.ArtifactRefused(answer.error)
  }

  ghost predicate Accesses(env: S.Env, w: World, id: nat) {
    id in w.calls && AtStream(w.calls[id]) && Refusal(env, w.calls[id]).None?
  }

  predicate ByOthers(event: Stream.Event) {
    match event
    case Completed(call, _, _) => !call.SaveCall?
    case Crashed(call, _, _, _) => !call.SaveCall?
    case OtherStream(_) => true
  }

  ghost predicate Happens(env: S.Env, w: World, action: Action, w': World) {
    match action
    case Arrive(id, call) =>
      id !in w.calls && id !in w.store.used && w' == w.(calls := w.calls[id := S.Opened(call)])
    case Decide(id) =>
      && id in w.calls && w.calls[id].Executing?
      && w' == w.(calls := w.calls[id := S.Pursue(None, S.Start(env))])
    case Refuse(id) =>
      && id in w.calls && AtStream(w.calls[id]) && Refusal(env, w.calls[id]).Some?
      && w' == w.(calls := w.calls[id := S.CheckpointRefused(Refusal(env, w.calls[id]).value)])
    case Access(id, answer, unlinks) =>
      && Accesses(env, w, id)
      && Stream.Happens(env.sha, w.fs, Stream.Completed(AccessOf(env, w.calls[id]), answer, unlinks), w'.fs)
      && w' == World(w'.fs, w.store, w.calls[id := Receive(env, w.calls[id], answer)])
    case Cut(id, unlinks, at, left) =>
      && Accesses(env, w, id)
      && Stream.Happens(env.sha, w.fs, Stream.Crashed(AccessOf(env, w.calls[id]), unlinks, at, left), w'.fs)
      && w' == World(w'.fs, w.store, w.calls - {id})
    case BeginPut(id) =>
      && id in w.calls && w.calls[id].Reporting? && id !in w.store.used
      && w' == w.(store := A.Perform(env.hashes, w.store, A.Begin(id, S.ReportRequest(env, w.calls[id].report))))
    case StepPut(id) =>
      A.Enabled(w.store, A.Step(id)) && w' == w.(store := A.Perform(env.hashes, w.store, A.Step(id)))
    case EndPut(id) =>
      && id in w.store.writers && w.store.writers[id].pc.Finished? && id in w.calls && w.calls[id].Reporting?
      && w' == World(w.fs, A.Perform(env.hashes, w.store, A.Die(id)),
                     w.calls[id := AfterPut(w.calls[id], w.store.writers[id].pc.answer)])
    case Die(id) =>
      id in w.calls && w' == World(w.fs, WithoutWriter(env, w.store, id), w.calls - {id})
    case Outside(event) =>
      ByOthers(event) && Stream.Happens(env.sha, w.fs, event, w'.fs) && w' == w.(fs := w'.fs)
  }

  ghost function WithoutWriter(env: S.Env, store: A.System, id: nat): A.System {
    if id in store.writers then A.Perform(env.hashes, store, A.Die(id)) else store
  }

  ghost predicate Run(env: S.Env, states: seq<World>, actions: seq<Action>) {
    && |states| == |actions| + 1
    && states[0] == World(D.Fs(D.EMPTY, D.SYNCED), A.EMPTY, map[])
    && forall i {:trigger actions[i]} :: 0 <= i < |actions| ==> Happens(env, states[i], actions[i], states[i + 1])
  }

  /** What is written and looked up comes from the given sets, on which digests are to be distinct. */
  ghost predicate Draws(env: S.Env, w: World, action: Action, bodies: set<Bytes>, ids: set<string>) {
    match action
    case Access(id, answer, unlinks) =>
      Accesses(env, w, id) ==>
        Stream.Draws(Stream.Completed(AccessOf(env, w.calls[id]), answer, unlinks), bodies, ids)
    case Cut(id, unlinks, at, left) =>
      Accesses(env, w, id) ==>
        Stream.Draws(Stream.Crashed(AccessOf(env, w.calls[id]), unlinks, at, left), bodies, ids)
    case Outside(event) => Stream.Draws(event, bodies, ids)
    case _ => true
  }

  // ----- what a world on disk stands for -----

  /** A call whose write has taken effect is past it, though it does not know the answer yet. */
  ghost function Standing(env: S.Env, w: World, id: nat): S.Pc
    requires id in w.calls
  {
    var pc := w.calls[id];
    if pc.Reporting? && id in w.store.writers then
      var slot := w.store.writers[id].slot;
      if slot.Some? && slot.value < |w.store.log| then
        AfterPut(pc, A.Replied(env.hashes, w.store.log, slot.value))
      else pc
    else pc
  }

  /** Only a refused call may have been taken for dead: it met an intent that could not be removed,
      or two artifacts with one digest. */
  ghost predicate CallFits(env: S.Env, w: World, v: S.World, id: nat)
    requires id in w.calls
  {
    if id in v.calls then v.calls[id] == Standing(env, w, id)
    else w.calls[id].CheckpointRefused? || w.calls[id].ArtifactRefused?
  }

  ghost predicate WriterFits(env: S.Env, w: World, id: nat)
    requires id in w.store.writers
  {
    && id in w.calls && w.calls[id].Reporting?
    && w.store.writers[id].req == S.ReportRequest(env, w.calls[id].report)
  }

  ghost predicate StreamFits(env: S.Env, fs: D.Fs, chain: C.Chain, bodies: set<Bytes>, ids: set<string>) {
    Recovery.Startable(env.sha, fs, chain) && Stream.Known(env.sha, fs.disk, chain, bodies, ids)
  }

  ghost predicate CallsFit(env: S.Env, w: World, v: S.World) {
    && (forall id :: id in w.store.writers ==> WriterFits(env, w, id))
    && (forall id :: id in v.calls ==> id in w.calls)
    && (forall id :: id in w.calls ==> CallFits(env, w, v, id))
  }

  ghost predicate Models(env: S.Env, w: World, v: S.World, bodies: set<Bytes>, ids: set<string>) {
    && StreamFits(env, w.fs, v.chain, bodies, ids)
    && A.Inv(env.hashes, w.store) && v.artifacts == A.Replay(env.hashes, w.store.log)
    && CallsFit(env, w, v)
  }

  // ----- one action on disk -----

  /** Nothing that happens to one writer concerns the call of another. */
  lemma {:induction false} StandingStays(env: S.Env, w: World, w': World, id: nat)
    requires A.Inv(env.hashes, w.store) && w.store.log <= w'.store.log
    requires id in w.calls && id in w'.calls && w'.calls[id] == w.calls[id]
    requires id in w.store.writers <==> id in w'.store.writers
    requires id in w.store.writers ==>
               id in w'.store.writers && w'.store.writers[id].slot == w.store.writers[id].slot
    ensures Standing(env, w', id) == Standing(env, w, id)
  {
    if id in w.store.writers && w.store.writers[id].slot.Some? {
      assert A.WriterOk(env.hashes, w.store, id, w.store.writers[id]);
      A.RepliedStable(env.hashes, w.store.log, w'.store.log, w.store.writers[id].slot.value);
    }
  }

  /** The calls still fit after one of them has changed, in both worlds alike, and its writer has gone. */
  lemma {:induction false} OneCallChanges(
      env: S.Env, w: World, v: S.World, w': World, v': S.World, id: nat)
    requires CallsFit(env, w, v) && A.Inv(env.hashes, w.store) && w'.store == WithoutWriter(env, w.store, id)
    requires forall other :: other != id ==> (other in w'.calls <==> other in w.calls)
    requires forall other :: other != id ==> (other in v'.calls <==> other in v.calls)
    requires forall other :: other != id && other in w.calls ==> w'.calls[other] == w.calls[other]
    requires forall other :: other != id && other in v.calls ==> v'.calls[other] == v.calls[other]
    requires id in v'.calls ==> id in w'.calls
    requires id in w'.calls ==> CallFits(env, w', v', id)
    ensures CallsFit(env, w', v')
  {
    hide A.Inv;
    forall other | other in w'.calls ensures CallFits(env, w', v', other) {
      if other != id {
        assert CallFits(env, w, v, other);
        StandingStays(env, w, w', other);
      }
    }
    forall other | other in w'.store.writers ensures WriterFits(env, w', other) {
      assert WriterFits(env, w, other);
    }
  }

  /** An answered access is the step of the reference machine, unless the store refused it for an
      intent it could not remove. */
  lemma {:induction false} AccessIsStep(
      env: S.Env, v: S.World, id: nat, answer: Stream.Answer, unlinks: bool, chain: C.Chain)
    requires id in v.calls && AtStream(v.calls[id]) && Refusal(env, v.calls[id]).None?
    requires Stream.Explained(
               env.sha, v.chain, Stream.Completed(AccessOf(env, v.calls[id]), answer, unlinks), chain)
    ensures || S.Perform(env, v, S.Step(id))
               == S.World(v.artifacts, chain, v.calls[id := Receive(env, v.calls[id], answer)])
            || (chain == v.chain && Receive(env, v.calls[id], answer).CheckpointRefused?)
  {
    hide C.CheckRequest, C.ChainSave, S.Continue, S.PartialRequest, S.FinalRequest;
  }

  lemma {:induction false} AccessSimulated(
      env: S.Env, w: World, v: S.World, id: nat, answer: Stream.Answer, unlinks: bool, w': World,
      bodies: set<Bytes>, ids: set<string>) returns (steps: seq<S.Action>, v': S.World)
    requires Models(env, w, v, bodies, ids) && Stream.Apart(env.sha, bodies, ids)
    requires Happens(env, w, Access(id, answer, unlinks), w')
    requires Draws(env, w, Access(id, answer, unlinks), bodies, ids)
    ensures S.Leads(env, v, steps, v') && Models(env, w', v', bodies, ids)
  {
    hide S.Leads, Stream.Happens, Stream.Draws, Stream.Explained, Recovery.Startable, Stream.Known, Stream.Apart;
    hide A.Inv, A.Replay, Receive, Refusal, S.Perform, AccessOf;
    var pc := w.calls[id];
    assert CallFits(env, w, v, id);
    assert id in v.calls && v.calls[id] == pc;
    var event := Stream.Completed(AccessOf(env, pc), answer, unlinks);
    var chain := Stream.EventExplained(env.sha, w.fs, v.chain, event, w'.fs, bodies, ids);
    AccessIsStep(env, v, id, answer, unlinks, chain);
    var stepped := S.World(v.artifacts, chain, v.calls[id := Receive(env, pc, answer)]);
    if S.Perform(env, v, S.Step(id)) == stepped {
      steps, v' := [S.Step(id)], stepped;
      S.LeadsOne(env, v, S.Step(id));
    } else {
      steps, v' := [S.Die(id)], v.(calls := v.calls - {id});
      S.LeadsDeath(env, v, id);
    }
    OneCallChanges(env, w, v, w', v', id);
  }

  /** A save that was cut off took effect or did not, and either way the call is gone. */
  lemma {:induction false} CutIsStepOrNot(
      env: S.Env, v: S.World, id: nat, unlinks: bool, at: nat, left: D.Disk, chain: C.Chain)
      returns (steps: seq<S.Action>)
    requires id in v.calls && AtStream(v.calls[id]) && Refusal(env, v.calls[id]).None?
    requires Stream.Explained(
               env.sha, v.chain, Stream.Crashed(AccessOf(env, v.calls[id]), unlinks, at, left), chain)
    ensures S.Leads(env, v, steps, S.World(v.artifacts, chain, v.calls - {id}))
  {
    hide C.CheckRequest, C.ChainSave, S.Continue, S.PartialRequest, S.FinalRequest, S.Leads;
    if chain == v.chain {
      steps := [S.Die(id)];
      S.LeadsDeath(env, v, id);
    } else {
      steps := [S.Step(id), S.Die(id)];
      var stepped := S.Perform(env, v, S.Step(id));
      S.LeadsTwo(env, v, S.Step(id), S.Die(id));
      assert stepped.calls - {id} == v.calls - {id};
    }
  }

  lemma {:induction false} CutSimulated(
      env: S.Env, w: World, v: S.World, id: nat, unlinks: bool, at: nat, left: D.Disk, w': World,
      bodies: set<Bytes>, ids: set<string>) returns (steps: seq<S.Action>, v': S.World)
    requires Models(env, w, v, bodies, ids) && Stream.Apart(env.sha, bodies, ids)
    requires Happens(env, w, Cut(id, unlinks, at, left), w') && Draws(env, w, Cut(id, unlinks, at, left), bodies, ids)
    ensures S.Leads(env, v, steps, v') && Models(env, w', v', bodies, ids)
  {
    hide S.Leads, Stream.Happens, Stream.Draws, Stream.Explained, Recovery.Startable, Stream.Known, Stream.Apart;
    hide A.Inv, A.Replay, Refusal, S.Perform, AccessOf;
    var pc := w.calls[id];
    assert CallFits(env, w, v, id);
    var event := Stream.Crashed(AccessOf(env, pc), unlinks, at, left);
    var chain := Stream.EventExplained(env.sha, w.fs, v.chain, event, w'.fs, bodies, ids);
    steps := CutIsStepOrNot(env, v, id, unlinks, at, left, chain);
    v' := S.World(v.artifacts, chain, v.calls - {id});
    OneCallChanges(env, w, v, w', v', id);
  }

  lemma {:induction false} OutsideSimulated(
      env: S.Env, w: World, v: S.World, event: Stream.Event, w': World, bodies: set<Bytes>, ids: set<string>)
    requires Models(env, w, v, bodies, ids) && Stream.Apart(env.sha, bodies, ids)
    requires Happens(env, w, Outside(event), w') && Stream.Draws(event, bodies, ids)
    ensures Models(env, w', v, bodies, ids)
  {
    hide Stream.Happens, Stream.Draws, Recovery.Startable, Stream.Known, Stream.Apart, A.Inv, A.Replay;
    var chain := Stream.EventExplained(env.sha, w.fs, v.chain, event, w'.fs, bodies, ids);
    assert chain == v.chain;
    forall id | id in w'.calls ensures CallFits(env, w', v, id) { assert CallFits(env, w, v, id); }
    forall id | id in w'.store.writers ensures WriterFits(env, w', id) { assert WriterFits(env, w, id); }
  }

  // ----- one action of a write of the report -----

  lemma {:induction false} BeginSimulated(
      env: S.Env, w: World, v: S.World, id: nat, w': World, bodies: set<Bytes>, ids: set<string>)
    requires Models(env, w, v, bodies, ids) && Happens(env, w, BeginPut(id), w')
    ensures Models(env, w', v, bodies, ids)
  {
    hide StreamFits, A.Replay;
    A.ActionKeepsInv(env.hashes, w.store, A.Begin(id, S.ReportRequest(env, w.calls[id].report)));
    forall other | other in w'.calls ensures CallFits(env, w', v, other) {
      assert CallFits(env, w, v, other);
      if other == id {
        assert id in w.store.writers ==> A.WriterOk(env.hashes, w.store, id, w.store.writers[id]);
      } else {
        StandingStays(env, w, w', other);
      }
    }
    forall other | other in w'.store.writers ensures WriterFits(env, w', other) {
      if other != id { assert WriterFits(env, w, other); }
    }
  }

  /** What one step of a writer changes in the artifact store. */
  lemma {:induction false} PutStep(hashes: A.Hashes, store: A.System, id: nat)
    requires A.Inv(hashes, store) && A.Enabled(store, A.Step(id))
    ensures var store' := A.Perform(hashes, store, A.Step(id));
            && A.Inv(hashes, store') && store.log <= store'.log
            && store'.writers.Keys == store.writers.Keys && store'.writers[id].req == store.writers[id].req
            && (forall other :: other in store.writers && other != id ==> store'.writers[other] == store.writers[other])
            && if A.TakesEffect(hashes, store.shelf, store.writers[id]) then
                 && store.writers[id].slot.None? && store'.writers[id].slot == Some(|store.log|)
                 && |store'.log| == |store.log| + 1
                 && A.MemPut(hashes, A.Replay(hashes, store.log), store.writers[id].req)
                    == (A.Replay(hashes, store'.log), A.Replied(hashes, store'.log, |store.log|))
               else store'.log == store.log && store'.writers[id].slot == store.writers[id].slot
  {
    hide A.Inv, A.TakesEffect, A.Next, A.MemPut;
    A.ActionKeepsInv(hashes, store, A.Step(id));
    A.EffectIsFirst(hashes, store, id);
    var store' := A.Perform(hashes, store, A.Step(id));
    if A.TakesEffect(hashes, store.shelf, store.writers[id]) {
      assert Front(store'.log) == store.log == store'.log[..|store.log|];
    }
  }

  lemma ReportIsPut(env: S.Env, v: S.World, id: nat)
    requires id in v.calls && v.calls[id].Reporting?
    ensures S.Enabled(v, S.Step(id))
    ensures var (artifacts, answer) := A.MemPut(env.hashes, v.artifacts, S.ReportRequest(env, v.calls[id].report));
            S.Perform(env, v, S.Step(id)) == S.World(artifacts, v.chain, v.calls[id := AfterPut(v.calls[id], answer)])
  {}

  lemma {:induction false} OtherPutsStand(env: S.Env, w: World, v: S.World, w': World, v': S.World, id: nat)
    requires CallsFit(env, w, v) && A.Inv(env.hashes, w.store)
    requires w' == w.(store := w'.store) && w.store.log <= w'.store.log && id in w.store.writers
    requires w'.store.writers.Keys == w.store.writers.Keys && w'.store.writers[id].req == w.store.writers[id].req
    requires forall other :: other in w.store.writers && other != id ==>
                               w'.store.writers[other] == w.store.writers[other]
    requires v'.calls == v.calls[id := Standing(env, w', id)] && id in w.calls
    ensures CallsFit(env, w', v')
  {
    hide A.Inv;
    forall other | other in w'.calls ensures CallFits(env, w', v', other) {
      if other != id {
        assert CallFits(env, w, v, other);
        StandingStays(env, w, w', other);
      }
    }
    forall other | other in w'.store.writers ensures WriterFits(env, w', other) {
      assert WriterFits(env, w, other);
    }
  }

  /** A step that takes effect is the report's write in the reference machine, any other is none. */
  lemma {:induction false} PutSimulated(
      env: S.Env, w: World, v: S.World, id: nat, w': World, bodies: set<Bytes>, ids: set<string>)
      returns (steps: seq<S.Action>, v': S.World)
    requires Models(env, w, v, bodies, ids) && A.Enabled(w.store, A.Step(id))
    requires w' == w.(store := A.Perform(env.hashes, w.store, A.Step(id)))
    ensures S.Leads(env, v, steps, v') && Models(env, w', v', bodies, ids)
  {
    hide StreamFits, S.Leads, A.TakesEffect, A.Inv, A.Replay, A.Replied, A.MemPut, S.ReportRequest;
    PutStep(env.hashes, w.store, id);
    hide A.Perform, S.Perform;
    assert WriterFits(env, w, id) && CallFits(env, w, v, id);
    if A.TakesEffect(env.hashes, w.store.shelf, w.store.writers[id]) {
      ReportIsPut(env, v, id);
      steps, v' := [S.Step(id)], S.Perform(env, v, S.Step(id));
      S.LeadsOne(env, v, S.Step(id));
    } else {
      steps, v' := [], v;
      S.LeadsNowhere(env, v);
      assert v.calls == v.calls[id := Standing(env, w', id)];
    }
    hide CallsFit;
    OtherPutsStand(env, w, v, w', v', id);
  }

  /** The answer of a write is the one it was given where it took effect, or an error. */
  lemma PutAnswered(hashes: A.Hashes, store: A.System, id: nat)
    requires A.Inv(hashes, store) && id in store.writers && store.writers[id].pc.Finished?
    ensures var put := store.writers[id];
            || (put.slot.Some? && put.slot.value < |store.log|
                && put.pc.answer == A.Replied(hashes, store.log, put.slot.value))
            || put.pc.answer.Err?
  {
    assert A.WriterOk(hashes, store, id, store.writers[id]);
  }

  lemma {:induction false} EndSimulated(
      env: S.Env, w: World, v: S.World, id: nat, w': World, bodies: set<Bytes>, ids: set<string>)
      returns (steps: seq<S.Action>, v': S.World)
    requires Models(env, w, v, bodies, ids) && Happens(env, w, EndPut(id), w')
    ensures S.Leads(env, v, steps, v') && Models(env, w', v', bodies, ids)
  {
    hide StreamFits, S.Leads, A.Inv, A.Replay, A.Replied, S.ReportRequest;
    A.ActionKeepsInv(env.hashes, w.store, A.Die(id));
    PutAnswered(env.hashes, w.store, id);
    assert CallFits(env, w, v, id);
    if v.calls[id] == w'.calls[id] {
      steps, v' := [], v;
      S.LeadsNowhere(env, v);
    } else {
      steps, v' := [S.Die(id)], v.(calls := v.calls - {id});
      S.LeadsDeath(env, v, id);
    }
    OneCallChanges(env, w, v, w', v', id);
  }

  lemma {:induction false} DeathSimulated(
      env: S.Env, w: World, v: S.World, id: nat, w': World, bodies: set<Bytes>, ids: set<string>)
      returns (steps: seq<S.Action>, v': S.World)
    requires Models(env, w, v, bodies, ids) && Happens(env, w, Die(id), w')
    ensures S.Leads(env, v, steps, v') && Models(env, w', v', bodies, ids)
  {
    hide StreamFits, S.Leads, A.Inv, A.Replay, CallFits, WriterFits;
    if id in w.store.writers { A.ActionKeepsInv(env.hashes, w.store, A.Die(id)); }
    if id in v.calls {
      steps, v' := [S.Die(id)], v.(calls := v.calls - {id});
      S.LeadsDeath(env, v, id);
    } else {
      steps, v' := [], v;
      S.LeadsNowhere(env, v);
    }
    OneCallChanges(env, w, v, w', v', id);
  }

  /** Arriving, deciding on the input and refusing a request touch neither store. */
  lemma {:induction false} QuietSimulated(
      env: S.Env, w: World, v: S.World, action: Action, w': World, bodies: set<Bytes>, ids: set<string>)
      returns (steps: seq<S.Action>, v': S.World)
    requires Models(env, w, v, bodies, ids) && Happens(env, w, action, w')
    requires action.Arrive? || action.Decide? || action.Refuse?
    ensures S.Leads(env, v, steps, v') && Models(env, w', v', bodies, ids)
  {
    hide StreamFits, S.Leads, A.Inv, A.Replay, S.Start, S.Pursue, S.Continue, S.PartialRequest, S.FinalRequest;
    hide C.CheckRequest;
    var id := action.id;
    forall other | other in w.store.writers ensures other in w.calls && w.calls[other].Reporting? {
      assert WriterFits(env, w, other);
    }
    if id in w.calls { assert CallFits(env, w, v, id); }
    var step := if action.Arrive? then S.Arrive(id, action.call) else S.Step(id);
    steps, v' := [step], S.Perform(env, v, step);
    S.LeadsOne(env, v, step);
    OneCallChanges(env, w, v, w', v', id);
  }

  /** Every action on disk is some actions of the machine over the reference stores. */
  lemma {:induction false} ActionSimulated(
      env: S.Env, w: World, v: S.World, action: Action, w': World, bodies: set<Bytes>, ids: set<string>)
      returns (steps: seq<S.Action>, v': S.World)
    requires Models(env, w, v, bodies, ids) && Stream.Apart(env.sha, bodies, ids)
    requires Happens(env, w, action, w') && Draws(env, w, action, bodies, ids)
    ensures S.Leads(env, v, steps, v') && Models(env, w', v', bodies, ids)
  {
    hide Models, S.Leads, Stream.Apart;
    match action
    case Access(id, answer, unlinks) => steps, v' := AccessSimulated(env, w, v, id, answer, unlinks, w', bodies, ids);
    case Cut(id, unlinks, at, left) => steps, v' := CutSimulated(env, w, v, id, unlinks, at, left, w', bodies, ids);
    case BeginPut(id) =>
      BeginSimulated(env, w, v, id, w', bodies, ids);
      steps, v' := [], v;
      S.LeadsNowhere(env, v);
    case StepPut(id) => steps, v' := PutSimulated(env, w, v, id, w', bodies, ids);
    case EndPut(id) => steps, v' := EndSimulated(env, w, v, id, w', bodies, ids);
    case Die(id) => steps, v' := DeathSimulated(env, w, v, id, w', bodies, ids);
    case Outside(event) =>
      OutsideSimulated(env, w, v, event, w', bodies, ids);
      steps, v' := [], v;
      S.LeadsNowhere(env, v);
    case _ => steps, v' := QuietSimulated(env, w, v, action, w', bodies, ids);
  }

  // ----- whole runs -----

  lemma {:induction false} RunGoesOn(
      env: S.Env, worlds: seq<S.World>, moves: seq<S.Action>, steps: seq<S.Action>, v': S.World)
      returns (worlds': seq<S.World>, moves': seq<S.Action>)
    requires S.Run(env, worlds, moves) && S.Leads(env, Last(worlds), steps, v')
    ensures S.Run(env, worlds', moves') && worlds <= worlds' && Last(worlds') == v'
    decreases |steps|
  {
    if steps == [] {
      worlds', moves' := worlds, moves;
    } else {
      hide S.Enabled, S.Perform;
      var longer, more := worlds + [S.Perform(env, Last(worlds), steps[0])], moves + [steps[0]];
      forall i {:trigger more[i]} | 0 <= i < |more|
        ensures S.Enabled(longer[i], more[i]) && longer[i + 1] == S.Perform(env, longer[i], more[i])
      {
        if i < |moves| { assert more[i] == moves[i]; }
      }
      worlds', moves' := RunGoesOn(env, longer, more, steps[1..], v');
    }
  }

  /** World i on disk stands for world at[i] of a run over the reference stores. */
  ghost predicate Follows(
    env: S.Env, states: seq<World>, worlds: seq<S.World>, at: seq<nat>, bodies: set<Bytes>, ids: set<string>)
  {
    && |at| == |states|
    && (forall i :: 0 <= i < |at| ==> at[i] < |worlds| && Models(env, states[i], worlds[at[i]], bodies, ids))
    && forall i, j :: 0 <= i <= j < |at| ==> at[i] <= at[j]
  }

  ghost predicate AllDraw(
    env: S.Env, states: seq<World>, actions: seq<Action>, bodies: set<Bytes>, ids: set<string>)
    requires |states| == |actions| + 1
  {
    forall i {:trigger actions[i]} :: 0 <= i < |actions| ==> Draws(env, states[i], actions[i], bodies, ids)
  }

  lemma {:induction false} EmptyDisk(env: S.Env, bodies: set<Bytes>, ids: set<string>)
    ensures Models(env, World(D.Fs(D.EMPTY, D.SYNCED), A.EMPTY, map[]), S.World(map[], [], map[]), bodies, ids)
  {
    Stream.EmptyDirectory(env.sha, bodies, ids);
    A.EmptySystem(env.hashes);
  }

  /** Whatever is cut off anywhere, a run on disk is a run over the reference stores in which each
      interrupted access took place or did not. */
  lemma {:induction false} RunsAreSagas(
      env: S.Env, states: seq<World>, actions: seq<Action>, bodies: set<Bytes>, ids: set<string>)
      returns (worlds: seq<S.World>, moves: seq<S.Action>, at: seq<nat>)
    requires Run(env, states, actions) && Stream.Apart(env.sha, bodies, ids)
    requires AllDraw(env, states, actions, bodies, ids)
    ensures S.Run(env, worlds, moves) && Follows(env, states, worlds, at, bodies, ids)
    ensures Last(at) == |worlds| - 1
    decreases |actions|
  {
    hide Models, Happens, Draws, S.Leads, Stream.Apart, S.Run;
    if actions == [] {
      worlds, moves, at := [S.World(map[], [], map[])], [], [0];
      EmptyDisk(env, bodies, ids);
      EmptyRun(env);
    } else {
      var n := |actions| - 1;
      PrefixRun(env, states, actions, bodies, ids);
      worlds, moves, at := RunsAreSagas(env, states[..n + 1], actions[..n], bodies, ids);
      assert actions[n] == Last(actions) && states[..n + 1][n] == states[n];
      var steps, v' := ActionSimulated(env, states[n], Last(worlds), actions[n], states[n + 1], bodies, ids);
      var worlds', moves' := RunGoesOn(env, worlds, moves, steps, v');
      FollowsOn(env, states, worlds, worlds', at, bodies, ids);
      worlds, moves, at := worlds', moves', at + [|worlds'| - 1];
    }
  }

  lemma EmptyRun(env: S.Env)
    ensures S.Run(env, [S.World(map[], [], map[])], [])
  {}

  lemma {:induction false} PrefixRun(
      env: S.Env, states: seq<World>, actions: seq<Action>, bodies: set<Bytes>, ids: set<string>)
    requires Run(env, states, actions) && AllDraw(env, states, actions, bodies, ids) && actions != []
    ensures var n := |actions| - 1;
            && Run(env, states[..n + 1], actions[..n])
            && AllDraw(env, states[..n + 1], actions[..n], bodies, ids)
  {
    hide Happens, Draws;
    var n := |actions| - 1;
    var before, earlier := states[..n + 1], actions[..n];
    forall i {:trigger earlier[i]} | 0 <= i < n
      ensures Happens(env, before[i], earlier[i], before[i + 1]) && Draws(env, before[i], earlier[i], bodies, ids)
    {
      assert earlier[i] == actions[i] && before[i] == states[i] && before[i + 1] == states[i + 1];
    }
  }

  lemma {:induction false} FollowsOn(
      env: S.Env, states: seq<World>, worlds: seq<S.World>, worlds': seq<S.World>, at: seq<nat>,
      bodies: set<Bytes>, ids: set<string>)
    requires |states| > 1 && Follows(env, states[..|states| - 1], worlds, at, bodies, ids) && worlds <= worlds'
    requires worlds' != [] && Models(env, Last(states), Last(worlds'), bodies, ids)
    ensures Follows(env, states, worlds', at + [|worlds'| - 1], bodies, ids)
  {
    hide Models;
    var at' := at + [|worlds'| - 1];
    forall i | 0 <= i < |at'| ensures at'[i] < |worlds'| && Models(env, states[i], worlds'[at'[i]], bodies, ids) {
      if i < |at| { assert at'[i] == at[i] && states[i] == states[..|states| - 1][i]; }
    }
  }

  // ----- what stays on disk -----

  /** The version that a finished call has stored is the last one. */
  lemma {:induction false} FinishedIsLast(env: S.Env, v: S.World, report: Saga.Report)
    requires S.Faithful(env.codec) && S.Inv(env, v) && S.Reported(env, v, report) && S.FinalStored(env, v, report)
    ensures v.chain != [] && S.PlanOf(env, Last(v.chain)) == Saga.Finish(report)
  {
    var e := C.Find(v.chain, S.FinalId(report.status)).value;
    var k :| 0 <= k < |v.chain| && v.chain[k] == e;
    assert S.Follows(env, v.chain, k);
    hide S.Inv, S.Reported, S.Follows;
    assert S.PlanOf(env, e).Finish? by {
      if S.PlanOf(env, e).SavePartial? { S.PartialIdsDiffer(S.PlanOf(env, e).state.results, []); }
    }
    S.LineageOf(env, v);
    S.AtMostThreeVersions(env, v.chain);
    S.FinalsAgree(env, v, report);
  }

  /** The report as the artifact store gives it back. */
  ghost function ReadReport(env: S.Env, w: World): Result<Option<A.Record>, A.Error> {
    A.ReadAcross(env.hashes, w.store.shelf, w.store.shelf, S.ReportKey(env.runId))
  }

  lemma {:induction false} ReportOnShelf(
      env: S.Env, w: World, v: S.World, bodies: set<Bytes>, ids: set<string>)
    requires Models(env, w, v, bodies, ids) && S.ReportKey(env.runId) in v.artifacts
    ensures ReadReport(env, w) == Ok(Some(v.artifacts[S.ReportKey(env.runId)]))
  {
    hide StreamFits, CallsFit, A.WritersOk, A.Sound, A.Mirrors, A.ReadAcross;
    A.ReadsMirror(env.hashes, w.store.shelf, w.store.shelf, v.artifacts, S.ReportKey(env.runId));
  }

  /** What a read of the stream directory answers, it answers from the chain it stands for. */
  lemma {:induction false} ReadOnDisk(
      env: S.Env, w: World, v: S.World, call: Stream.Call, answer: Stream.Answer, unlinks: bool,
      bodies: set<Bytes>, ids: set<string>)
    requires Models(env, w, v, bodies, ids) && Stream.Apart(env.sha, bodies, ids) && !call.SaveCall?
    requires Stream.Draws(Stream.Completed(call, answer, unlinks), bodies, ids)
    requires Stream.Answers(env.sha, w.fs, call, unlinks, answer)
    ensures Stream.Explained(env.sha, v.chain, Stream.Completed(call, answer, unlinks), v.chain)
  {
    hide A.Inv, CallsFit, Recovery.Startable, Stream.Known, Stream.Apart, Stream.Answers, Stream.Draws;
    hide Stream.StepsOf, Stream.Explained;
    var after := Recovery.After(w.fs, Stream.StepsOf(env.sha, w.fs, call, unlinks));
    Stream.CompletedRead(env.sha, w.fs, v.chain, call, unlinks, answer, after, bodies, ids);
  }

  lemma FinishedStands(env: S.Env, w: World, v: S.World, id: nat, bodies: set<Bytes>, ids: set<string>)
    requires Models(env, w, v, bodies, ids) && id in w.calls && w.calls[id].Finished?
    ensures id in v.calls && v.calls[id] == w.calls[id]
  {
    assert CallFits(env, w, v, id);
  }

  /** Once a call has told its caller that the saga is finished, then whatever is cut off afterwards,
      every later look at the latest version and at the report artifact finds that sound report, and
      all that finish finish with it. */
  lemma {:induction false} ReportSurvives(
      env: S.Env, states: seq<World>, actions: seq<Action>, bodies: set<Bytes>, ids: set<string>,
      i: nat, j: nat, a: nat, b: nat, answer: Stream.Answer, unlinks: bool)
    requires Run(env, states, actions) && Stream.Apart(env.sha, bodies, ids)
    requires AllDraw(env, states, actions, bodies, ids) && S.Faithful(env.codec)
    requires i <= j < |states| && a in states[i].calls && states[i].calls[a].Finished?
    requires Stream.Answers(env.sha, states[j].fs, Stream.LatestCall, unlinks, answer)
    ensures var report := states[i].calls[a].report;
            && Saga.SoundReport(env.orderId, report)
            && ReadReport(env, states[j]).Ok? && ReadReport(env, states[j]).value.Some?
            && S.IsReport(env, ReadReport(env, states[j]).value.value, report)
            && answer.Read? && answer.read.Ok? && answer.read.value.Some?
            && S.PlanOf(env, answer.read.value.value) == Saga.Finish(report)
            && (b in states[j].calls && states[j].calls[b].Finished? ==> states[j].calls[b].report == report)
  {
    hide Run, AllDraw, Models, S.Run, S.IsReport, Saga.SoundReport, ReadReport, S.PlanOf, Stream.Answers, S.Inv;
    hide Stream.Apart, S.Extends, S.Reported, S.FinalStored, S.Faithful;
    var worlds, moves, at := RunsAreSagas(env, states, actions, bodies, ids);
    var v, v', report := worlds[at[i]], worlds[at[j]], states[i].calls[a].report;
    FinishedStands(env, states[i], v, a, bodies, ids);
    if b in states[j].calls && states[j].calls[b].Finished? { FinishedStands(env, states[j], v', b, bodies, ids); }
    S.OneOutcome(env, worlds, moves, at[i], at[j], a, b);
    StillFinished(env, worlds, moves, at[i], at[j], a);
    FinishedIsLast(env, v', report);
    ReportOnShelf(env, states[j], v', bodies, ids);
    ReadOnDisk(env, states[j], v', Stream.LatestCall, answer, unlinks, bodies, ids);
  }

  lemma {:induction false} StillFinished(
      env: S.Env, worlds: seq<S.World>, moves: seq<S.Action>, i: nat, j: nat, a: nat)
    requires S.Faithful(env.codec) && S.Run(env, worlds, moves) && i <= j < |worlds|
    requires a in worlds[i].calls && worlds[i].calls[a].Finished?
    ensures var report := worlds[i].calls[a].report;
            S.Inv(env, worlds[j]) && S.Reported(env, worlds[j], report) && S.FinalStored(env, worlds[j], report)
  {
    S.RunKeepsInv(env, worlds, moves, i);
    S.RunKeepsInv(env, worlds, moves, j);
    S.RunExtends(env, worlds, moves, i, j);
    hide S.Run, S.Extends, S.Reported, S.FinalStored;
    assert S.CallOk(env, worlds[i], worlds[i].calls[a]);
    S.LineageOf(env, worlds[j]);
    S.CallStable(env, worlds[i], worlds[j], worlds[i].calls[a]);
  }

  /** Whatever has been cut off, every version read back from the disk accounts for every operation,
      and a final one is the report artifact. */
  lemma {:induction false} VersionsReadAreSound(
      env: S.Env, states: seq<World>, actions: seq<Action>, bodies: set<Bytes>, ids: set<string>,
      j: nat, id: string, e: C.Entry, unlinks: bool)
    requires Run(env, states, actions) && Stream.Apart(env.sha, bodies, ids)
    requires AllDraw(env, states, actions, bodies, ids) && S.Faithful(env.codec)
    requires j < |states| && id in ids
    requires Stream.Answers(env.sha, states[j].fs, Stream.VersionCall(id), unlinks, Stream.Read(Ok(Some(e))))
    ensures var plan := S.PlanOf(env, e);
            && e.desc.id == id && S.Records(env, e, plan) && S.SoundPlan(env, plan)
            && (plan.Finish? ==>
                  && ReadReport(env, states[j]).Ok? && ReadReport(env, states[j]).value.Some?
                  && ReadReport(env, states[j]).value.value.body == e.body)
  {
    hide Run, AllDraw, Models, S.Run, ReadReport, S.PlanOf, Stream.Answers, S.Inv, Stream.Apart, S.Faithful;
    hide S.Records, S.SoundPlan;
    var worlds, moves, at := RunsAreSagas(env, states, actions, bodies, ids);
    var v := worlds[at[j]];
    ReadOnDisk(env, states[j], v, Stream.VersionCall(id), Stream.Read(Ok(Some(e))), unlinks, bodies, ids);
    assert C.Find(v.chain, id) == Some(e);
    var k :| 0 <= k < |v.chain| && v.chain[k] == e;
    S.EveryVersionIsSound(env, worlds, moves, at[j], k);
    if S.ReportKey(env.runId) in v.artifacts { ReportOnShelf(env, states[j], v, bodies, ids); }
  }

  // ----- a saga that finishes on disk -----

  ghost predicate Reachable(env: S.Env, w: World) {
    exists states, actions :: Run(env, states, actions) && Last(states) == w
  }

  lemma ReachNext(env: S.Env, w: World, action: Action, w': World)
    requires Reachable(env, w) && Happens(env, w, action, w')
    ensures Reachable(env, w')
  {
    hide Happens;
    var states, actions :| Run(env, states, actions) && Last(states) == w;
    var states', actions' := states + [w'], actions + [action];
    forall i {:trigger actions'[i]} | 0 <= i < |actions'|
      ensures Happens(env, states'[i], actions'[i], states'[i + 1])
    {
      if i < |actions| { assert actions'[i] == actions[i]; }
    }
    assert Run(env, states', actions');
  }

  /** The store after `puts` steps of the first report's write. */
  ghost function StoreAt(env: S.Env, report: Saga.Report, puts: nat): A.System
    requires puts <= 3
  {
    var req := S.ReportRequest(env, report);
    var artifact, bodies := A.Describe(env.hashes, req), map[env.hashes.body(req.body) := req.body];
    match puts
    case 0 => A.System(A.Shelf(map[], map[]), map[0 := A.Writer(req, A.Looking, None)], {0}, [])
    case 1 => A.System(A.Shelf(map[], map[]), map[0 := A.Writer(req, A.StoringBody, None)], {0}, [])
    case 2 => A.System(A.Shelf(bodies, map[]), map[0 := A.Writer(req, A.Linking, None)], {0}, [])
    case _ =>
      A.System(A.Shelf(bodies, map[env.hashes.ident(req.storageKey) := artifact]),
               map[0 := A.Writer(req, A.Finished(Ok(artifact)), Some(0))], {0}, [A.Effect(0, req)])
  }

  lemma StoreSteps(env: S.Env, report: Saga.Report, puts: nat)
    requires puts < 3
    ensures A.Enabled(StoreAt(env, report, puts), A.Step(0))
    ensures A.Perform(env.hashes, StoreAt(env, report, puts), A.Step(0)) == StoreAt(env, report, puts + 1)
  {
    hide S.ReportRequest;
  }

  /** The save of the final version into an empty directory. */
  lemma {:induction false} FirstSave(env: S.Env, report: Saga.Report) returns (fs: D.Fs, answer: Stream.Answer)
    requires report.status == "completed"
    ensures var req := S.FinalRequest(env, None, report);
            && C.CheckRequest(req).None? && answer.Saved? && answer.saved.Ok?
            && Stream.Happens(env.sha, D.Fs(D.EMPTY, D.SYNCED),
                              Stream.Completed(Stream.SaveCall(req), answer, true), fs)
  {
    var req := S.FinalRequest(env, None, report);
    S.FinalIdValid(report.status);
    hide C.ValidId, Save.Save;
    var empty := D.Fs(D.EMPTY, D.SYNCED);
    var o := Save.Save(env.sha, empty, req, true);
    Stream.EmptyDirectory(env.sha, {}, {});
    Save.SaveRefines(env.sha, empty, [], req, true);
    assert !Save.Collides(env.sha, D.EMPTY, [], req);
    fs, answer := Recovery.After(empty, o.steps), Stream.Saved(o.result);
  }

  lemma {:induction false} DecidesOnDisk(env: S.Env, report: Saga.Report)
    requires S.Start(env) == Saga.Finish(report)
    ensures Reachable(env, World(D.Fs(D.EMPTY, D.SYNCED), A.EMPTY, map[0 := S.Reporting(None, report)]))
  {
    hide Reachable, S.Start;
    var w0 := World(D.Fs(D.EMPTY, D.SYNCED), A.EMPTY, map[]);
    ReachEmpty(env);
    var w1 := w0.(calls := map[0 := S.Executing]);
    ReachNext(env, w0, Arrive(0, S.Execute), w1);
    ReachNext(env, w1, Decide(0), w1.(calls := map[0 := S.Reporting(None, report)]));
  }

  /** Its report is written undisturbed. */
  lemma {:induction false} PutsOnDisk(env: S.Env, report: Saga.Report, puts: nat)
    requires S.Start(env) == Saga.Finish(report) && puts <= 3
    ensures Reachable(env, World(D.Fs(D.EMPTY, D.SYNCED), StoreAt(env, report, puts),
                                 map[0 := S.Reporting(None, report)]))
    decreases puts
  {
    hide Reachable, S.Start, S.ReportRequest;
    var w := World(D.Fs(D.EMPTY, D.SYNCED), A.EMPTY, map[0 := S.Reporting(None, report)]);
    if puts == 0 {
      DecidesOnDisk(env, report);
      ReachNext(env, w, BeginPut(0), w.(store := StoreAt(env, report, 0)));
    } else {
      PutsOnDisk(env, report, puts - 1);
      StoreSteps(env, report, puts - 1);
      hide StoreAt, A.Perform, A.Enabled;
      ReachNext(env, w.(store := StoreAt(env, report, puts - 1)), StepPut(0), w.(store := StoreAt(env, report, puts)));
    }
  }

  lemma {:induction false} FinalizesOnDisk(env: S.Env, report: Saga.Report) returns (store: A.System)
    requires S.Start(env) == Saga.Finish(report)
    ensures Reachable(env, World(D.Fs(D.EMPTY, D.SYNCED), store, map[0 := S.Finalizing(None, report)]))
  {
    hide Reachable, S.Start, S.ReportRequest;
    PutsOnDisk(env, report, 3);
    var put := World(D.Fs(D.EMPTY, D.SYNCED), StoreAt(env, report, 3), map[0 := S.Reporting(None, report)]);
    store := A.Perform(env.hashes, put.store, A.Die(0));
    ReachNext(env, put, EndPut(0), World(put.fs, store, map[0 := S.Finalizing(None, report)]));
  }

  lemma StartCompletes(env: S.Env, report: Saga.Report)
    requires S.Start(env) == Saga.Finish(report)
    ensures report.status == "completed"
  {}

  /** A saga whose input plans no failure can finish on disk. */
  lemma {:induction false} FinishesOnDisk(env: S.Env, report: Saga.Report) returns (w: World)
    requires S.Start(env) == Saga.Finish(report)
    ensures Reachable(env, w) && 0 in w.calls && w.calls[0] == S.Finished(report)
  {
    hide Reachable, S.Start, S.FinalRequest, Stream.Happens, C.CheckRequest;
    StartCompletes(env, report);
    var store := FinalizesOnDisk(env, report);
    var fs, answer := FirstSave(env, report);
    var finalizing := World(D.Fs(D.EMPTY, D.SYNCED), store, map[0 := S.Finalizing(None, report)]);
    w := World(fs, store, map[0 := S.Finished(report)]);
    ReachNext(env, finalizing, Access(0, answer, true), w);
  }

  lemma ReachEmpty(env: S.Env)
    ensures Reachable(env, World(D.Fs(D.EMPTY, D.SYNCED), A.EMPTY, map[]))
  {
    assert Run(env, [World(D.Fs(D.EMPTY, D.SYNCED), A.EMPTY, map[])], []);
  }
}
