/** Execution jobs and the lifecycle of runs, under any number of workers and direct callers.

    Each database transaction is one atomic step; a worker may die between any two of them. */
module Jobs {
  import opened Prelude

  datatype RunStatus = Pending | Running | Waiting | Succeeded | Failed | TimedOut | Cancelled

  datatype JobStatus = Queued | Claimed | JobSucceeded | JobFailed

  datatype Operation = Start | Resume | Retry

  datatype RunRow = RunRow(status: RunStatus, startedAt: Option<int>, finishedAt: Option<int>)

  datatype JobRow = JobRow(
    run: nat, operation: Operation, status: JobStatus, workerId: string, attempts: nat, availableAt: int,
    claimedAt: Option<int>, heartbeatAt: Option<int>, finishedAt: Option<int>, createdAt: int)

  // ----- guards and row updates -----

  predicate CanBegin(operation: Operation, status: RunStatus) {
    match operation
    case Start => status == Pending
    case Resume => status == Waiting
    case Retry => status in {Failed, TimedOut, Cancelled}
  }

  predicate CanCancel(status: RunStatus) {
    status in {Pending, Running, Waiting}
  }

  predicate Terminal(status: RunStatus) {
    status in {Succeeded, Failed, TimedOut, Cancelled}
  }

  function Transition(row: RunRow, status: RunStatus, now: int): RunRow {
    RunRow(status,
           if status == Running && row.startedAt.None? then Some(now) else row.startedAt,
           if Terminal(status) then Some(now) else row.finishedAt)
  }

  predicate Active(row: JobRow) {
    row.status == Queued || row.status == Claimed
  }

  predicate HasActive(jobs: map<nat, JobRow>, run: nat) {
    exists id :: id in jobs && jobs[id].run == run && Active(jobs[id])
  }

  /** The row is inserted unless the run already has an active job. */
  function Enqueue(jobs: map<nat, JobRow>, id: nat, run: nat, operation: Operation, now: int): map<nat, JobRow> {
    if HasActive(jobs, run) then jobs
    else jobs[id := JobRow(run, operation, Queued, "", 0, now, None, None, None, now)]
  }

  predicate Eligible(row: JobRow, now: int) {
    row.status == Queued && row.availableAt <= now
  }

  /** An eligible job created no later than any other. */
  predicate IsNext(jobs: map<nat, JobRow>, id: nat, now: int) {
    && id in jobs && Eligible(jobs[id], now)
    && forall other :: other in jobs && Eligible(jobs[other], now) ==> jobs[id].createdAt <= jobs[other].createdAt
  }

  function ClaimRow(row: JobRow, worker: string, now: int): JobRow {
    row.(status := Claimed, workerId := Prefix(worker, 255), claimedAt := Some(now), heartbeatAt := Some(now),
         attempts := row.attempts + 1)
  }

  function Prefix(s: string, n: nat): string {
    if |s| <= n then s else s[..n]
  }

  function HeartbeatRow(row: JobRow, now: int): JobRow {
    if row.status == Claimed then row.(heartbeatAt := Some(now)) else row
  }

  function RecoverRow(row: JobRow, cutoff: int, now: int): JobRow {
    if row.status == Claimed && row.heartbeatAt.Some? && row.heartbeatAt.value < cutoff then
      row.(status := Queued, workerId := "", claimedAt := None, heartbeatAt := None, availableAt := now)
    else row
  }

  function Recover(jobs: map<nat, JobRow>, cutoff: int, now: int): map<nat, JobRow> {
    map id | id in jobs :: RecoverRow(jobs[id], cutoff, now)
  }

  /** The worker saves the outcome on the row, whatever has become of the row. */
  function FinishRow(row: JobRow, status: JobStatus, now: int): JobRow {
    row.(status := status, finishedAt := Some(now))
  }

  // ----- the database -----

  class Database {
    var runs: map<nat, RunRow>
    var jobs: map<nat, JobRow>

    constructor ()
      ensures runs == map[] && jobs == map[]
    {
      runs, jobs := map[], map[];
    }

    method EnqueueExecutionJob(id: nat, run: nat, operation: Operation, now: int) returns (created: bool)
      requires id !in jobs && run in runs
      modifies this`jobs
      ensures created <==> forall other :: other in old(jobs) && old(jobs)[other].run == run ==>
                                             old(jobs)[other].status !in {Queued, Claimed}
      ensures jobs == Enqueue(old(jobs), id, run, operation, now)
      ensures !created ==> jobs == old(jobs)
      ensures created ==>
                jobs == old(jobs)[id := JobRow(run, operation, Queued, "", 0, now, None, None, None, now)]
    {
      if exists other :: other in jobs && jobs[other].run == run && Active(jobs[other]) {
        return false;
      }
      jobs := jobs[id := JobRow(run, operation, Queued, "", 0, now, None, None, None, now)];
      created := true;
    }

    method ClaimNextJob(worker: string, now: int) returns (claimed: Option<nat>)
      modifies this`jobs
      ensures claimed.None? ==>
                jobs == old(jobs) && forall id :: id in jobs && jobs[id].status == Queued ==> jobs[id].availableAt > now
      ensures claimed.Some? ==>
                && old(IsNext(jobs, claimed.value, now))
                && jobs == old(jobs)[claimed.value := ClaimRow(old(jobs)[claimed.value], worker, now)]
    {
      claimed := None;
      var rest := jobs.Keys;
      while rest != {}
        invariant rest <= jobs.Keys
        invariant claimed.None? ==> forall id :: id in jobs && id !in rest ==> !Eligible(jobs[id], now)
        invariant claimed.Some? ==>
                    && claimed.value in jobs && Eligible(jobs[claimed.value], now)
                    && forall id :: id in jobs && id !in rest && Eligible(jobs[id], now) ==>
                         jobs[claimed.value].createdAt <= jobs[id].createdAt
      {
        var id :| id in rest;
        if Eligible(jobs[id], now) && (claimed.None? || jobs[id].createdAt < jobs[claimed.value].createdAt) {
          claimed := Some(id);
        }
        rest := rest - {id};
      }
      if claimed.Some? {
        var row := jobs[claimed.value];
        row := row.(status := Claimed, workerId := Prefix(worker, 255));
        row := row.(claimedAt := Some(now), heartbeatAt := Some(now), attempts := row.attempts + 1);
        jobs := jobs[claimed.value := row];
      }
    }

    method HeartbeatJob(id: nat, now: int)
      requires id in jobs
      modifies this`jobs
      ensures jobs == old(jobs)[id := HeartbeatRow(old(jobs)[id], now)]
    {
      if jobs[id].status == Claimed {
        jobs := jobs[id := jobs[id].(heartbeatAt := Some(now))];
      } else {
        assert jobs[id := jobs[id]] == jobs;
      }
    }

    method RecoverStaleJobs(staleAfter: int, now: int)
      modifies this`jobs
      ensures jobs == Recover(old(jobs), now - staleAfter, now)
    {
      var rest := jobs.Keys;
      var cutoff := now - staleAfter;
      while rest != {}
        invariant rest <= jobs.Keys && jobs.Keys == old(jobs).Keys
        invariant forall id :: id in jobs ==>
                    jobs[id] == if id in rest then old(jobs)[id] else RecoverRow(old(jobs)[id], cutoff, now)
      {
        var id :| id in rest;
        var row := jobs[id];
        if row.status == Claimed && row.heartbeatAt.Some? && row.heartbeatAt.value < cutoff {
          row := row.(status := Queued, workerId := "", claimedAt := None, heartbeatAt := None, availableAt := now);
          jobs := jobs[id := row];
        }
        rest := rest - {id};
      }
    }

    method TransitionRun(id: nat, status: RunStatus, now: int)
      requires id in runs
      modifies this`runs
      ensures runs == old(runs)[id := Transition(old(runs)[id], status, now)]
    {
      var row := runs[id].(status := status);
      if status == Running && row.startedAt.None? {
        row := row.(startedAt := Some(now));
      }
      if Terminal(status) {
        row := row.(finishedAt := Some(now));
      }
      runs := runs[id := row];
    }

    /** The guarded transaction that `start_run`, `resume_run` and `retry_run` open with. */
    method BeginAction(id: nat, operation: Operation, now: int) returns (allowed: bool)
      requires id in runs
      modifies this`runs
      ensures allowed == CanBegin(operation, old(runs)[id].status)
      ensures runs == if allowed then old(runs)[id := Transition(old(runs)[id], Running, now)] else old(runs)
    {
      allowed := match operation {
        case Start => runs[id].status == Pending
        case Resume => runs[id].status == Waiting
        case Retry => runs[id].status == Failed || runs[id].status == TimedOut || runs[id].status == Cancelled
      };
      if allowed {
        TransitionRun(id, Running, now);
      }
    }

    method CancelRun(id: nat, now: int) returns (allowed: bool)
      requires id in runs
      modifies this`runs
      ensures allowed == CanCancel(old(runs)[id].status)
      ensures runs == if allowed then old(runs)[id := Transition(old(runs)[id], Cancelled, now)] else old(runs)
    {
      allowed := CanCancel(runs[id].status);
      if allowed {
        TransitionRun(id, Cancelled, now);
      }
    }

    method FinishJob(id: nat, status: JobStatus, now: int)
      requires id in jobs
      modifies this`jobs
      ensures jobs == old(jobs)[id := FinishRow(old(jobs)[id], status, now)]
    {
      jobs := jobs[id := jobs[id].(status := status, finishedAt := Some(now))];
    }
  }

  // ----- workers and callers, transaction by transaction -----

  datatype Pc =
    | Holding(job: nat)
    | Executing(via: Option<nat>, run: nat)
    | Settling(job: nat, status: JobStatus)

  datatype World = World(runs: map<nat, RunRow>, jobs: map<nat, JobRow>, callers: map<nat, Pc>)

  datatype Action =
    | CreateRun(run: nat)
    | EnqueueJob(id: nat, run: nat, operation: Operation, now: int)
    | Claim(caller: nat, id: nat, worker: string, now: int)
    | Heartbeat(id: nat, now: int)
    | RecoverStale(cutoff: int, now: int)
    | Begin(caller: nat, now: int)
    | Act(caller: nat, run: nat, operation: Operation, now: int)
    | Complete(caller: nat, outcome: Option<RunStatus>, now: int)
    | Finish(caller: nat, now: int)
    | Cancel(run: nat, now: int)
    | Die(caller: nat)

  ghost predicate Enabled(w: World, action: Action) {
    match action
    case CreateRun(run) => run !in w.runs
    case EnqueueJob(id, run, _, _) => id !in w.jobs && run in w.runs
    case Claim(caller, id, _, now) => caller !in w.callers && IsNext(w.jobs, id, now)
    case Heartbeat(id, _) => id in w.jobs
    case RecoverStale(_, _) => true
    case Begin(caller, _) =>
      caller in w.callers && w.callers[caller].Holding? && w.callers[caller].job in w.jobs
      && w.jobs[w.callers[caller].job].run in w.runs
    case Act(caller, run, _, _) => caller !in w.callers && run in w.runs
    case Complete(caller, outcome, _) =>
      caller in w.callers && w.callers[caller].Executing? && w.callers[caller].run in w.runs
      && (outcome.Some? ==> outcome.value == Waiting || Terminal(outcome.value))
    case Finish(caller, _) => caller in w.callers && w.callers[caller].Settling? && w.callers[caller].job in w.jobs
    case Cancel(run, _) => run in w.runs
    case Die(caller) => caller in w.callers
  }

  ghost function Perform(w: World, action: Action): World
    requires Enabled(w, action)
  {
    match action
    case CreateRun(run) => w.(runs := w.runs[run := RunRow(Pending, None, None)])
    case EnqueueJob(id, run, operation, now) => w.(jobs := Enqueue(w.jobs, id, run, operation, now))
    case Claim(caller, id, worker, now) =>
      w.(jobs := w.jobs[id := ClaimRow(w.jobs[id], worker, now)], callers := w.callers[caller := Holding(id)])
    case Heartbeat(id, now) => w.(jobs := w.jobs[id := HeartbeatRow(w.jobs[id], now)])
    case RecoverStale(cutoff, now) => w.(jobs := Recover(w.jobs, cutoff, now))
    case Begin(caller, now) =>
      var job := w.callers[caller].job;
      var run := w.jobs[job].run;
      if CanBegin(w.jobs[job].operation, w.runs[run].status) then
        w.(runs := w.runs[run := Transition(w.runs[run], Running, now)],
           callers := w.callers[caller := Executing(Some(job), run)])
      else w.(callers := w.callers[caller := Settling(job, JobFailed)])
    case Act(caller, run, operation, now) =>
      if CanBegin(operation, w.runs[run].status) then
        w.(runs := w.runs[run := Transition(w.runs[run], Running, now)],
           callers := w.callers[caller := Executing(None, run)])
      else w
    case Complete(caller, outcome, now) =>
      var pc := w.callers[caller];
      var runs := if outcome.Some? then w.runs[pc.run := Transition(w.runs[pc.run], outcome.value, now)] else w.runs;
      var callers :=
        if pc.via.Some? then
          w.callers[caller := Settling(pc.via.value, if outcome.Some? then JobSucceeded else JobFailed)]
        else w.callers - {caller};
      w.(runs := runs, callers := callers)
    case Finish(caller, now) =>
      var pc := w.callers[caller];
      w.(jobs := w.jobs[pc.job := FinishRow(w.jobs[pc.job], pc.status, now)], callers := w.callers - {caller})
    case Cancel(run, now) =>
      if CanCancel(w.runs[run].status) then w.(runs := w.runs[run := Transition(w.runs[run], Cancelled, now)]) else w
    case Die(caller) => w.(callers := w.callers - {caller})
  }

  // ----- what changes a row -----

  /** A queued job whose time has come, created no later than any other such job. */
  ghost predicate Due(jobs: map<nat, JobRow>, id: nat, now: int) {
    && id in jobs && jobs[id].status == Queued && jobs[id].availableAt <= now
    && forall other :: other in jobs && jobs[other].status == Queued && jobs[other].availableAt <= now ==>
         jobs[id].createdAt <= jobs[other].createdAt
  }

  ghost predicate Stale(row: JobRow, cutoff: int) {
    row.status == Claimed && row.heartbeatAt.Some? && row.heartbeatAt.value < cutoff
  }

  /** What a transaction may make of a job's row. */
  ghost predicate JobChange(w: World, action: Action, id: nat, row: JobRow, row': JobRow) {
    match action
    case Claim(_, claimed, worker, now) =>
      && claimed == id && Due(w.jobs, id, now)
      && row' == row.(status := Claimed, workerId := (if |worker| <= 255 then worker else worker[..255]),
                      claimedAt := Some(now), heartbeatAt := Some(now), attempts := row.attempts + 1)
    case Heartbeat(beating, now) => beating == id && row.status == Claimed && row' == row.(heartbeatAt := Some(now))
    case RecoverStale(cutoff, now) =>
      && Stale(row, cutoff)
      && row' == row.(status := Queued, workerId := "", claimedAt := None, heartbeatAt := None, availableAt := now)
    case Finish(caller, now) =>
      && caller in w.callers && w.callers[caller].Settling? && w.callers[caller].job == id
      && row' == row.(status := w.callers[caller].status, finishedAt := Some(now))
    case _ => false
  }

  /** A job's row changes only by being claimed as the oldest due job, by a heartbeat while it is claimed,
      by recovery when its heartbeat is stale, or by its holder's finish; and every stale row is recovered. */
  lemma {:induction false} JobRowsChangeBy(w: World, action: Action, id: nat)
    requires Enabled(w, action) && id in w.jobs
    ensures var w' := Perform(w, action);
            && id in w'.jobs && (w'.jobs[id] == w.jobs[id] || JobChange(w, action, id, w.jobs[id], w'.jobs[id]))
            && (action.RecoverStale? && Stale(w.jobs[id], action.cutoff) ==> w'.jobs[id].status == Queued)
            && (action.Claim? && action.id == id ==> w'.jobs[id].status == Claimed)
            && (action.Finish? && w.callers[action.caller].job == id ==>
                  w'.jobs[id].status == w.callers[action.caller].status)
  {}

  /** A row is added exactly when its run has no queued or claimed job, queued for that run and operation. */
  lemma {:induction false} JobRowsComeBy(w: World, action: Action, id: nat)
    requires Enabled(w, action) && id !in w.jobs
    ensures id in Perform(w, action).jobs <==>
              && action.EnqueueJob? && action.id == id
              && forall other :: other in w.jobs && w.jobs[other].run == action.run ==>
                                   w.jobs[other].status !in {Queued, Claimed}
    ensures id in Perform(w, action).jobs ==>
              Perform(w, action).jobs[id]
              == JobRow(action.run, action.operation, Queued, "", 0, action.now, None, None, None, action.now)
  {}

  /** From which status an operation may start a run. */
  ghost predicate StartsFrom(operation: Operation, status: RunStatus) {
    || (operation == Start && status == Pending)
    || (operation == Resume && status == Waiting)
    || (operation == Retry && (status == Failed || status == TimedOut || status == Cancelled))
  }

  ghost predicate Ended(status: RunStatus) {
    status == Succeeded || status == Failed || status == TimedOut || status == Cancelled
  }

  /** A run set to a status at a time: the first start stays, an end is dated. */
  ghost predicate RunSet(row: RunRow, row': RunRow, status: RunStatus, now: int) {
    && row'.status == status
    && row'.startedAt == (if row.startedAt.Some? || status != Running then row.startedAt else Some(now))
    && row'.finishedAt == (if Ended(status) then Some(now) else row.finishedAt)
  }

  /** A worker's begin starts its run exactly when the job's operation may, and otherwise settles the job as
      failed; a completed execution writes its outcome on the run, and settles the job as succeeded
      exactly when there is one. */
  lemma {:induction false} WorkersMoveRuns(w: World, action: Action)
    requires Enabled(w, action)
    ensures var w' := Perform(w, action);
            match action
            case Begin(caller, now) =>
              var job := w.callers[caller].job;
              var run := w.jobs[job].run;
              if StartsFrom(w.jobs[job].operation, w.runs[run].status) then
                && run in w'.runs && RunSet(w.runs[run], w'.runs[run], Running, now)
                && w'.callers == w.callers[caller := Executing(Some(job), run)]
              else w'.runs == w.runs && w'.callers == w.callers[caller := Settling(job, JobFailed)]
            case Act(caller, run, operation, now) =>
              if StartsFrom(operation, w.runs[run].status) then
                && run in w'.runs && RunSet(w.runs[run], w'.runs[run], Running, now)
                && w'.callers == w.callers[caller := Executing(None, run)]
              else w' == w
            case Complete(caller, outcome, now) =>
              var pc := w.callers[caller];
              && (if outcome.Some? then
                    pc.run in w'.runs && RunSet(w.runs[pc.run], w'.runs[pc.run], outcome.value, now)
                  else w'.runs == w.runs)
              && w'.callers == (if pc.via.None? then w.callers - {caller}
                                else w.callers[caller := Settling(pc.via.value,
                                                                  if outcome.None? then JobFailed else JobSucceeded)])
            case Cancel(run, now) =>
              if w.runs[run].status == Pending || w.runs[run].status == Running || w.runs[run].status == Waiting then
                run in w'.runs && RunSet(w.runs[run], w'.runs[run], Cancelled, now)
              else w' == w
            case Claim(caller, id, _, _) => w'.runs == w.runs && w'.callers == w.callers[caller := Holding(id)]
            case _ => true
  {}

  /** And no transaction touches another run. */
  lemma {:induction false} OtherRunsStay(w: World, action: Action, run: nat)
    requires Enabled(w, action) && run in w.runs
    requires match action
             case Begin(caller, _) => w.jobs[w.callers[caller].job].run != run
             case Act(_, acted, _, _) => acted != run
             case Complete(caller, _, _) => w.callers[caller].run != run
             case Cancel(cancelled, _) => cancelled != run
             case _ => true
    ensures run in Perform(w, action).runs && Perform(w, action).runs[run] == w.runs[run]
  {}

  // ----- the invariant -----

  function JobOf(pc: Pc): Option<nat> {
    match pc
    case Holding(job) => Some(job)
    case Executing(via, _) => via
    case Settling(job, _) => Some(job)
  }

  ghost predicate Holds(w: World, caller: nat, job: nat) {
    caller in w.callers && JobOf(w.callers[caller]) == Some(job)
  }

  /** At most one queued or claimed job per run. */
  ghost predicate OneActive(jobs: map<nat, JobRow>) {
    forall a, b :: a in jobs && b in jobs && Active(jobs[a]) && Active(jobs[b]) && jobs[a].run == jobs[b].run ==> a == b
  }

  ghost predicate RowOk(row: JobRow) {
    && (row.status == Queued ==> row.workerId == "" && row.claimedAt.None? && row.heartbeatAt.None?)
    && (row.status == Claimed ==> row.attempts >= 1 && row.claimedAt.Some? && row.heartbeatAt.Some?)
    && (!Active(row) <==> row.finishedAt.Some?)
    && (!Active(row) ==> row.attempts >= 1)
  }

  /** A pending run has no dates, a running one has started, a terminal one has finished. */
  ghost predicate RunRowOk(row: RunRow) {
    && (row.status == Pending ==> row.startedAt.None? && row.finishedAt.None?)
    && (row.status == Running ==> row.startedAt.Some?)
    && (Terminal(row.status) ==> row.finishedAt.Some?)
  }

  ghost predicate CallerOk(w: World, pc: Pc) {
    && (JobOf(pc).Some? ==> JobOf(pc).value in w.jobs && w.jobs[JobOf(pc).value].attempts >= 1)
    && (pc.Executing? ==> pc.run in w.runs && w.runs[pc.run].status != Pending)
    && (pc.Settling? ==> pc.status == JobSucceeded || pc.status == JobFailed)
  }

  ghost predicate Inv(w: World) {
    && OneActive(w.jobs)
    && (forall run :: run in w.runs ==> RunRowOk(w.runs[run]))
    && (forall id :: id in w.jobs ==> RowOk(w.jobs[id]) && w.jobs[id].run in w.runs)
    && (forall caller :: caller in w.callers ==> CallerOk(w, w.callers[caller]))
    && (forall a, b, job :: Holds(w, a, job) && Holds(w, b, job) && a != b ==> w.jobs[job].attempts >= 2)
  }

  // ----- every transaction keeps it -----

  /** Rows only move on: a finished job never becomes active again, and attempts never fall. */
  ghost predicate JobsMoveOn(jobs: map<nat, JobRow>, jobs': map<nat, JobRow>) {
    forall id :: id in jobs ==>
      && id in jobs' && jobs'[id].run == jobs[id].run && jobs'[id].operation == jobs[id].operation
      && jobs'[id].attempts >= jobs[id].attempts
      && (Active(jobs'[id]) ==> Active(jobs[id]))
  }

  /** No run goes back to pending, and the first start time stays. */
  ghost predicate RunsMoveOn(runs: map<nat, RunRow>, runs': map<nat, RunRow>) {
    forall id :: id in runs ==>
      && id in runs'
      && (runs[id].status != Pending ==> runs'[id].status != Pending)
      && (runs[id].startedAt.Some? ==> runs'[id].startedAt == runs[id].startedAt)
  }

  ghost predicate Advances(w: World, w': World) {
    JobsMoveOn(w.jobs, w'.jobs) && RunsMoveOn(w.runs, w'.runs)
  }

  /** Updating existing rows keeps one active job per run. */
  lemma {:induction false} OneActiveKept(jobs: map<nat, JobRow>, jobs': map<nat, JobRow>)
    requires OneActive(jobs) && JobsMoveOn(jobs, jobs') && jobs'.Keys == jobs.Keys
    ensures OneActive(jobs')
  {}

  lemma {:induction false} CallerStays(w: World, w': World, pc: Pc)
    requires CallerOk(w, pc) && Advances(w, w')
    ensures CallerOk(w', pc)
  {}

  /** The invariant after a transaction that adds no holder. */
  lemma {:induction false} NoNewHolder(w: World, w': World)
    requires Inv(w) && Advances(w, w') && OneActive(w'.jobs)
    requires forall run :: run in w'.runs ==> RunRowOk(w'.runs[run])
    requires forall id :: id in w'.jobs ==> RowOk(w'.jobs[id]) && w'.jobs[id].run in w'.runs
    requires forall caller :: caller in w'.callers ==>
               caller in w.callers && (w'.callers[caller] == w.callers[caller]
                                       || (&& CallerOk(w', w'.callers[caller])
                                           && JobOf(w'.callers[caller]) == JobOf(w.callers[caller])))
    ensures Inv(w')
  {
    forall caller | caller in w'.callers ensures CallerOk(w', w'.callers[caller]) {
      if w'.callers[caller] == w.callers[caller] { CallerStays(w, w', w.callers[caller]); }
    }
    forall a, b, job | Holds(w', a, job) && Holds(w', b, job) && a != b ensures w'.jobs[job].attempts >= 2 {
      assert Holds(w, a, job) && Holds(w, b, job);
      assert CallerOk(w, w.callers[a]);
    }
  }

  lemma {:induction false} EnqueueKeeps(w: World, id: nat, run: nat, operation: Operation, now: int)
    requires Inv(w) && id !in w.jobs && run in w.runs
    ensures var w' := w.(jobs := Enqueue(w.jobs, id, run, operation, now)); Inv(w') && Advances(w, w')
  {
    hide RunRowOk;
    NoNewHolder(w, w.(jobs := Enqueue(w.jobs, id, run, operation, now)));
  }

  lemma {:induction false} ClaimKeeps(w: World, caller: nat, id: nat, worker: string, now: int)
    requires Inv(w) && Enabled(w, Claim(caller, id, worker, now))
    ensures Inv(Perform(w, Claim(caller, id, worker, now))) && Advances(w, Perform(w, Claim(caller, id, worker, now)))
  {
    hide RunRowOk;
    var w' := Perform(w, Claim(caller, id, worker, now));
    OneActiveKept(w.jobs, w'.jobs);
    forall other | other in w'.callers ensures CallerOk(w', w'.callers[other]) {
      if other != caller { CallerStays(w, w', w.callers[other]); }
    }
    forall a, b, job | Holds(w', a, job) && Holds(w', b, job) && a != b ensures w'.jobs[job].attempts >= 2 {
      if a != caller && b != caller {
        assert Holds(w, a, job) && Holds(w, b, job);
        assert CallerOk(w, w.callers[a]);
      } else {
        var other := if a == caller then b else a;
        assert CallerOk(w, w.callers[other]);
      }
    }
  }

  lemma {:induction false} RowKeeps(w: World, id: nat, row: JobRow)
    requires Inv(w) && id in w.jobs && RowOk(row)
    requires row.run == w.jobs[id].run && row.operation == w.jobs[id].operation && row.attempts >= w.jobs[id].attempts
    requires Active(row) ==> Active(w.jobs[id])
    ensures var w' := w.(jobs := w.jobs[id := row]); Inv(w') && Advances(w, w')
  {
    var w' := w.(jobs := w.jobs[id := row]);
    OneActiveKept(w.jobs, w'.jobs);
    NoNewHolder(w, w');
  }

  lemma {:induction false} RecoverKeeps(w: World, cutoff: int, now: int)
    requires Inv(w)
    ensures var w' := w.(jobs := Recover(w.jobs, cutoff, now)); Inv(w') && Advances(w, w')
  {
    var w' := w.(jobs := Recover(w.jobs, cutoff, now));
    OneActiveKept(w.jobs, w'.jobs);
    NoNewHolder(w, w');
  }

  lemma {:induction false} RunKeeps(w: World, run: nat, status: RunStatus, now: int)
    requires Inv(w) && run in w.runs && status != Pending
    ensures var w' := w.(runs := w.runs[run := Transition(w.runs[run], status, now)]); Inv(w') && Advances(w, w')
  {
    NoNewHolder(w, w.(runs := w.runs[run := Transition(w.runs[run], status, now)]));
  }

  /** A caller moves on, on the same job or on none. */
  lemma {:induction false} MoveKeeps(w: World, caller: nat, pc: Pc)
    requires Inv(w) && CallerOk(w, pc)
    requires if caller in w.callers then JobOf(pc) == JobOf(w.callers[caller]) else JobOf(pc) == None
    ensures Inv(w.(callers := w.callers[caller := pc]))
  {
    var w' := w.(callers := w.callers[caller := pc]);
    forall a, b, job | Holds(w', a, job) && Holds(w', b, job) && a != b ensures w'.jobs[job].attempts >= 2 {
      assert Holds(w, a, job) && Holds(w, b, job);
    }
  }

  lemma {:induction false} LeaveKeeps(w: World, caller: nat)
    requires Inv(w)
    ensures Inv(w.(callers := w.callers - {caller}))
  {
    NoNewHolder(w, w.(callers := w.callers - {caller}));
  }

  lemma {:induction false} BeginKeeps(w: World, caller: nat, now: int)
    requires Inv(w) && Enabled(w, Begin(caller, now))
    ensures Inv(Perform(w, Begin(caller, now))) && Advances(w, Perform(w, Begin(caller, now)))
  {
    var job := w.callers[caller].job;
    var run := w.jobs[job].run;
    assert CallerOk(w, w.callers[caller]);
    if CanBegin(w.jobs[job].operation, w.runs[run].status) {
      RunKeeps(w, run, Running, now);
      MoveKeeps(w.(runs := w.runs[run := Transition(w.runs[run], Running, now)]), caller, Executing(Some(job), run));
    } else {
      MoveKeeps(w, caller, Settling(job, JobFailed));
    }
  }

  lemma {:induction false} ActKeeps(w: World, caller: nat, run: nat, operation: Operation, now: int)
    requires Inv(w) && Enabled(w, Act(caller, run, operation, now))
    ensures var w' := Perform(w, Act(caller, run, operation, now)); Inv(w') && Advances(w, w')
  {
    if CanBegin(operation, w.runs[run].status) {
      RunKeeps(w, run, Running, now);
      MoveKeeps(w.(runs := w.runs[run := Transition(w.runs[run], Running, now)]), caller, Executing(None, run));
    }
  }

  lemma {:induction false} CompleteKeeps(w: World, caller: nat, outcome: Option<RunStatus>, now: int)
    requires Inv(w) && Enabled(w, Complete(caller, outcome, now))
    ensures Inv(Perform(w, Complete(caller, outcome, now))) && Advances(w, Perform(w, Complete(caller, outcome, now)))
  {
    var pc := w.callers[caller];
    assert CallerOk(w, pc);
    var w' := w;
    if outcome.Some? {
      RunKeeps(w, pc.run, outcome.value, now);
      w' := w.(runs := w.runs[pc.run := Transition(w.runs[pc.run], outcome.value, now)]);
    }
    match pc.via
    case Some(job) => MoveKeeps(w', caller, Settling(job, if outcome.Some? then JobSucceeded else JobFailed));
    case None => LeaveKeeps(w', caller);
  }

  lemma {:induction false} FinishKeeps(w: World, caller: nat, now: int)
    requires Inv(w) && Enabled(w, Finish(caller, now))
    ensures Inv(Perform(w, Finish(caller, now))) && Advances(w, Perform(w, Finish(caller, now)))
  {
    var pc := w.callers[caller];
    assert CallerOk(w, pc);
    RowKeeps(w, pc.job, FinishRow(w.jobs[pc.job], pc.status, now));
    LeaveKeeps(w.(jobs := w.jobs[pc.job := FinishRow(w.jobs[pc.job], pc.status, now)]), caller);
  }

  lemma {:induction false} ActionKeepsInv(w: World, action: Action)
    requires Inv(w) && Enabled(w, action)
    ensures Inv(Perform(w, action)) && Advances(w, Perform(w, action))
  {
    match action
    case CreateRun(_) => NoNewHolder(w, Perform(w, action));
    case EnqueueJob(id, run, operation, now) => EnqueueKeeps(w, id, run, operation, now);
    case Claim(caller, id, worker, now) => ClaimKeeps(w, caller, id, worker, now);
    case Heartbeat(id, now) => RowKeeps(w, id, HeartbeatRow(w.jobs[id], now));
    case RecoverStale(cutoff, now) => RecoverKeeps(w, cutoff, now);
    case Begin(caller, now) => BeginKeeps(w, caller, now);
    case Act(caller, run, operation, now) => ActKeeps(w, caller, run, operation, now);
    case Complete(caller, outcome, now) => CompleteKeeps(w, caller, outcome, now);
    case Finish(caller, now) => FinishKeeps(w, caller, now);
    case Cancel(run, now) => if CanCancel(w.runs[run].status) { RunKeeps(w, run, Cancelled, now); }
    case Die(caller) => LeaveKeeps(w, caller);
  }

  // ----- runs of the whole system -----

  ghost predicate Run(worlds: seq<World>, actions: seq<Action>) {
    && |worlds| == |actions| + 1
    && worlds[0] == World(map[], map[], map[])
    && forall i {:trigger actions[i]} :: 0 <= i < |actions| ==>
         Enabled(worlds[i], actions[i]) && worlds[i + 1] == Perform(worlds[i], actions[i])
  }

  lemma {:induction false} RunKeepsInv(worlds: seq<World>, actions: seq<Action>, i: nat)
    requires Run(worlds, actions) && i < |worlds|
    ensures Inv(worlds[i])
  {
    if i > 0 {
      assert actions[i - 1] == actions[i - 1];
      RunKeepsInv(worlds, actions, i - 1);
      ActionKeepsInv(worlds[i - 1], actions[i - 1]);
    }
  }

  /** However workers claim, heartbeat, re-queue and die: at most one queued or claimed job per run. */
  lemma {:induction false} OneActiveJobPerRun(worlds: seq<World>, actions: seq<Action>, i: nat, a: nat, b: nat)
    requires Run(worlds, actions) && i < |worlds|
    requires a in worlds[i].jobs && b in worlds[i].jobs && worlds[i].jobs[a].run == worlds[i].jobs[b].run
    requires Active(worlds[i].jobs[a]) && Active(worlds[i].jobs[b])
    ensures a == b
  {
    RunKeepsInv(worlds, actions, i);
  }

  function Claims(actions: seq<Action>, job: nat): nat {
    if actions == [] then 0
    else Claims(Front(actions), job) + (if Last(actions).Claim? && Last(actions).id == job then 1 else 0)
  }

  /** `attempts` counts the claims of a job, over its whole history. */
  lemma {:induction false} AttemptsCountClaims(worlds: seq<World>, actions: seq<Action>, i: nat, job: nat)
    requires Run(worlds, actions) && i < |worlds|
    ensures job in worlds[i].jobs ==> worlds[i].jobs[job].attempts == Claims(actions[..i], job)
    ensures job !in worlds[i].jobs ==> Claims(actions[..i], job) == 0
  {
    if i > 0 {
      AttemptsCountClaims(worlds, actions, i - 1, job);
      assert actions[i - 1] == actions[i - 1];
      assert Front(actions[..i]) == actions[..i - 1];
      ClaimStep(worlds[i - 1], actions[i - 1], job);
    }
  }

  lemma {:induction false} ClaimStep(w: World, action: Action, job: nat)
    requires Enabled(w, action)
    ensures var w', n := Perform(w, action), if action.Claim? && action.id == job then 1 else 0;
            && (job in w.jobs ==> job in w'.jobs && w'.jobs[job].attempts == w.jobs[job].attempts + n)
            && (job !in w.jobs && job in w'.jobs ==> w'.jobs[job].attempts == 0)
            && (job !in w.jobs ==> n == 0)
  {}

  predicate Starts(w: World, w': World, run: nat) {
    run in w.runs && w.runs[run].status == Pending && run in w'.runs && w'.runs[run].status == Running
  }

  lemma {:induction false} NeverPendingAgain(worlds: seq<World>, actions: seq<Action>, i: nat, j: nat, run: nat)
    requires Run(worlds, actions) && i <= j < |worlds|
    requires run in worlds[i].runs && worlds[i].runs[run].status != Pending
    ensures run in worlds[j].runs && worlds[j].runs[run].status != Pending
    decreases j - i
  {
    if i < j {
      NeverPendingAgain(worlds, actions, i, j - 1, run);
      assert actions[j - 1] == actions[j - 1];
      RunKeepsInv(worlds, actions, j - 1);
      ActionKeepsInv(worlds[j - 1], actions[j - 1]);
    }
  }

  /** In every reachable state the dates of a run fit its status, and its start time, once set, is the
      time of its first start for good. */
  lemma {:induction false} RunDatesFit(worlds: seq<World>, actions: seq<Action>, i: nat, j: nat, run: nat)
    requires Run(worlds, actions) && i <= j < |worlds| && run in worlds[i].runs
    ensures run in worlds[j].runs && RunRowOk(worlds[j].runs[run])
    ensures worlds[i].runs[run].startedAt.Some? ==> worlds[j].runs[run].startedAt == worlds[i].runs[run].startedAt
    decreases j - i
  {
    RunKeepsInv(worlds, actions, j);
    if i < j {
      RunDatesFit(worlds, actions, i, j - 1, run);
      assert actions[j - 1] == actions[j - 1];
      RunKeepsInv(worlds, actions, j - 1);
      ActionKeepsInv(worlds[j - 1], actions[j - 1]);
    }
  }

  /** A run starts at most once, even when two workers execute the same re-queued start job. */
  lemma {:induction false} StartsOnce(worlds: seq<World>, actions: seq<Action>, i: nat, j: nat, run: nat)
    requires Run(worlds, actions) && i < |actions| && j < |actions|
    requires Starts(worlds[i], worlds[i + 1], run) && Starts(worlds[j], worlds[j + 1], run)
    ensures i == j
  {
    if i < j { NeverPendingAgain(worlds, actions, i + 1, j, run); }
    if j < i { NeverPendingAgain(worlds, actions, j + 1, i, run); }
  }

  // ----- when a finished job's outcome is final -----

  lemma {:induction false} UnheldStays(w: World, action: Action, job: nat)
    requires Inv(w) && Enabled(w, action) && job in w.jobs && !Active(w.jobs[job])
    requires forall caller :: !Holds(w, caller, job)
    ensures var w' := Perform(w, action);
            job in w'.jobs && w'.jobs[job] == w.jobs[job] && forall caller :: !Holds(w', caller, job)
  {
    var w' := Perform(w, action);
    match action {
      case Finish(caller, _) =>
        assert !Holds(w, caller, job);
      case Begin(caller, _) =>
        assert !Holds(w, caller, job);
      case Complete(caller, _, _) =>
        assert !Holds(w, caller, job);
      case _ =>
    }
    forall caller ensures !Holds(w', caller, job) {
      assert !Holds(w, caller, job);
    }
  }

  /** A finished job that no worker still holds keeps its row for good. */
  lemma {:induction false} UnheldOutcomesAreFinal(worlds: seq<World>, actions: seq<Action>, i: nat, j: nat, job: nat)
    requires Run(worlds, actions) && i <= j < |worlds| && job in worlds[i].jobs && !Active(worlds[i].jobs[job])
    requires forall caller :: !Holds(worlds[i], caller, job)
    ensures job in worlds[j].jobs && worlds[j].jobs[job] == worlds[i].jobs[job]
    ensures forall caller :: !Holds(worlds[j], caller, job)
    decreases j - i
  {
    if i < j {
      UnheldOutcomesAreFinal(worlds, actions, i, j - 1, job);
      assert actions[j - 1] == actions[j - 1];
      RunKeepsInv(worlds, actions, j - 1);
      UnheldStays(worlds[j - 1], actions[j - 1], job);
    }
  }

  lemma SoleHolder(w: World, caller: nat, other: nat, job: nat)
    requires Inv(w) && Holds(w, caller, job) && job in w.jobs && w.jobs[job].attempts == 1
    ensures Holds(w, other, job) ==> other == caller
  {}

  /** In particular a job that was claimed once is final as soon as it is finished. */
  lemma {:induction false} SingleClaimIsFinal(
      worlds: seq<World>, actions: seq<Action>, i: nat, j: nat, caller: nat, now: int)
    requires Run(worlds, actions) && i < j < |worlds| && actions[i] == Finish(caller, now)
    requires caller in worlds[i].callers && worlds[i].callers[caller].Settling?
    requires var job := worlds[i].callers[caller].job; job in worlds[i].jobs && worlds[i].jobs[job].attempts == 1
    ensures var pc := worlds[i].callers[caller];
            pc.job in worlds[j].jobs && worlds[j].jobs[pc.job].status == pc.status
  {
    var pc := worlds[i].callers[caller];
    RunKeepsInv(worlds, actions, i);
    RunKeepsInv(worlds, actions, i + 1);
    assert CallerOk(worlds[i], pc);
    assert Holds(worlds[i], caller, pc.job);
    var next := worlds[i + 1];
    forall other: nat ensures !Holds(next, other, pc.job) {
      SoleHolder(worlds[i], caller, other, pc.job);
    }
    UnheldOutcomesAreFinal(worlds, actions, i + 1, j, pc.job);
  }

  ghost predicate Reachable(w: World) {
    exists worlds, actions :: Run(worlds, actions) && Last(worlds) == w
  }

  lemma ReachInitial()
    ensures Reachable(World(map[], map[], map[]))
  {
    assert Run([World(map[], map[], map[])], []);
  }

  lemma ReachStep(w: World, action: Action)
    requires Reachable(w) && Enabled(w, action)
    ensures Reachable(Perform(w, action))
  {
    var worlds, actions :| Run(worlds, actions) && Last(worlds) == w;
    var worlds', actions' := worlds + [Perform(w, action)], actions + [action];
    forall i {:trigger actions'[i]} | 0 <= i < |actions'|
      ensures Enabled(worlds'[i], actions'[i]) && worlds'[i + 1] == Perform(worlds'[i], actions'[i])
    {
      if i < |actions| { assert actions'[i] == actions[i]; }
    }
    assert Run(worlds', actions');
  }

  function StartJob(status: JobStatus, worker: string, attempts: nat, at: Option<int>): JobRow {
    JobRow(0, Start, status, worker, attempts, if attempts == 0 then 0 else 1000, at, at, None, 0)
  }

  /** A start job is claimed, goes stale, and is queued again. */
  lemma Requeued()
    ensures Reachable(World(map[0 := RunRow(Pending, None, None)], map[0 := StartJob(Queued, "", 1, None)],
                            map[1 := Holding(0)]))
  {
    hide Reachable;
    ReachInitial();
    var pending := map[0 := RunRow(Pending, None, None)];
    ReachStep(World(map[], map[], map[]), CreateRun(0));
    ReachStep(World(pending, map[], map[]), EnqueueJob(0, 0, Start, 0));
    var queued := StartJob(Queued, "", 0, None);
    ReachStep(World(pending, map[0 := queued], map[]), Claim(1, 0, "a", 0));
    var claimed := ClaimRow(queued, "a", 0);
    ReachStep(World(pending, map[0 := claimed], map[1 := Holding(0)]), RecoverStale(1000, 1000));
    assert Recover(map[0 := claimed], 1000, 1000) == map[0 := StartJob(Queued, "", 1, None)];
  }

  /** Two workers hold the re-queued job; the first starts the run, the second is refused. */
  lemma TwoHolders()
    ensures Reachable(World(map[0 := RunRow(Running, Some(1000), None)],
                            map[0 := StartJob(Claimed, "b", 2, Some(1000))],
                            map[1 := Executing(Some(0), 0), 2 := Settling(0, JobFailed)]))
  {
    hide Reachable;
    Requeued();
    var pending := map[0 := RunRow(Pending, None, None)];
    var queued := StartJob(Queued, "", 1, None);
    ReachStep(World(pending, map[0 := queued], map[1 := Holding(0)]), Claim(2, 0, "b", 1000));
    var jobs := map[0 := StartJob(Claimed, "b", 2, Some(1000))];
    assert map[0 := queued][0 := ClaimRow(queued, "b", 1000)] == jobs;
    assert map[1 := Holding(0)][2 := Holding(0)] == map[1 := Holding(0), 2 := Holding(0)];
    ReachStep(World(pending, jobs, map[1 := Holding(0), 2 := Holding(0)]), Begin(1, 1000));
    var running := map[0 := RunRow(Running, Some(1000), None)];
    assert pending[0 := RunRow(Running, Some(1000), None)] == running;
    var callers := map[1 := Executing(Some(0), 0), 2 := Holding(0)];
    assert map[1 := Holding(0), 2 := Holding(0)][1 := Executing(Some(0), 0)] == callers;
    ReachStep(World(running, jobs, callers), Begin(2, 1000));
    assert callers[2 := Settling(0, JobFailed)] == map[1 := Executing(Some(0), 0), 2 := Settling(0, JobFailed)];
  }

  /** With a second holder it is not: a re-queued start job ends succeeded, and then failed. */
  lemma FinishedJobsFlip() returns (w: World, action: Action)
    ensures Reachable(w) && Enabled(w, action)
    ensures 0 in w.jobs && w.jobs[0].status == JobSucceeded && Perform(w, action).jobs[0].status == JobFailed
  {
    hide Reachable;
    TwoHolders();
    var w0 := World(map[0 := RunRow(Running, Some(1000), None)], map[0 := StartJob(Claimed, "b", 2, Some(1000))],
                    map[1 := Executing(Some(0), 0), 2 := Settling(0, JobFailed)]);
    ReachStep(w0, Complete(1, Some(Succeeded), 1001));
    var w1 := Perform(w0, Complete(1, Some(Succeeded), 1001));
    ReachStep(w1, Finish(1, 1001));
    w, action := Perform(w1, Finish(1, 1001)), Finish(2, 1001);
  }

  /** A terminal run only leaves its status through a retry, or because an execution that was already
      under way completes: nothing else, in particular no start, resume or cancellation, changes it. */
  lemma {:induction false} TerminalLeavesBy(w: World, action: Action, run: nat)
    requires Inv(w) && Enabled(w, action) && run in w.runs && Terminal(w.runs[run].status)
    requires Perform(w, action).runs[run].status != w.runs[run].status
    ensures
      || (action.Complete? && w.callers[action.caller].run == run)
      || (action.Act? && action.run == run && action.operation == Retry)
      || (action.Begin? && w.jobs[w.callers[action.caller].job].run == run
          && w.jobs[w.callers[action.caller].job].operation == Retry)
  {}

  // ----- what stays in every continuation -----

  /** A run of the system that begins in some state. */
  ghost predicate Continues(w: World, worlds: seq<World>, actions: seq<Action>) {
    && |worlds| == |actions| + 1
    && worlds[0] == w
    && forall i {:trigger actions[i]} :: 0 <= i < |actions| ==>
         Enabled(worlds[i], actions[i]) && worlds[i + 1] == Perform(worlds[i], actions[i])
  }

  lemma OneStep(w: World, action: Action)
    requires Enabled(w, action)
    ensures Continues(w, [w, Perform(w, action)], [action])
  {}

  lemma {:induction false} Then(w: World, worlds: seq<World>, actions: seq<Action>, action: Action)
    requires Continues(w, worlds, actions) && Enabled(Last(worlds), action)
    ensures Continues(w, worlds + [Perform(Last(worlds), action)], actions + [action])
  {
    var worlds', actions' := worlds + [Perform(Last(worlds), action)], actions + [action];
    forall i {:trigger actions'[i]} | 0 <= i < |actions'|
      ensures Enabled(worlds'[i], actions'[i]) && worlds'[i + 1] == Perform(worlds'[i], actions'[i])
    {
      if i < |actions| { assert actions'[i] == actions[i]; }
    }
  }

  lemma {:induction false} ContinuesKeepsInv(w: World, worlds: seq<World>, actions: seq<Action>, i: nat)
    requires Inv(w) && Continues(w, worlds, actions) && i < |worlds|
    ensures Inv(worlds[i])
  {
    if i > 0 {
      assert actions[i - 1] == actions[i - 1];
      ContinuesKeepsInv(w, worlds, actions, i - 1);
      ActionKeepsInv(worlds[i - 1], actions[i - 1]);
    }
  }

  ghost predicate JobRowStays(w: World, job: nat)
    requires job in w.jobs
  {
    forall worlds, actions :: Continues(w, worlds, actions) ==>
      job in Last(worlds).jobs && Last(worlds).jobs[job] == w.jobs[job]
  }

  lemma {:induction false} UnheldStaysOn(w: World, worlds: seq<World>, actions: seq<Action>, i: nat, job: nat)
    requires Inv(w) && job in w.jobs && !Active(w.jobs[job]) && forall caller :: !Holds(w, caller, job)
    requires Continues(w, worlds, actions) && i < |worlds|
    ensures job in worlds[i].jobs && worlds[i].jobs[job] == w.jobs[job]
    ensures forall caller :: !Holds(worlds[i], caller, job)
  {
    if i > 0 {
      assert actions[i - 1] == actions[i - 1];
      UnheldStaysOn(w, worlds, actions, i - 1, job);
      ContinuesKeepsInv(w, worlds, actions, i - 1);
      UnheldStays(worlds[i - 1], actions[i - 1], job);
    }
  }

  /** A caller that is settling a finished job rewrites its row. */
  lemma {:induction false} SettlingRewrites(w: World, worlds: seq<World>, actions: seq<Action>, caller: nat, job: nat)
    requires Continues(w, worlds, actions)
    requires job in w.jobs && w.jobs[job].finishedAt.Some?
    requires Last(worlds).jobs == w.jobs
    requires caller in Last(worlds).callers && Last(worlds).callers[caller].Settling?
    requires Last(worlds).callers[caller].job == job
    ensures !JobRowStays(w, job)
  {
    var action := Finish(caller, w.jobs[job].finishedAt.value + 1);
    Then(w, worlds, actions, action);
    var final := Perform(Last(worlds), action);
    assert Last(worlds + [final]) == final && final.jobs[job].finishedAt != w.jobs[job].finishedAt;
  }

  lemma {:induction false} ExecutingRewrites(w: World, worlds: seq<World>, actions: seq<Action>, caller: nat, job: nat)
    requires Continues(w, worlds, actions)
    requires job in w.jobs && w.jobs[job].finishedAt.Some?
    requires Last(worlds).jobs == w.jobs
    requires caller in Last(worlds).callers && Last(worlds).callers[caller].Executing?
    requires Last(worlds).callers[caller].via == Some(job) && Last(worlds).callers[caller].run in Last(worlds).runs
    ensures !JobRowStays(w, job)
  {
    var action := Complete(caller, None, 0);
    Then(w, worlds, actions, action);
    SettlingRewrites(w, worlds + [Perform(Last(worlds), action)], actions + [action], caller, job);
  }

  /** Whoever still holds a finished job can rewrite its row: by settling it, after completing, after
      beginning, as the case may be. */
  lemma {:induction false} HeldRowsChange(w: World, caller: nat, job: nat)
    requires Inv(w) && job in w.jobs && !Active(w.jobs[job]) && Holds(w, caller, job)
    ensures !JobRowStays(w, job)
  {
    var pc := w.callers[caller];
    assert CallerOk(w, pc) && RowOk(w.jobs[job]);
    assert Continues(w, [w], []);
    match pc
    case Settling(_, _) => SettlingRewrites(w, [w], [], caller, job);
    case Executing(_, _) => ExecutingRewrites(w, [w], [], caller, job);
    case Holding(_) =>
      var action := Begin(caller, 0);
      OneStep(w, action);
      var next := Perform(w, action);
      if next.callers[caller].Settling? {
        SettlingRewrites(w, [w, next], [action], caller, job);
      } else {
        ExecutingRewrites(w, [w, next], [action], caller, job);
      }
  }

  /** A finished job's row is the same in every continuation if and only if nobody holds the job. */
  lemma {:induction false} OutcomeIsFinalIff(w: World, job: nat)
    requires Inv(w) && job in w.jobs && !Active(w.jobs[job])
    ensures JobRowStays(w, job) <==> forall caller :: !Holds(w, caller, job)
  {
    if caller :| Holds(w, caller, job) {
      HeldRowsChange(w, caller, job);
    } else {
      forall worlds, actions | Continues(w, worlds, actions)
        ensures job in Last(worlds).jobs && Last(worlds).jobs[job] == w.jobs[job]
      {
        UnheldStaysOn(w, worlds, actions, |worlds| - 1, job);
      }
    }
  }

  // ----- when a run's status is final -----

  ghost predicate RunRowStays(w: World, run: nat)
    requires run in w.runs
  {
    forall worlds, actions :: Continues(w, worlds, actions) ==>
      run in Last(worlds).runs && Last(worlds).runs[run] == w.runs[run]
  }

  ghost predicate Executes(w: World, caller: nat, run: nat) {
    caller in w.callers && w.callers[caller].Executing? && w.callers[caller].run == run
  }

  /** A succeeded run that nobody executes is left alone by every transaction. */
  lemma {:induction false} SucceededStep(w: World, action: Action, run: nat)
    requires Enabled(w, action) && run in w.runs && w.runs[run].status == Succeeded
    requires forall caller :: !Executes(w, caller, run)
    ensures var w' := Perform(w, action);
            run in w'.runs && w'.runs[run] == w.runs[run] && forall caller :: !Executes(w', caller, run)
  {
    var w' := Perform(w, action);
    if action.Complete? { assert !Executes(w, action.caller, run); }
    forall caller ensures !Executes(w', caller, run) {
      assert !Executes(w, caller, run);
    }
  }

  lemma {:induction false} SucceededStaysOn(w: World, worlds: seq<World>, actions: seq<Action>, i: nat, run: nat)
    requires run in w.runs && w.runs[run].status == Succeeded && forall caller :: !Executes(w, caller, run)
    requires Continues(w, worlds, actions) && i < |worlds|
    ensures run in worlds[i].runs && worlds[i].runs[run] == w.runs[run]
    ensures forall caller :: !Executes(worlds[i], caller, run)
  {
    if i > 0 {
      assert actions[i - 1] == actions[i - 1];
      SucceededStaysOn(w, worlds, actions, i - 1, run);
      SucceededStep(worlds[i - 1], actions[i - 1], run);
    }
  }

  lemma StepRewrites(w: World, action: Action, run: nat)
    requires Enabled(w, action) && run in w.runs && run in Perform(w, action).runs
    requires Perform(w, action).runs[run] != w.runs[run]
    ensures !RunRowStays(w, run)
  {
    OneStep(w, action);
    assert Last([w, Perform(w, action)]) == Perform(w, action);
  }

  /** A terminal run keeps its row in every continuation if and only if it succeeded and no execution
      of it is under way: the other terminal statuses can always be left by a retry, and an execution
      under way can always overwrite the row. */
  lemma {:induction false} StatusIsFinalIff(w: World, run: nat)
    requires Inv(w) && run in w.runs && Terminal(w.runs[run].status)
    ensures RunRowStays(w, run) <==>
              w.runs[run].status == Succeeded && forall caller :: !Executes(w, caller, run)
  {
    if caller :| Executes(w, caller, run) {
      StepRewrites(w, Complete(caller, Some(if w.runs[run].status == Failed then Succeeded else Failed), 0), run);
    } else if w.runs[run].status != Succeeded {
      var caller := Unused(w.callers.Keys);
      StepRewrites(w, Act(caller, run, Retry, 0), run);
    } else {
      forall worlds, actions | Continues(w, worlds, actions)
        ensures run in Last(worlds).runs && Last(worlds).runs[run] == w.runs[run]
      {
        SucceededStaysOn(w, worlds, actions, |worlds| - 1, run);
      }
    }
  }

  /** A run cancelled while it is executed ends succeeded when that execution completes. */
  lemma CancelledRunOverwritten() returns (w: World, action: Action)
    ensures Reachable(w) && Enabled(w, action)
    ensures 0 in w.runs && w.runs[0].status == Cancelled && Perform(w, action).runs[0].status == Succeeded
  {
    hide Reachable;
    ReachInitial();
    var pending := map[0 := RunRow(Pending, None, None)];
    ReachStep(World(map[], map[], map[]), CreateRun(0));
    ReachStep(World(pending, map[], map[]), Act(1, 0, Start, 10));
    var w1 := Perform(World(pending, map[], map[]), Act(1, 0, Start, 10));
    ReachStep(w1, Cancel(0, 11));
    w, action := Perform(w1, Cancel(0, 11)), Complete(1, Some(Succeeded), 12);
  }
}
