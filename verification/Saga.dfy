/** The order-fulfilment saga without its stores: running branches, retrying the retryable failures,
    undoing the successes. */
module Saga {
  import opened Prelude

  const OPERATIONS: seq<string> := ["reserve_inventory", "charge_payment", "provision_access"]

  function CompensationOf(operation: string): Option<string> {
    if operation == "reserve_inventory" then Some("release_inventory")
    else if operation == "charge_payment" then Some("refund_payment")
    else if operation == "provision_access" then Some("revoke_access")
    else None
  }

  type FailurePlan = map<string, string>

  datatype Branch = Branch(
    operation: string, status: string, retryable: bool, attempt: nat, idempotencyKey: string, detail: string)

  datatype Compensation = Compensation(
    operation: string, status: string, idempotencyKey: string, compensates: string)

  datatype State = State(
    orderId: string, failurePlan: FailurePlan, attempts: map<string, nat>, selected: seq<string>, results: seq<Branch>)

  datatype Report = Report(
    orderId: string, status: string, results: seq<Branch>, compensations: seq<Compensation>)

  datatype Failure = BadFailurePlan | Unavailable | BadDocument | BadAction | MissingField

  /** What a call writes next: a partial state, or the report that ends the saga. */
  datatype Plan = SavePartial(state: State) | Finish(report: Report) | Reject(failure: Failure)

  predicate ValidPlan(plan: FailurePlan) {
    forall op :: op in plan ==> op in OPERATIONS && plan[op] in ["retryable", "fatal"]
  }

  function ParsePlan(value: Option<FailurePlan>): Result<FailurePlan, Failure> {
    match value
    case None => Ok(map[])
    case Some(plan) => if ValidPlan(plan) then Ok(plan) else Err(BadFailurePlan)
  }

  /** A failure plan is taken as it is exactly when it names known operations and kinds of failure. */
  lemma ParsesIff(value: Option<FailurePlan>)
    ensures ParsePlan(value).Ok? <==>
              value.Some? ==> forall op :: op in value.value ==>
                && op in {"reserve_inventory", "charge_payment", "provision_access"}
                && (value.value[op] == "retryable" || value.value[op] == "fatal")
    ensures ParsePlan(value) == (if value.None? then Ok(map[]) else if ParsePlan(value).Ok? then Ok(value.value)
                                 else Err(BadFailurePlan))
  {}

  // ----- branches -----

  function Outcome(orderId: string, op: string, plan: FailurePlan, attempt: nat): (r: Branch)
    ensures r.operation == op && r.attempt == attempt
  {
    var planned := if op in plan then plan[op] else "";
    Branch(op,
           if planned == "retryable" || planned == "fatal" then "failed" else "succeeded",
           planned == "retryable",
           attempt,
           orderId + ":" + op,
           if planned == "" then "completed" else planned)
  }

  function RunBranches(orderId: string, ops: seq<string>, plan: FailurePlan, attempts: map<string, nat>): seq<Branch> {
    if ops == [] then []
    else [Outcome(orderId, ops[0], plan, (if ops[0] in attempts then attempts[ops[0]] else 0) + 1)]
         + RunBranches(orderId, ops[1..], plan, attempts)
  }

  function Invoke(state: State): State {
    state.(results := state.results
                      + RunBranches(state.orderId, state.selected, state.failurePlan, state.attempts))
  }

  predicate FailedRetryably(r: Branch) {
    r.status == "failed" && r.retryable
  }

  function RetryableOps(rs: seq<Branch>): seq<string> {
    if rs == [] then []
    else (if FailedRetryably(rs[0]) then [rs[0].operation] else []) + RetryableOps(rs[1..])
  }

  function Without(rs: seq<Branch>, ops: seq<string>): seq<Branch> {
    if rs == [] then []
    else (if rs[0].operation in ops then [] else [rs[0]]) + Without(rs[1..], ops)
  }

  function FatalCount(rs: seq<Branch>): nat {
    if rs == [] then 0 else (if rs[0].status == "failed" && !rs[0].retryable then 1 else 0) + FatalCount(rs[1..])
  }

  function Succeeded(rs: seq<Branch>): seq<Branch> {
    if rs == [] then []
    else (if rs[0].status == "succeeded" then [rs[0]] else []) + Succeeded(rs[1..])
  }

  function AttemptsOf(rs: seq<Branch>): map<string, nat> {
    if rs == [] then map[] else map[rs[0].operation := rs[0].attempt] + AttemptsOf(rs[1..])
  }

  function Total(rs: seq<Branch>): nat {
    if rs == [] then 0 else rs[0].attempt + Total(rs[1..])
  }

  predicate Failing(rs: seq<Branch>) {
    exists r :: r in rs && r.status == "failed"
  }

  // ----- what a call decides -----

  function Begin(orderId: string, plan: FailurePlan): State {
    State(orderId, plan, map[], OPERATIONS, [])
  }

  function Reconcile(state: State): Plan {
    if Failing(state.results) then
      SavePartial(State(state.orderId, state.failurePlan, AttemptsOf(state.results), [], state.results))
    else Finish(Report(state.orderId, "completed", state.results, []))
  }

  /** The state a retry runs the graph on. */
  function Reselect(state: State): State {
    var failures := RetryableOps(state.results);
    state.(selected := failures,
           results := Without(state.results, failures),
           failurePlan := state.failurePlan - (set op | op in failures))
  }

  function Retry(state: State): Plan {
    Reconcile(Invoke(Reselect(state)))
  }

  function Undo(orderId: string, succeeded: seq<Branch>): Option<seq<Compensation>> {
    if succeeded == [] then Some([])
    else
      match CompensationOf(Last(succeeded).operation)
      case None => None
      case Some(c) =>
        match Undo(orderId, Front(succeeded))
        case None => None
        case Some(rest) =>
          Some([Compensation(c, "succeeded", orderId + ":" + c, Last(succeeded).operation)] + rest)
  }

  function Compensate(state: State): Plan {
    match Undo(state.orderId, Succeeded(state.results))
    case None => Reject(MissingField)
    case Some(compensations) => Finish(Report(state.orderId, "compensated", state.results, compensations))
  }

  // ----- a state that accounts for every operation -----

  function Ops(rs: seq<Branch>): seq<string> {
    if rs == [] then [] else [rs[0].operation] + Ops(rs[1..])
  }

  ghost predicate Sound(orderId: string, plan: FailurePlan, r: Branch) {
    && r.status == (if r.operation in plan && plan[r.operation] in {"retryable", "fatal"} then "failed"
                    else "succeeded")
    && (r.retryable <==> r.operation in plan && plan[r.operation] == "retryable")
    && r.idempotencyKey == orderId + ":" + r.operation
    && r.detail == (if r.operation in plan && plan[r.operation] != "" then plan[r.operation] else "completed")
    && 1 <= r.attempt <= 2 && (r.retryable ==> r.attempt == 1)
  }

  /** Every operation has exactly one result, each result is what the plan says, and no operation
      has run more than twice. */
  ghost predicate AccountsFor(orderId: string, plan: FailurePlan, rs: seq<Branch>) {
    && ValidPlan(plan)
    && multiset(Ops(rs)) == multiset(OPERATIONS)
    && forall r :: r in rs ==> Sound(orderId, plan, r)
  }

  /** A state as it is stored between calls. */
  ghost predicate Accounted(orderId: string, state: State) {
    && state.orderId == orderId && state.selected == [] && state.attempts == AttemptsOf(state.results)
    && AccountsFor(orderId, state.failurePlan, state.results)
    && Failing(state.results)
  }

  // ----- list lemmas -----

  lemma {:induction false} OpsOf(rs: seq<Branch>)
    ensures |Ops(rs)| == |rs| && forall i :: 0 <= i < |rs| ==> Ops(rs)[i] == rs[i].operation
  {
    if rs != [] { OpsOf(rs[1..]); }
  }

  lemma {:induction false} OpsAppend(a: seq<Branch>, b: seq<Branch>)
    ensures Ops(a + b) == Ops(a) + Ops(b)
  {
    OpsOf(a);
    OpsOf(b);
    OpsOf(a + b);
  }

  lemma {:induction false} TotalAppend(a: seq<Branch>, b: seq<Branch>)
    ensures Total(a + b) == Total(a) + Total(b)
  {
    if a == [] {
      assert a + b == b;
    } else {
      var c := a + b;
      assert c[0] == a[0] && c[1..] == a[1..] + b;
      TotalAppend(a[1..], b);
    }
  }

  lemma {:induction false} OpsRun(orderId: string, ops: seq<string>, plan: FailurePlan, attempts: map<string, nat>)
    ensures var rs := RunBranches(orderId, ops, plan, attempts);
            && Ops(rs) == ops
            && |rs| == |ops|
            && forall i :: 0 <= i < |ops| ==>
                 rs[i] == Outcome(orderId, ops[i], plan, (if ops[i] in attempts then attempts[ops[i]] else 0) + 1)
  {
    hide Outcome;
    if ops != [] {
      OpsRun(orderId, ops[1..], plan, attempts);
      assert forall i :: 1 <= i < |ops| ==> ops[i] == ops[1..][i - 1];
    }
  }

  lemma {:induction false} RetryableIn(rs: seq<Branch>)
    ensures forall r :: r in rs && FailedRetryably(r) ==> r.operation in RetryableOps(rs)
    ensures forall op :: op in RetryableOps(rs) ==> exists r :: r in rs && FailedRetryably(r) && r.operation == op
  {
    if rs != [] { RetryableIn(rs[1..]); }
  }

  lemma {:induction false} SomeRetryable(rs: seq<Branch>) returns (r: Branch)
    requires RetryableOps(rs) != []
    ensures r in rs && FailedRetryably(r)
  {
    if FailedRetryably(rs[0]) { r := rs[0]; } else { r := SomeRetryable(rs[1..]); }
  }

  lemma {:induction false} WithoutIn(rs: seq<Branch>, ops: seq<string>)
    ensures forall r :: r in Without(rs, ops) <==> r in rs && r.operation !in ops
  {
    if rs != [] { WithoutIn(rs[1..], ops); }
  }

  /** Every result of an accounted state is a success, a retryable failure or a fatal one. */
  lemma {:induction false} CountsAddUp(rs: seq<Branch>)
    requires forall r :: r in rs ==> r.status in {"failed", "succeeded"}
    ensures |RetryableOps(rs)| + FatalCount(rs) + |Succeeded(rs)| == |rs|
    ensures FatalCount(rs) == 0 <==> forall r :: r in rs && r.status == "failed" ==> r.retryable
  {
    if rs != [] {
      assert rs == [rs[0]] + rs[1..] && rs[0] in rs;
      assert "failed" != "succeeded" by { assert "failed"[0] != "succeeded"[0]; }
      CountsAddUp(rs[1..]);
    }
  }

  lemma {:induction false} SucceededIn(rs: seq<Branch>)
    ensures forall r :: r in Succeeded(rs) <==> r in rs && r.status == "succeeded"
  {
    if rs != [] { SucceededIn(rs[1..]); }
  }

  lemma {:induction false} RepeatsCount<T>(s: seq<T>, i: nat, j: nat)
    requires i < j < |s|
    ensures s[i] == s[j] ==> multiset(s)[s[i]] >= 2
  {
    assert s == s[..j] + s[j..];
    assert s[..j][i] in s[..j] && s[j..][0] in s[j..];
  }

  /** One result per operation. */
  lemma {:induction false} OneEach(rs: seq<Branch>, r: Branch, r': Branch)
    requires multiset(Ops(rs)) == multiset(OPERATIONS) && r in rs && r' in rs && r.operation == r'.operation
    ensures r == r'
  {
    OpsOf(rs);
    OperationsDistinct();
    var i :| 0 <= i < |rs| && rs[i] == r;
    var j :| 0 <= j < |rs| && rs[j] == r';
    if i < j { RepeatsCount(Ops(rs), i, j); }
    if j < i { RepeatsCount(Ops(rs), j, i); }
  }

  lemma OperationsDistinct()
    ensures forall op :: multiset(OPERATIONS)[op] <= 1
    ensures OPERATIONS[0] != OPERATIONS[1] && OPERATIONS[1] != OPERATIONS[2] && OPERATIONS[0] != OPERATIONS[2]
  {
    assert OPERATIONS[0][0] == 'r' && OPERATIONS[1][0] == 'c' && OPERATIONS[2][0] == 'p';
  }

  /** Removing the retryable failures and naming them splits the results in two. */
  lemma {:induction false} SplitOps(rs: seq<Branch>, failures: seq<string>)
    requires forall r :: r in rs ==> (r.operation in failures <==> FailedRetryably(r))
    ensures multiset(Ops(Without(rs, failures))) + multiset(RetryableOps(rs)) == multiset(Ops(rs))
  {
    hide FailedRetryably;
    if rs != [] {
      assert rs == [rs[0]] + rs[1..] && rs[0] in rs;
      SplitOps(rs[1..], failures);
      assert Ops(rs) == [rs[0].operation] + Ops(rs[1..]);
      if FailedRetryably(rs[0]) {
        assert RetryableOps(rs) == [rs[0].operation] + RetryableOps(rs[1..]);
        assert Without(rs, failures) == Without(rs[1..], failures);
      } else {
        assert RetryableOps(rs) == RetryableOps(rs[1..]);
        assert Without(rs, failures) == [rs[0]] + Without(rs[1..], failures);
        assert Ops([rs[0]] + Without(rs[1..], failures)) == [rs[0].operation] + Ops(Without(rs[1..], failures));
      }
    }
  }

  /** Re-running the retryable failures adds one attempt for each. */
  lemma {:induction false} SplitTotal(
      orderId: string, rs: seq<Branch>, failures: seq<string>, plan: FailurePlan, attempts: map<string, nat>)
    requires forall r :: r in rs ==> (r.operation in failures <==> FailedRetryably(r))
    requires forall r :: r in rs ==> r.operation in attempts && attempts[r.operation] == r.attempt
    ensures Total(Without(rs, failures)) + Total(RunBranches(orderId, RetryableOps(rs), plan, attempts))
            == Total(rs) + |RetryableOps(rs)|
  {
    if rs != [] {
      assert rs == [rs[0]] + rs[1..] && rs[0] in rs;
      SplitTotal(orderId, rs[1..], failures, plan, attempts);
      if FailedRetryably(rs[0]) {
        assert RetryableOps(rs) == [rs[0].operation] + RetryableOps(rs[1..]);
        assert RetryableOps(rs)[1..] == RetryableOps(rs[1..]);
        assert Without(rs, failures) == Without(rs[1..], failures);
      } else {
        assert RetryableOps(rs) == RetryableOps(rs[1..]);
        assert Without(rs, failures) == [rs[0]] + Without(rs[1..], failures);
        assert (Without(rs, failures))[1..] == Without(rs[1..], failures);
      }
    }
  }

  lemma {:induction false} AttemptsUnknown(rs: seq<Branch>, op: string)
    requires forall i :: 0 <= i < |rs| ==> rs[i].operation != op
    ensures op !in AttemptsOf(rs)
  {
    if rs != [] {
      assert rs[0].operation != op;
      AttemptsUnknown(rs[1..], op);
    }
  }

  lemma {:induction false} AttemptAt(rs: seq<Branch>, i: nat)
    requires i < |rs| && forall j :: i < j < |rs| ==> rs[j].operation != rs[i].operation
    ensures rs[i].operation in AttemptsOf(rs) && AttemptsOf(rs)[rs[i].operation] == rs[i].attempt
  {
    if i == 0 {
      AttemptsUnknown(rs[1..], rs[0].operation);
    } else {
      AttemptAt(rs[1..], i - 1);
    }
  }

  lemma {:induction false} AttemptsOfAll(rs: seq<Branch>)
    requires multiset(Ops(rs)) == multiset(OPERATIONS)
    ensures forall r :: r in rs ==> r.operation in AttemptsOf(rs) && AttemptsOf(rs)[r.operation] == r.attempt
  {
    forall r | r in rs ensures r.operation in AttemptsOf(rs) && AttemptsOf(rs)[r.operation] == r.attempt {
      var i :| 0 <= i < |rs| && rs[i] == r;
      forall j | i < j < |rs| ensures rs[j].operation != rs[i].operation {
        OpsOf(rs);
        OperationsDistinct();
        RepeatsCount(Ops(rs), i, j);
      }
      AttemptAt(rs, i);
    }
  }

  // ----- what running, retrying and undoing achieve -----

  lemma TotalOfThree(a: Branch, b: Branch, c: Branch)
    ensures Total([a, b, c]) == a.attempt + b.attempt + c.attempt
  {
    assert [a, b, c][1..] == [b, c] && [b, c][1..] == [c];
    assert Total([c]) == c.attempt && Total([b, c]) == b.attempt + Total([c]);
  }

  lemma {:induction false} FirstAttemptsSound(orderId: string, ops: seq<string>, plan: FailurePlan)
    requires ValidPlan(plan)
    ensures forall r :: r in RunBranches(orderId, ops, plan, map[]) ==> Sound(orderId, plan, r) && r.attempt == 1
  {
    OpsRun(orderId, ops, plan, map[]);
    var rs := RunBranches(orderId, ops, plan, map[]);
    forall r | r in rs ensures Sound(orderId, plan, r) && r.attempt == 1 {
      var i :| 0 <= i < |rs| && rs[i] == r;
      assert rs[i] == Outcome(orderId, ops[i], plan, 1);
    }
  }

  lemma {:induction false} FirstTotal(orderId: string, ops: seq<string>, plan: FailurePlan)
    requires ValidPlan(plan) && |ops| == 3
    ensures Total(RunBranches(orderId, ops, plan, map[])) == 3
  {
    var rs := RunBranches(orderId, ops, plan, map[]);
    OpsRun(orderId, ops, plan, map[]);
    FirstAttemptsSound(orderId, ops, plan);
    hide *;
    assert rs == [rs[0], rs[1], rs[2]];
    TotalOfThree(rs[0], rs[1], rs[2]);
    assert rs[0] in rs && rs[1] in rs && rs[2] in rs;
  }

  /** The first run gives every operation one result, its first attempt. */
  lemma {:induction false} BeginAccounts(orderId: string, plan: FailurePlan)
    requires ValidPlan(plan)
    ensures var rs := Invoke(Begin(orderId, plan)).results;
            && AccountsFor(orderId, plan, rs) && Total(rs) == 3
            && Ops(rs) == ["reserve_inventory", "charge_payment", "provision_access"]
  {
    hide RunBranches, Total, Ops;
    var rs := Invoke(Begin(orderId, plan)).results;
    OpsRun(orderId, OPERATIONS, plan, map[]);
    FirstAttemptsSound(orderId, OPERATIONS, plan);
    FirstTotal(orderId, OPERATIONS, plan);
    assert rs == [] + RunBranches(orderId, OPERATIONS, plan, map[]) == RunBranches(orderId, OPERATIONS, plan, map[]);
  }

  /** What the retry of a branch leaves. */
  function Retried(r: Branch): Branch {
    Branch(r.operation, "succeeded", false, r.attempt + 1, r.idempotencyKey, "completed")
  }

  lemma {:induction false} FailuresAre(orderId: string, state: State)
    requires Accounted(orderId, state)
    ensures forall r :: r in state.results ==> (r.operation in RetryableOps(state.results) <==> FailedRetryably(r))
  {
    var rs := state.results;
    RetryableIn(rs);
    forall r | r in rs && r.operation in RetryableOps(rs) ensures FailedRetryably(r) {
      var r' :| r' in rs && FailedRetryably(r') && r'.operation == r.operation;
      OneEach(rs, r, r');
    }
  }

  /** One branch re-run: the popped plan lets it succeed. */
  lemma {:induction false} RerunIsSound(orderId: string, state: State, r: Branch)
    requires Accounted(orderId, state) && r in state.results && FailedRetryably(r)
    ensures var plan := Reselect(state).failurePlan;
            && Retried(r) == Outcome(orderId, r.operation, plan, r.attempt + 1)
            && Sound(orderId, plan, Retried(r)) && !FailedRetryably(Retried(r))
  {
    RetryableIn(state.results);
    assert Sound(orderId, state.failurePlan, r);
    assert r.operation !in Reselect(state).failurePlan;
  }

  function Rerun(state: State): seq<Branch> {
    RunBranches(state.orderId, Reselect(state).selected, Reselect(state).failurePlan, state.attempts)
  }

  lemma {:induction false} RerunAt(orderId: string, state: State, r: Branch, i: nat)
    requires Accounted(orderId, state) && r in state.results && FailedRetryably(r)
    requires i < |RetryableOps(state.results)| && RetryableOps(state.results)[i] == r.operation
    ensures |Rerun(state)| == |RetryableOps(state.results)| && Rerun(state)[i] == Retried(r)
  {
    var sel := Reselect(state);
    OpsRun(orderId, sel.selected, sel.failurePlan, state.attempts);
    AttemptsOfAll(state.results);
    RerunIsSound(orderId, state, r);
  }

  lemma {:induction false} EveryFailureReruns(orderId: string, state: State, r: Branch)
    requires Accounted(orderId, state) && r in state.results && FailedRetryably(r)
    ensures Retried(r) in Rerun(state)
  {
    RetryableIn(state.results);
    var i :| 0 <= i < |RetryableOps(state.results)| && RetryableOps(state.results)[i] == r.operation;
    RerunAt(orderId, state, r, i);
  }

  lemma {:induction false} EveryRerunFailed(orderId: string, state: State, r: Branch)
    requires Accounted(orderId, state) && r in Rerun(state)
    ensures Sound(orderId, Reselect(state).failurePlan, r) && !FailedRetryably(r)
  {
    var sel := Reselect(state);
    OpsRun(orderId, sel.selected, sel.failurePlan, state.attempts);
    var i :| 0 <= i < |Rerun(state)| && Rerun(state)[i] == r;
    RetryableIn(state.results);
    assert sel.selected[i] in sel.selected;
    var was :| was in state.results && FailedRetryably(was) && was.operation == sel.selected[i];
    RerunAt(orderId, state, was, i);
    RerunIsSound(orderId, state, was);
  }

  /** What a retry keeps is sound for the popped plan too. */
  lemma {:induction false} KeptIsSound(orderId: string, state: State, r: Branch)
    requires Accounted(orderId, state) && r in Without(state.results, RetryableOps(state.results))
    ensures Sound(orderId, Reselect(state).failurePlan, r) && !FailedRetryably(r) && r in state.results
  {
    WithoutIn(state.results, RetryableOps(state.results));
    RetryableIn(state.results);
    assert Sound(orderId, state.failurePlan, r);
  }

  /** A retry leaves one result per operation and adds an attempt for each branch re-run. */
  lemma {:induction false} RetryCounts(orderId: string, state: State)
    requires Accounted(orderId, state)
    ensures var next := Invoke(Reselect(state)).results;
            && multiset(Ops(next)) == multiset(OPERATIONS)
            && Total(next) == Total(state.results) + |RetryableOps(state.results)|
  {
    var rs, failures, sel := state.results, RetryableOps(state.results), Reselect(state);
    var kept, reran := Without(rs, failures), RunBranches(orderId, failures, sel.failurePlan, state.attempts);
    assert Invoke(sel).results == kept + reran;
    FailuresAre(orderId, state);
    AttemptsOfAll(rs);
    assert multiset(Ops(kept + reran)) == multiset(OPERATIONS) by {
      SplitOps(rs, failures);
      OpsRun(orderId, failures, sel.failurePlan, state.attempts);
      OpsAppend(kept, reran);
    }
    assert Total(kept + reran) == Total(rs) + |failures| by {
      SplitTotal(orderId, rs, failures, sel.failurePlan, state.attempts);
      TotalAppend(kept, reran);
    }
  }

  /** A retry re-runs exactly the recorded retryable failures, which then succeed on their next
      attempt under the same idempotency key; every other result is kept as it is, every operation
      still has exactly one result, and the attempt total rises by the number of branches re-run. */
  lemma {:induction false} RetryReruns(orderId: string, state: State)
    requires Accounted(orderId, state)
    ensures var next := Invoke(Reselect(state));
            && AccountsFor(orderId, next.failurePlan, next.results)
            && (forall r :: r in state.results ==> (if FailedRetryably(r) then Retried(r) else r) in next.results)
            && (forall r :: r in next.results ==> !FailedRetryably(r))
            && Total(next.results) == Total(state.results) + |RetryableOps(state.results)|
  {
    var rs, failures, sel := state.results, RetryableOps(state.results), Reselect(state);
    var kept, reran := Without(rs, failures), Rerun(state);
    var next := Invoke(sel);
    assert next.results == kept + reran && next.failurePlan == sel.failurePlan;
    RetryCounts(orderId, state);
    forall r | r in next.results ensures Sound(orderId, sel.failurePlan, r) && !FailedRetryably(r) {
      if r in kept { KeptIsSound(orderId, state, r); } else { EveryRerunFailed(orderId, state, r); }
    }
    forall r | r in rs ensures (if FailedRetryably(r) then Retried(r) else r) in next.results {
      FailuresAre(orderId, state);
      WithoutIn(rs, failures);
      if FailedRetryably(r) { EveryFailureReruns(orderId, state, r); }
    }
  }

  /** With nothing to retry, a retry arrives at the state it started from. */
  lemma {:induction false} EmptyRetry(orderId: string, state: State)
    requires Accounted(orderId, state) && RetryableOps(state.results) == []
    ensures Retry(state) == SavePartial(state)
  {
    var sel := Reselect(state);
    WithoutNothing(state.results);
    assert sel.failurePlan == state.failurePlan;
    assert sel == state;
    assert Invoke(sel).results == state.results;
  }

  lemma {:induction false} WithoutNothing(rs: seq<Branch>)
    ensures Without(rs, []) == rs
  {
    if rs != [] { WithoutNothing(rs[1..]); }
  }

  /** Compensation undoes every operation that succeeded, the last one first, each with its own
      compensation and key, and nothing else. */
  lemma {:induction false} UndoReverses(orderId: string, succeeded: seq<Branch>)
    requires forall r :: r in succeeded ==> r.operation in OPERATIONS
    ensures Undo(orderId, succeeded).Some?
    ensures var undone := Undo(orderId, succeeded).value;
            && |undone| == |succeeded|
            && forall i :: 0 <= i < |undone| ==> Undoes(orderId, undone[i], succeeded[|succeeded| - 1 - i])
  {
    if succeeded != [] {
      assert Last(succeeded) in succeeded;
      UndoReverses(orderId, Front(succeeded));
    }
  }

  predicate Undoes(orderId: string, c: Compensation, r: Branch) {
    && c.compensates == r.operation && c.status == "succeeded"
    && (c.compensates, c.operation) in {("reserve_inventory", "release_inventory"),
                                        ("charge_payment", "refund_payment"),
                                        ("provision_access", "revoke_access")}
    && c.idempotencyKey == orderId + ":" + c.operation
  }

  /** A report of a saga: completed with every operation successful and nothing undone, or
      compensated after a failure with exactly the successes undone in reverse. */
  ghost predicate SoundReport(orderId: string, report: Report) {
    && report.orderId == orderId
    && multiset(Ops(report.results)) == multiset(OPERATIONS)
    && (forall r :: r in report.results ==> r.idempotencyKey == orderId + ":" + r.operation)
    && (report.status == "completed" || report.status == "compensated")
    && (report.status == "completed" ==> report.compensations == [] && !Failing(report.results))
    && (report.status == "compensated" ==>
          && Failing(report.results)
          && |report.compensations| == |Succeeded(report.results)|
          && forall i :: 0 <= i < |report.compensations| ==>
               Undoes(orderId, report.compensations[i],
                      Succeeded(report.results)[|report.compensations| - 1 - i]))
  }

  lemma {:induction false} CompensateReports(orderId: string, state: State)
    requires Accounted(orderId, state)
    ensures Compensate(state).Finish? && SoundReport(orderId, Compensate(state).report)
    ensures Compensate(state).report.status == "compensated" && Compensate(state).report.results == state.results
  {
    hide Sound, Undoes, Undo, Ops, Succeeded, Failing;
    SucceededIn(state.results);
    KnownOperations(state.results);
    SoundKeys(orderId, state.failurePlan, state.results);
    UndoReverses(orderId, Succeeded(state.results));
  }

  lemma {:induction false} KnownOperations(rs: seq<Branch>)
    requires multiset(Ops(rs)) == multiset(OPERATIONS)
    ensures forall r :: r in rs ==> r.operation in OPERATIONS
  {
    OpsOf(rs);
    forall r | r in rs ensures r.operation in OPERATIONS {
      var i :| 0 <= i < |rs| && rs[i] == r;
      assert Ops(rs)[i] in multiset(Ops(rs));
    }
  }

  lemma SoundKeys(orderId: string, plan: FailurePlan, rs: seq<Branch>)
    requires forall r :: r in rs ==> Sound(orderId, plan, r)
    ensures forall r :: r in rs ==> r.idempotencyKey == orderId + ":" + r.operation
  {}

  /** Whatever comes out of running branches is accounted for, whichever way it goes. */
  lemma {:induction false} ReconcileAccounts(orderId: string, state: State)
    requires state.orderId == orderId && AccountsFor(orderId, state.failurePlan, state.results)
    ensures match Reconcile(state)
            case SavePartial(next) => Accounted(orderId, next) && next.results == state.results
            case Finish(report) =>
              SoundReport(orderId, report) && report.status == "completed" && report.results == state.results
            case Reject(_) => false
  {}

  lemma OperationsAre(op: string)
    ensures op in OPERATIONS <==> op in {"reserve_inventory", "charge_payment", "provision_access"}
  {}

  lemma KeysTell(orderId: string, a: string, b: string)
    ensures orderId + ":" + a == orderId + ":" + b <==> a == b
  {
    var prefix := orderId + ":";
    assert (prefix + a)[|prefix|..] == a && (prefix + b)[|prefix|..] == b;
  }

  lemma UndoingIsOther(orderId: string, c: Compensation, r: Branch)
    requires Undoes(orderId, c, r)
    ensures c.operation !in OPERATIONS
  {
    OperationsAre(c.operation);
    assert "release_inventory"[2] == 'l' && "refund_payment"[2] == 'f' && "revoke_access"[2] == 'v';
    assert "reserve_inventory"[2] == 's' && "charge_payment"[2] == 'a' && "provision_access"[2] == 'o';
  }

  /** In a report no two operations share an idempotency key, no compensation shares one with an
      operation, and compensations share one only if they undo the same operation. */
  lemma {:induction false} KeysAreApart(orderId: string, report: Report)
    requires SoundReport(orderId, report)
    ensures forall r, r' :: r in report.results && r' in report.results ==>
                              (r.idempotencyKey == r'.idempotencyKey ==> r == r')
    ensures forall r, c :: r in report.results && c in report.compensations ==> r.idempotencyKey != c.idempotencyKey
    ensures forall c, c' :: c in report.compensations && c' in report.compensations ==>
                              (c.idempotencyKey == c'.idempotencyKey ==> c.compensates == c'.compensates)
  {
    KnownOperations(report.results);
    forall r, r' | r in report.results && r' in report.results
      ensures r.idempotencyKey == r'.idempotencyKey ==> r == r'
    {
      KeysTell(orderId, r.operation, r'.operation);
      if r.operation == r'.operation { OneEach(report.results, r, r'); }
    }
    forall c | c in report.compensations ensures exists r :: Undoes(orderId, c, r) {
      var i :| 0 <= i < |report.compensations| && report.compensations[i] == c;
      assert Undoes(orderId, c, Succeeded(report.results)[|report.compensations| - 1 - i]);
    }
    forall r, c | r in report.results && c in report.compensations ensures r.idempotencyKey != c.idempotencyKey {
      var s :| Undoes(orderId, c, s);
      UndoingIsOther(orderId, c, s);
      KeysTell(orderId, r.operation, c.operation);
    }
    forall c, c' | c in report.compensations && c' in report.compensations
      ensures c.idempotencyKey == c'.idempotencyKey ==> c.compensates == c'.compensates
    {
      KeysTell(orderId, c.operation, c'.operation);
      if c.operation == c'.operation { SameUndoing(orderId, c, c'); }
    }
  }

  lemma SameUndoing(orderId: string, c: Compensation, c': Compensation)
    requires (exists r :: Undoes(orderId, c, r)) && (exists r :: Undoes(orderId, c', r)) && c.operation == c'.operation
    ensures c.compensates == c'.compensates
  {
    assert "release_inventory"[2] == 'l' && "refund_payment"[2] == 'f' && "revoke_access"[2] == 'v';
  }

  // ----- the methods that loop -----

  method ExecuteBranches(state: State) returns (results: seq<Branch>)
    ensures results == Invoke(state).results
  {
    hide Outcome;
    results := state.results;
    var i := 0;
    while i < |state.selected|
      invariant 0 <= i <= |state.selected|
      invariant results + RunBranches(state.orderId, state.selected[i..], state.failurePlan, state.attempts)
                == Invoke(state).results
    {
      var op := state.selected[i];
      var attempt := (if op in state.attempts then state.attempts[op] else 0) + 1;
      results := results + [Outcome(state.orderId, op, state.failurePlan, attempt)];
      assert state.selected[i..][1..] == state.selected[i + 1..];
      i := i + 1;
    }
  }

  function After(done: seq<Compensation>, rest: Option<seq<Compensation>>): Option<seq<Compensation>> {
    match rest
    case None => None
    case Some(more) => Some(done + more)
  }

  lemma AfterNothing(rest: Option<seq<Compensation>>)
    ensures After([], rest) == rest
  {
    assert rest.Some? ==> [] + rest.value == rest.value;
  }

  lemma AfterAppend(done: seq<Compensation>, c: Compensation, rest: Option<seq<Compensation>>)
    ensures After(done, After([c], rest)) == After(done + [c], rest)
  {
    assert rest.Some? ==> done + ([c] + rest.value) == (done + [c]) + rest.value;
  }

  method Compensations(orderId: string, succeeded: seq<Branch>) returns (undone: Option<seq<Compensation>>)
    ensures undone == Undo(orderId, succeeded)
  {
    var compensations, i := [], |succeeded|;
    assert succeeded[..i] == succeeded;
    AfterNothing(Undo(orderId, succeeded));
    while i > 0
      invariant 0 <= i <= |succeeded|
      invariant Undo(orderId, succeeded) == After(compensations, Undo(orderId, succeeded[..i]))
    {
      var item := succeeded[i - 1];
      assert succeeded[..i][..i - 1] == succeeded[..i - 1];
      match CompensationOf(item.operation) {
        case None => return None;
        case Some(c) =>
          AfterAppend(compensations, Compensation(c, "succeeded", orderId + ":" + c, item.operation),
                      Undo(orderId, succeeded[..i - 1]));
          compensations := compensations + [Compensation(c, "succeeded", orderId + ":" + c, item.operation)];
      }
      i := i - 1;
    }
    assert succeeded[..i] == [] && compensations + [] == compensations;
    return Some(compensations);
  }
}
