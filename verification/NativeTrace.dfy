/** Native steps and their observation buffer: any number of steps interleave at their awaits. */
module NativeTrace {
  import opened Prelude
  import opened Backoff

  const MAX_STEP_OCCURRENCES := 1000

  datatype Kind = Started | Completed | Failed | Retrying

  /** A buffered operation: what happened in which attempt of which step, on which symbolic span. */
  datatype Op = Op(
    kind: Kind, span: nat, name: string, subject: string, logical: nat, event: nat, attempt: nat, maxAttempts: nat)

  datatype Buffer = Buffer(operations: seq<Op>, spanCounter: nat, eventCounter: nat)

  datatype Info = Info(name: string, subject: string, logical: nat, policy: RetryPolicy)

  function Start(b: Buffer, info: Info, attempt: nat): Buffer {
    Buffer(b.operations + [Op(Started, b.spanCounter + 1, info.name, info.subject, info.logical,
                              b.eventCounter + 1, attempt, MaxAttempts(info))],
           b.spanCounter + 1, b.eventCounter + 1)
  }

  function Finish(b: Buffer, info: Info, attempt: nat, span: nat, kind: Kind): Buffer {
    Buffer(b.operations + [Op(kind, span, info.name, info.subject, info.logical,
                              b.eventCounter + 1, attempt, MaxAttempts(info))],
           b.spanCounter, b.eventCounter + 1)
  }

  function MaxAttempts(info: Info): nat {
    if info.policy.maxAttempts < 0 then 0 else info.policy.maxAttempts
  }

  class ObservationBuffer {
    var operations: seq<Op>
    var spanCounter: nat
    var eventCounter: nat

    function Value(): Buffer
      reads this
    {
      Buffer(operations, spanCounter, eventCounter)
    }

    constructor ()
      ensures Value() == Buffer([], 0, 0)
    {
      operations, spanCounter, eventCounter := [], 0, 0;
    }

    method NextEventSequence() returns (event: nat)
      modifies this`eventCounter
      ensures event == eventCounter == old(eventCounter) + 1
    {
      eventCounter := eventCounter + 1;
      event := eventCounter;
    }

    method StartSpan(info: Info, attempt: nat) returns (span: nat)
      modifies this
      ensures Value() == Start(old(Value()), info, attempt) && span == spanCounter
    {
      spanCounter := spanCounter + 1;
      span := spanCounter;
      var event := NextEventSequence();
      operations := operations
        + [Op(Started, span, info.name, info.subject, info.logical, event, attempt, MaxAttempts(info))];
    }

    method Complete(span: nat, info: Info, attempt: nat)
      modifies this
      ensures Value() == Finish(old(Value()), info, attempt, span, Completed)
    {
      var event := NextEventSequence();
      operations := operations
        + [Op(Completed, span, info.name, info.subject, info.logical, event, attempt, MaxAttempts(info))];
    }

    method Fail(span: nat, info: Info, attempt: nat, retrying: bool)
      modifies this
      ensures Value() == Finish(old(Value()), info, attempt, span, if retrying then Retrying else Failed)
    {
      var event := NextEventSequence();
      operations := operations
        + [Op(if retrying then Retrying else Failed, span, info.name, info.subject, info.logical, event, attempt,
              MaxAttempts(info))];
    }
  }

  // ----- one step, from await to await -----

  /** A raised exception: whether it is a cancellation, and whether `retry_on` lists it. */
  datatype Thrown = Thrown(cancellation: bool, listed: bool)

  datatype Outcome = Returned | Threw(thrown: Thrown)

  datatype Request = Request(name: string, key: Option<string>, policy: Option<RetryPolicy>, timeout: Option<real>)

  datatype Rejection = BadName | BadKey | Repeated | TooMany | BadTimeout | Stopped

  datatype Pc =
    | Rejected(rejection: Rejection)
    | Invoking(info: Info, attempt: nat, span: nat, slept: real)
    | Delaying(info: Info, attempt: nat, remaining: real, slept: real)
    | Done(info: Info, slept: real)
    | Raised(info: Info, slept: real)
    | Exhausted(info: Info)

  datatype Context = Context(buffer: Buffer, sequence: nat, subjects: set<string>)

  predicate KeyChar(c: char) {
    'A' <= c <= 'Z' || 'a' <= c <= 'z' || '0' <= c <= '9'
  }

  predicate ValidKey(key: string) {
    && 1 <= |key| <= 64 && KeyChar(key[0])
    && forall i :: 1 <= i < |key| ==> KeyChar(key[i]) || key[i] in "._:-"
  }

  function Subject(request: Request): Result<string, Rejection> {
    if request.name == "" || |request.name| > 128 then Err(BadName)
    else
      match request.key
      case None => Ok(request.name)
      case Some(key) => if ValidKey(key) then Ok(request.name + ":" + key) else Err(BadKey)
  }

  /** The answers of the run's control to the checks made between two awaits. */
  type Answers = seq<Option<Thrown>>

  function Ask(answers: Answers, k: nat): Option<Thrown> {
    if k < |answers| then answers[k] else None
  }

  /** The head of the retry loop: check, open a span, invoke; or fall out of the loop. */
  function BeginAttempt(ctx: Context, info: Info, attempt: nat, slept: real, answer: Option<Thrown>): (Context, Pc) {
    if attempt > info.policy.maxAttempts then (ctx, Exhausted(info))
    else if answer.Some? then (ctx, Raised(info, slept))
    else
      var buffer := Start(ctx.buffer, info, attempt);
      (ctx.(buffer := buffer), Invoking(info, attempt, buffer.spanCounter, slept))
  }

  /** The delay loop from one of its tests on: check, then sleep again or go on to the next attempt. */
  function Delay(
      ctx: Context, info: Info, attempt: nat, remaining: real, slept: real, answers: Answers, k: nat): (Context, Pc)
  {
    if Ask(answers, k).Some? then (ctx, Raised(info, slept))
    else if remaining > 0.0 then (ctx, Delaying(info, attempt, remaining, slept))
    else BeginAttempt(ctx, info, attempt + 1, slept, Ask(answers, k + 1))
  }

  /** The checks before a step is admitted. */
  function Admission(ctx: Context, request: Request, answers: Answers): Result<Info, Rejection> {
    match Subject(request)
    case Err(rejection) => Err(rejection)
    case Ok(subject) =>
      if subject in ctx.subjects then Err(Repeated)
      else if |ctx.subjects| >= MAX_STEP_OCCURRENCES then Err(TooMany)
      else if request.timeout.Some? && request.timeout.value <= 0.0 then Err(BadTimeout)
      else if Ask(answers, 0).Some? then Err(Stopped)
      else Ok(Info(request.name, subject, ctx.sequence + 1,
                   if request.policy.Some? then request.policy.value else NO_RETRY))
  }

  function Admit(ctx: Context, request: Request, answers: Answers): (Context, Pc) {
    match Admission(ctx, request, answers)
    case Err(rejection) => (ctx, Rejected(rejection))
    case Ok(info) =>
      BeginAttempt(Context(ctx.buffer, info.logical, ctx.subjects + {info.subject}), info, 1, 0.0, Ask(answers, 1))
  }

  /** The step function came back: complete, or fail and perhaps retry. */
  function Settle(ctx: Context, pc: Pc, outcome: Outcome, answers: Answers): (Context, Pc)
    requires pc.Invoking? && pc.attempt >= 1
  {
    var thrown := if outcome.Threw? then Some(outcome.thrown) else Ask(answers, 0);
    match thrown
    case None =>
      (ctx.(buffer := Finish(ctx.buffer, pc.info, pc.attempt, pc.span, Completed)), Done(pc.info, pc.slept))
    case Some(e) =>
      var retrying := !e.cancellation && pc.attempt < pc.info.policy.maxAttempts && e.listed;
      var ending := if retrying then Retrying else Failed;
      var failed := ctx.(buffer := Finish(ctx.buffer, pc.info, pc.attempt, pc.span, ending));
      if retrying then
        Delay(failed, pc.info, pc.attempt, DelayAfter(pc.info.policy, pc.attempt), pc.slept, answers, 1)
      else (failed, Raised(pc.info, pc.slept))
  }

  /** A slice of the delay has been slept. */
  function Wake(ctx: Context, pc: Pc, answers: Answers): (Context, Pc)
    requires pc.Delaying?
  {
    var interval := Slice(pc.remaining);
    Delay(ctx, pc.info, pc.attempt, pc.remaining - interval, pc.slept + interval, answers, 0)
  }

  // ----- one step on its own -----

  /** What happens at one await: how the invocation ends, and what the control then answers. */
  datatype Turn = Turn(outcome: Outcome, answers: Answers)

  function Left(pc: Pc): int {
    match pc
    case Invoking(info, attempt, _, _) => info.policy.maxAttempts - attempt + 1
    case Delaying(info, attempt, _, _) => info.policy.maxAttempts - attempt + 1
    case _ => 0
  }

  /** A step's segments one after the other, given what happens at each await. */
  function Continue(state: (Context, Pc), script: nat -> Turn, turn: nat): (Context, Pc)
    decreases if Left(state.1) < 0 then 0 else Left(state.1),
              if state.1.Invoking? then 1 else 0,
              if state.1.Delaying? && state.1.remaining > 0.0 then (state.1.remaining * 10.0).Floor + 1 else 0
  {
    var (ctx, pc) := state;
    match pc
    case Invoking(info, attempt, _, _) =>
      if attempt < 1 || attempt > info.policy.maxAttempts then state
      else Continue(Settle(ctx, pc, script(turn).outcome, script(turn).answers), script, turn + 1)
    case Delaying(info, attempt, remaining, _) =>
      if remaining <= 0.0 || attempt >= info.policy.maxAttempts then state
      else Continue(Wake(ctx, pc, script(turn).answers), script, turn + 1)
    case _ => state
  }

  function Alone(ctx: Context, request: Request, script: nat -> Turn): (Context, Pc) {
    Continue(Admit(ctx, request, script(0).answers), script, 1)
  }

  lemma ContinueOnce(ctx: Context, pc: Pc, script: nat -> Turn, turn: nat)
    requires pc.Invoking? ==> 1 <= pc.attempt <= pc.info.policy.maxAttempts
    requires pc.Delaying? ==> pc.remaining > 0.0 && pc.attempt < pc.info.policy.maxAttempts
    ensures pc.Invoking? ==>
              Continue((ctx, pc), script, turn)
              == Continue(Settle(ctx, pc, script(turn).outcome, script(turn).answers), script, turn + 1)
    ensures pc.Delaying? ==>
              Continue((ctx, pc), script, turn) == Continue(Wake(ctx, pc, script(turn).answers), script, turn + 1)
  {}

  class NativeWorkflowContext {
    const observations: ObservationBuffer
    var sequence: nat
    var subjects: set<string>

    constructor ()
      ensures Value() == Context(Buffer([], 0, 0), 0, {}) && fresh(observations)
    {
      observations := new ObservationBuffer();
      sequence, subjects := 0, {};
    }

    function Value(): Context
      reads this, observations
    {
      Context(observations.Value(), sequence, subjects)
    }

    method Step(request: Request, script: nat -> Turn) returns (pc: Pc)
      requires request.policy.Some? ==> ValidPolicy(request.policy.value)
      modifies this, observations
      ensures (Value(), pc) == Alone(old(Value()), request, script)
      ensures !pc.Exhausted?
    {
      var named := Subject(request);
      if named.Err? {
        return Rejected(named.error);
      }
      var subject := named.value;
      if subject in subjects {
        return Rejected(Repeated);
      }
      if |subjects| >= MAX_STEP_OCCURRENCES {
        return Rejected(TooMany);
      }
      if request.timeout.Some? && request.timeout.value <= 0.0 {
        return Rejected(BadTimeout);
      }
      if Ask(script(0).answers, 0).Some? {
        return Rejected(Stopped);
      }
      subjects := subjects + {subject};
      sequence := sequence + 1;
      var policy := if request.policy.Some? then request.policy.value else NO_RETRY;
      pc := RunAttempts(Info(request.name, subject, sequence, policy), script);
    }

    /** The retry loop. */
    method RunAttempts(info: Info, script: nat -> Turn) returns (pc: Pc)
      requires ValidPolicy(info.policy)
      modifies observations
      ensures (Value(), pc) == old(Continue(BeginAttempt(Value(), info, 1, 0.0, Ask(script(0).answers, 1)), script, 1))
      ensures !pc.Exhausted?
    {
      hide Delay, DelayAfter, Slice;
      var attempt, slept, turn, question := 1, 0.0, 0, 1;
      while attempt <= info.policy.maxAttempts
        invariant 1 <= attempt <= info.policy.maxAttempts
        invariant Continue(BeginAttempt(Value(), info, attempt, slept, Ask(script(turn).answers, question)), script,
                           turn + 1)
                  == old(Continue(BeginAttempt(Value(), info, 1, 0.0, Ask(script(0).answers, 1)), script, 1))
        decreases info.policy.maxAttempts - attempt
      {
        if Ask(script(turn).answers, question).Some? {
          return Raised(info, slept);
        }
        ghost var ctx := Value();
        var span := observations.StartSpan(info, attempt);
        turn := turn + 1;
        assert BeginAttempt(ctx, info, attempt, slept, None) == (Value(), Invoking(info, attempt, span, slept));
        ContinueOnce(Value(), Invoking(info, attempt, span, slept), script, turn);
        var outcome := script(turn).outcome;
        var thrown := if outcome.Threw? then Some(outcome.thrown) else Ask(script(turn).answers, 0);
        if thrown.None? {
          observations.Complete(span, info, attempt);
          return Done(info, slept);
        }
        var retrying := !thrown.value.cancellation && attempt < info.policy.maxAttempts && thrown.value.listed;
        observations.Fail(span, info, attempt, retrying);
        if !retrying {
          return Raised(info, slept);
        }
        var stopped;
        stopped, slept, turn, question := RetryDelay(info, attempt, slept, script, turn);
        if stopped {
          return Raised(info, slept);
        }
        attempt := attempt + 1;
      }
      assert false;
    }

    /** The delay between two attempts: the control is asked before every slice and after the last. */
    method RetryDelay(info: Info, attempt: nat, before: real, script: nat -> Turn, from: nat)
      returns (stopped: bool, slept: real, turn: nat, question: nat)
      requires 1 <= attempt < info.policy.maxAttempts
      ensures Continue(Delay(Value(), info, attempt, DelayAfter(info.policy, attempt), before, script(from).answers, 1),
                       script, from + 1)
              == if stopped then (Value(), Raised(info, slept))
                 else Continue(BeginAttempt(Value(), info, attempt + 1, slept, Ask(script(turn).answers, question)),
                               script, turn + 1)
    {
      stopped, slept, turn, question := false, before, from, 1;
      var remaining := DelayAfter(info.policy, attempt);
      while remaining > 0.0
        invariant Continue(Delay(Value(), info, attempt, remaining, slept, script(turn).answers, question), script,
                           turn + 1)
                  == Continue(Delay(Value(), info, attempt, DelayAfter(info.policy, attempt), before,
                                    script(from).answers, 1),
                              script, from + 1)
        decreases if remaining <= 0.0 then 0 else (remaining * 10.0).Floor + 1
      {
        if Ask(script(turn).answers, question).Some? {
          return true, slept, turn, question;
        }
        ContinueOnce(Value(), Delaying(info, attempt, remaining, slept), script, turn + 1);
        var interval := Slice(remaining);
        remaining := remaining - interval;
        slept := slept + interval;
        turn, question := turn + 1, 0;
      }
      if Ask(script(turn).answers, question).Some? {
        stopped := true;
      } else {
        question := question + 1;
      }
    }
  }

  // ----- interleaved steps -----

  datatype World = World(ctx: Context, steps: map<nat, Pc>)

  datatype Action =
    | Call(id: nat, request: Request, answers: Answers)
    | Return(id: nat, outcome: Outcome, answers: Answers)
    | Slept(id: nat, answers: Answers)

  ghost predicate Enabled(w: World, action: Action) {
    match action
    case Call(id, request, _) => id !in w.steps && (request.policy.Some? ==> ValidPolicy(request.policy.value))
    case Return(id, _, _) => id in w.steps && w.steps[id].Invoking? && w.steps[id].attempt >= 1
    case Slept(id, _) => id in w.steps && w.steps[id].Delaying?
  }

  ghost function Perform(w: World, action: Action): World
    requires Enabled(w, action)
  {
    var (ctx, pc) := match action
                     case Call(_, request, answers) => Admit(w.ctx, request, answers)
                     case Return(id, outcome, answers) => Settle(w.ctx, w.steps[id], outcome, answers)
                     case Slept(id, answers) => Wake(w.ctx, w.steps[id], answers);
    World(ctx, w.steps[action.id := pc])
  }

  // ----- the shape of a buffer -----

  predicate Terminal(op: Op) {
    op.kind != Started
  }

  ghost predicate SameAttempt(a: Op, b: Op) {
    a.span == b.span && a.subject == b.subject && a.attempt == b.attempt && a.name == b.name
    && a.logical == b.logical && a.maxAttempts == b.maxAttempts
  }

  /** Event sequences count from one. */
  ghost predicate EventsInOrder(ops: seq<Op>) {
    forall i :: 0 <= i < |ops| ==> ops[i].event == i + 1
  }

  /** Symbolic spans are opened in increasing order, so each is opened once. */
  ghost predicate SpansInOrder(ops: seq<Op>) {
    forall i, j :: 0 <= i < j < |ops| && ops[i].kind == Started && ops[j].kind == Started ==> ops[i].span < ops[j].span
  }

  ghost predicate Opens(ops: seq<Op>, j: nat)
    requires j < |ops|
  {
    exists i :: 0 <= i < j && ops[i].kind == Started && SameAttempt(ops[i], ops[j])
  }

  /** Every terminal comes after the start of its span, in the same attempt. */
  ghost predicate TerminalsFollow(ops: seq<Op>) {
    forall j :: 0 <= j < |ops| && Terminal(ops[j]) ==> Opens(ops, j)
  }

  /** No span is closed twice. */
  ghost predicate ClosedOnce(ops: seq<Op>) {
    forall i, j :: 0 <= i < j < |ops| && Terminal(ops[i]) && Terminal(ops[j]) ==> ops[i].span != ops[j].span
  }

  ghost predicate WellFormed(ops: seq<Op>) {
    EventsInOrder(ops) && SpansInOrder(ops) && TerminalsFollow(ops) && ClosedOnce(ops)
  }

  function Starts(ops: seq<Op>): nat {
    if ops == [] then 0 else Starts(Front(ops)) + (if Last(ops).kind == Started then 1 else 0)
  }

  ghost predicate BufferOk(b: Buffer) {
    && WellFormed(b.operations)
    && b.eventCounter == |b.operations| && b.spanCounter == Starts(b.operations)
    && forall op :: op in b.operations ==> op.span <= b.spanCounter
  }

  /** The operations of one step, in order. */
  function Of(ops: seq<Op>, subject: string): seq<Op> {
    if ops == [] then []
    else Of(Front(ops), subject) + (if Last(ops).subject == subject then [Last(ops)] else [])
  }

  lemma OfAppend(ops: seq<Op>, op: Op, subject: string)
    ensures Of(ops + [op], subject) == Of(ops, subject) + (if op.subject == subject then [op] else [])
    ensures Starts(ops + [op]) == Starts(ops) + (if op.kind == Started then 1 else 0)
  {
    assert Front(ops + [op]) == ops;
  }

  lemma {:induction false} OfMembers(ops: seq<Op>, subject: string)
    ensures forall op :: op in Of(ops, subject) <==> op in ops && op.subject == subject
  {
    if ops != [] {
      OfMembers(Front(ops), subject);
      assert ops == Front(ops) + [Last(ops)];
    }
  }

  /** A step's operations: a start and a terminal per attempt, attempts counted from one, every
      terminal but the last marked as retrying. */
  ghost predicate Orderly(info: Info, mine: seq<Op>) {
    && |mine| <= 2 * MaxAttempts(info)
    && forall i :: 0 <= i < |mine| ==> OrderlyAt(info, mine, i)
  }

  ghost predicate OrderlyAt(info: Info, mine: seq<Op>, i: nat)
    requires i < |mine|
  {
    && mine[i].name == info.name && mine[i].subject == info.subject
    && mine[i].logical == info.logical && mine[i].maxAttempts == MaxAttempts(info)
    && mine[i].attempt == i / 2 + 1
    && (mine[i].kind == Started <==> i % 2 == 0)
    && (i % 2 == 1 ==> mine[i].span == mine[i - 1].span)
    && (i % 2 == 1 && i < |mine| - 1 ==> mine[i].kind == Retrying)
  }

  ghost predicate Open(ops: seq<Op>, span: nat) {
    forall op :: op in ops && Terminal(op) ==> op.span != span
  }

  function InfoOf(pc: Pc): Option<Info> {
    match pc
    case Rejected(_) => None
    case Invoking(info, _, _, _) => Some(info)
    case Delaying(info, _, _, _) => Some(info)
    case Done(info, _) => Some(info)
    case Raised(info, _) => Some(info)
    case Exhausted(info) => Some(info)
  }

  ghost predicate PcOk(ops: seq<Op>, pc: Pc) {
    match pc
    case Rejected(_) => true
    case Exhausted(_) => false
    case Invoking(info, attempt, span, slept) =>
      var mine := Of(ops, info.subject);
      && 1 <= attempt <= info.policy.maxAttempts && |mine| == 2 * attempt - 1
      && Last(mine).span == span && Open(ops, span)
      && slept == TotalBackoff(info.policy, attempt - 1)
    case Delaying(info, attempt, remaining, slept) =>
      var mine := Of(ops, info.subject);
      && 1 <= attempt < info.policy.maxAttempts && |mine| == 2 * attempt && Last(mine).kind == Retrying
      && 0.0 <= remaining && 0.0 <= slept && slept + remaining == TotalBackoff(info.policy, attempt)
    case Done(info, slept) =>
      var mine := Of(ops, info.subject);
      && mine != [] && |mine| % 2 == 0 && Last(mine).kind == Completed
      && slept == TotalBackoff(info.policy, |mine| / 2 - 1)
    case Raised(info, slept) =>
      var mine := Of(ops, info.subject);
      && |mine| % 2 == 0
      && (mine == [] ==> slept == 0.0)
      && (mine != [] && Last(mine).kind == Failed ==> slept == TotalBackoff(info.policy, |mine| / 2 - 1))
      && (mine != [] && Last(mine).kind != Failed ==>
            && Last(mine).kind == Retrying && |mine| / 2 < info.policy.maxAttempts
            && 0.0 <= slept <= TotalBackoff(info.policy, |mine| / 2))
  }

  ghost predicate StepOk(ctx: Context, pc: Pc) {
    && (InfoOf(pc).Some? ==>
          var info := InfoOf(pc).value;
          && info.subject in ctx.subjects && 1 <= info.logical <= ctx.sequence && ValidPolicy(info.policy)
          && Orderly(info, Of(ctx.buffer.operations, info.subject)))
    && PcOk(ctx.buffer.operations, pc)
  }

  ghost predicate Apart(a: Pc, b: Pc) {
    InfoOf(a).Some? && InfoOf(b).Some? ==>
      InfoOf(a).value.subject != InfoOf(b).value.subject && InfoOf(a).value.logical != InfoOf(b).value.logical
  }

  /** A span is closed, or the step that opened it is still at it. */
  ghost predicate Accounted(w: World, span: nat) {
    || (exists op :: op in w.ctx.buffer.operations && Terminal(op) && op.span == span)
    || (exists id :: id in w.steps && w.steps[id].Invoking? && w.steps[id].span == span)
  }

  ghost predicate ContextOk(ctx: Context) {
    && BufferOk(ctx.buffer)
    && |ctx.subjects| == ctx.sequence <= MAX_STEP_OCCURRENCES
    && forall op :: op in ctx.buffer.operations ==> op.subject in ctx.subjects
  }

  ghost predicate StepsOk(w: World) {
    forall id :: id in w.steps ==> StepOk(w.ctx, w.steps[id])
  }

  ghost predicate StepsApart(w: World) {
    forall a, b :: a in w.steps && b in w.steps && a != b ==> Apart(w.steps[a], w.steps[b])
  }

  ghost predicate SpansAccounted(w: World) {
    forall op :: op in w.ctx.buffer.operations && op.kind == Started ==> Accounted(w, op.span)
  }

  ghost predicate Inv(w: World) {
    ContextOk(w.ctx) && StepsOk(w) && StepsApart(w) && SpansAccounted(w)
  }

  // ----- appending to a buffer -----

  lemma {:induction false} SpansAppend(ops: seq<Op>, op: Op)
    requires SpansInOrder(ops) && (op.kind == Started ==> forall o :: o in ops ==> o.span < op.span)
    ensures SpansInOrder(ops + [op])
  {
    var ops' := ops + [op];
    forall i, j | 0 <= i < j < |ops'| && ops'[i].kind == Started && ops'[j].kind == Started
      ensures ops'[i].span < ops'[j].span
    {
      assert ops'[i] == ops[i] && ops[i] in ops;
    }
  }

  lemma {:induction false} FollowAppend(ops: seq<Op>, op: Op, i: nat)
    requires TerminalsFollow(ops)
    requires Terminal(op) ==> i < |ops| && ops[i].kind == Started && SameAttempt(ops[i], op)
    ensures TerminalsFollow(ops + [op])
  {
    var ops' := ops + [op];
    forall j | 0 <= j < |ops'| && Terminal(ops'[j]) ensures Opens(ops', j) {
      if j < |ops| {
        assert Opens(ops, j);
        var k :| 0 <= k < j && ops[k].kind == Started && SameAttempt(ops[k], ops[j]);
        assert ops'[k] == ops[k];
      } else {
        assert ops'[i] == ops[i];
      }
    }
  }

  lemma {:induction false} ClosedAppend(ops: seq<Op>, op: Op)
    requires ClosedOnce(ops) && (Terminal(op) ==> Open(ops, op.span))
    ensures ClosedOnce(ops + [op])
  {
    var ops' := ops + [op];
    forall k, j | 0 <= k < j < |ops'| && Terminal(ops'[k]) && Terminal(ops'[j]) ensures ops'[k].span != ops'[j].span {
      assert ops'[k] == ops[k] && ops[k] in ops;
    }
  }

  /** A start on a fresh span, or a terminal of an open one, keeps the buffer well formed. */
  lemma {:induction false} BufferAppend(b: Buffer, b': Buffer, op: Op, i: nat)
    requires BufferOk(b) && b'.operations == b.operations + [op]
    requires b'.eventCounter == b.eventCounter + 1 && op.event == b'.eventCounter
    requires b'.spanCounter == (if op.kind == Started then b.spanCounter + 1 else b.spanCounter)
    requires op.kind == Started ==> op.span == b'.spanCounter
    requires Terminal(op) ==>
               Open(b.operations, op.span) && i < |b.operations| && b.operations[i].kind == Started
               && SameAttempt(b.operations[i], op)
    ensures BufferOk(b')
  {
    hide Of, OrderlyAt;
    SpansAppend(b.operations, op);
    FollowAppend(b.operations, op, i);
    ClosedAppend(b.operations, op);
    OfAppend(b.operations, op, op.subject);
    hide SpansInOrder, TerminalsFollow, ClosedOnce, Open, Starts;
    if Terminal(op) { assert b.operations[i] in b.operations; }
  }

  /** The span a step is at was opened by that step, in that attempt. */
  lemma {:induction false} OwnStart(ctx: Context, pc: Pc) returns (i: nat)
    requires StepOk(ctx, pc) && pc.Invoking?
    ensures i < |ctx.buffer.operations|
    ensures ctx.buffer.operations[i]
            == Op(Started, pc.span, pc.info.name, pc.info.subject, pc.info.logical, ctx.buffer.operations[i].event,
                  pc.attempt, MaxAttempts(pc.info))
  {
    var ops := ctx.buffer.operations;
    var mine := Of(ops, pc.info.subject);
    assert OrderlyAt(pc.info, mine, |mine| - 1);
    OfMembers(ops, pc.info.subject);
    assert Last(mine) in mine;
    i :| 0 <= i < |ops| && ops[i] == Last(mine);
  }

  /** Steps at work are on different spans. */
  lemma {:induction false} SpansApart(w: World, a: nat, b: nat)
    requires Inv(w) && a in w.steps && b in w.steps && a != b && w.steps[a].Invoking? && w.steps[b].Invoking?
    ensures w.steps[a].span != w.steps[b].span
  {
    var i := OwnStart(w.ctx, w.steps[a]);
    var j := OwnStart(w.ctx, w.steps[b]);
    assert Apart(w.steps[a], w.steps[b]);
  }

  // ----- what the other steps see -----

  /** Operations of one step leave the others as they were. */
  lemma {:induction false} OtherKeeps(ctx: Context, ctx': Context, op: Op, pc: Pc)
    requires StepOk(ctx, pc)
    requires ctx' == ctx.(buffer := ctx'.buffer) && ctx'.buffer.operations == ctx.buffer.operations + [op]
    requires InfoOf(pc).Some? ==> op.subject != InfoOf(pc).value.subject
    requires pc.Invoking? && Terminal(op) ==> op.span != pc.span
    ensures StepOk(ctx', pc)
  {
    if InfoOf(pc).Some? {
      OfAppend(ctx.buffer.operations, op, InfoOf(pc).value.subject);
      hide Of, Orderly;
      var own := Of(ctx.buffer.operations, InfoOf(pc).value.subject);
      assert own + [] == own;
    }
  }

  lemma {:induction false} OthersKeep(w: World, ctx: Context, op: Op, id: nat)
    requires Inv(w) && id in w.steps
    requires ctx == w.ctx.(buffer := ctx.buffer) && ctx.buffer.operations == w.ctx.buffer.operations + [op]
    requires InfoOf(w.steps[id]).Some? && op.subject == InfoOf(w.steps[id]).value.subject
    requires Terminal(op) ==> w.steps[id].Invoking? && op.span == w.steps[id].span
    ensures forall other :: other in w.steps && other != id ==> StepOk(ctx, w.steps[other])
  {
    hide BufferOk, StepOk, SpansAccounted;
    forall other | other in w.steps && other != id ensures StepOk(ctx, w.steps[other]) {
      assert Apart(w.steps[other], w.steps[id]);
      if w.steps[other].Invoking? && Terminal(op) { SpansApart(w, other, id); }
      OtherKeeps(w.ctx, ctx, op, w.steps[other]);
    }
  }

  /** The invariant after one step moved. */
  lemma {:induction false} Rebuilt(w: World, ctx: Context, id: nat, pc: Pc)
    requires Inv(w) && id in w.steps && InfoOf(pc) == InfoOf(w.steps[id])
    requires ContextOk(ctx) && StepOk(ctx, pc)
    requires forall other :: other in w.steps && other != id ==> StepOk(ctx, w.steps[other])
    requires SpansAccounted(World(ctx, w.steps[id := pc]))
    ensures Inv(World(ctx, w.steps[id := pc]))
  {
    hide ContextOk, StepOk, SpansAccounted;
    var w' := World(ctx, w.steps[id := pc]);
    forall a, b | a in w'.steps && b in w'.steps && a != b ensures Apart(w'.steps[a], w'.steps[b]) {
      assert Apart(w.steps[a], w.steps[b]);
    }
  }

  lemma {:induction false} StillAccounted(w: World, w': World, id: nat, span: nat)
    requires Accounted(w, span) && id in w.steps && (w.steps[id].Invoking? ==> w.steps[id].span != span)
    requires w.ctx.buffer.operations <= w'.ctx.buffer.operations
    requires forall other :: other in w.steps && other != id ==> other in w'.steps && w'.steps[other] == w.steps[other]
    ensures Accounted(w', span)
  {
    if op :| op in w.ctx.buffer.operations && Terminal(op) && op.span == span {
      assert op in w'.ctx.buffer.operations;
    } else {
      var other :| other in w.steps && w.steps[other].Invoking? && w.steps[other].span == span;
      assert w'.steps[other].span == span;
    }
  }

  // ----- segments keep the invariant -----

  /** The world after a step moved on without touching the buffer. */
  lemma {:induction false} MoveKeeps(w: World, id: nat, pc: Pc)
    requires Inv(w) && id in w.steps && !w.steps[id].Invoking?
    requires StepOk(w.ctx, pc) && InfoOf(pc) == InfoOf(w.steps[id])
    ensures Inv(World(w.ctx, w.steps[id := pc]))
  {
    hide ContextOk, StepOk, Accounted;
    var w' := World(w.ctx, w.steps[id := pc]);
    forall op | op in w.ctx.buffer.operations && op.kind == Started ensures Accounted(w', op.span) {
      StillAccounted(w, w', id, op.span);
    }
    Rebuilt(w, w.ctx, id, pc);
  }

  /** Between attempts: so many attempts made, all of them retrying, all their delays slept. */
  ghost predicate Ready(ctx: Context, info: Info, attempt: nat, slept: real) {
    var mine := Of(ctx.buffer.operations, info.subject);
    && 1 <= attempt <= info.policy.maxAttempts && |mine| == 2 * (attempt - 1)
    && (mine != [] ==> Last(mine).kind == Retrying)
    && slept == TotalBackoff(info.policy, attempt - 1)
  }

  lemma {:induction false} OrderlyAppend(info: Info, mine: seq<Op>, op: Op)
    requires Orderly(info, mine) && |mine| < 2 * MaxAttempts(info)
    requires mine != [] && |mine| % 2 == 0 ==> Last(mine).kind == Retrying
    requires op.name == info.name && op.subject == info.subject && op.logical == info.logical
    requires op.maxAttempts == MaxAttempts(info) && op.attempt == |mine| / 2 + 1
    requires op.kind == Started <==> |mine| % 2 == 0
    requires |mine| % 2 == 1 ==> op.span == Last(mine).span
    ensures Orderly(info, mine + [op])
  {
    forall i | 0 <= i < |mine + [op]| ensures OrderlyAt(info, mine + [op], i) {
      if i < |mine| { assert OrderlyAt(info, mine, i); }
    }
  }

  lemma FreshSpan(b: Buffer, info: Info, attempt: nat)
    requires BufferOk(b)
    ensures Open(Start(b, info, attempt).operations, b.spanCounter + 1)
  {
    hide WellFormed, Starts;
  }

  lemma {:induction false} StartedOk(ctx: Context, info: Info, attempt: nat, slept: real)
    requires BufferOk(ctx.buffer) && StepOk(ctx, Raised(info, slept)) && Ready(ctx, info, attempt, slept)
    ensures StepOk(BeginAttempt(ctx, info, attempt, slept, None).0, BeginAttempt(ctx, info, attempt, slept, None).1)
  {
    hide Of, Orderly, Open, BufferOk, TotalBackoff, ValidPolicy;
    var ctx' := ctx.(buffer := Start(ctx.buffer, info, attempt));
    var ops, ops' := ctx.buffer.operations, ctx'.buffer.operations;
    var mine, op := Of(ops, info.subject), Last(ops');
    OfAppend(ops, op, info.subject);
    FreshSpan(ctx.buffer, info, attempt);
    OrderlyAppend(info, mine, op);
  }

  lemma {:induction false} BeginKeeps(w: World, id: nat, info: Info, attempt: nat, slept: real, answer: Option<Thrown>)
    requires Inv(w) && id in w.steps && InfoOf(w.steps[id]) == Some(info) && !w.steps[id].Invoking?
    requires StepOk(w.ctx, Raised(info, slept)) && Ready(w.ctx, info, attempt, slept)
    ensures var (ctx, pc) := BeginAttempt(w.ctx, info, attempt, slept, answer);
            Inv(World(ctx, w.steps[id := pc]))
  {
    if answer.Some? {
      MoveKeeps(w, id, Raised(info, slept));
    } else {
      StartKeeps(w, id, info, attempt, slept);
    }
  }

  lemma {:induction false} StartKeepsContext(w: World, info: Info, attempt: nat, slept: real)
    requires ContextOk(w.ctx) && info.subject in w.ctx.subjects && Ready(w.ctx, info, attempt, slept)
    ensures ContextOk(BeginAttempt(w.ctx, info, attempt, slept, None).0)
  {
    hide BufferOk, Of, TotalBackoff;
    var ctx := BeginAttempt(w.ctx, info, attempt, slept, None).0;
    BufferAppend(w.ctx.buffer, ctx.buffer, Last(ctx.buffer.operations), 0);
  }

  lemma {:induction false} OpensSpan(w: World, w': World, id: nat, op: Op)
    requires SpansAccounted(w) && id in w.steps && !w.steps[id].Invoking?
    requires w'.ctx.buffer.operations == w.ctx.buffer.operations + [op]
    requires id in w'.steps && w'.steps[id].Invoking? && w'.steps[id].span == op.span
    requires forall other :: other in w.steps && other != id ==> other in w'.steps && w'.steps[other] == w.steps[other]
    ensures SpansAccounted(w')
  {
    forall o | o in w'.ctx.buffer.operations && o.kind == Started ensures Accounted(w', o.span) {
      if o in w.ctx.buffer.operations {
        StillAccounted(w, w', id, o.span);
      } else {
        assert w'.steps[id].span == o.span;
      }
    }
  }

  lemma AttemptBegins(ctx: Context, info: Info, attempt: nat, slept: real) returns (op: Op)
    requires Ready(ctx, info, attempt, slept)
    ensures var (ctx', pc) := BeginAttempt(ctx, info, attempt, slept, None);
            && ctx' == ctx.(buffer := ctx'.buffer) && ctx'.buffer.operations == ctx.buffer.operations + [op]
            && op.kind == Started && op.subject == info.subject && pc == Invoking(info, attempt, op.span, slept)
  {
    op := Last(Start(ctx.buffer, info, attempt).operations);
  }

  lemma {:induction false} StartKeeps(w: World, id: nat, info: Info, attempt: nat, slept: real)
    requires Inv(w) && id in w.steps && InfoOf(w.steps[id]) == Some(info) && !w.steps[id].Invoking?
    requires StepOk(w.ctx, Raised(info, slept)) && Ready(w.ctx, info, attempt, slept)
    ensures var (ctx, pc) := BeginAttempt(w.ctx, info, attempt, slept, None);
            Inv(World(ctx, w.steps[id := pc]))
  {
    var (ctx, pc) := BeginAttempt(w.ctx, info, attempt, slept, None);
    var op := AttemptBegins(w.ctx, info, attempt, slept);
    hide BeginAttempt, StepOk, StepsOk, StepsApart, SpansAccounted, BufferOk, ContextOk, Ready;
    StepIs(w, id);
    StartedOk(w.ctx, info, attempt, slept);
    StartKeepsContext(w, info, attempt, slept);
    OthersKeep(w, ctx, op, id);
    OpensSpan(w, World(ctx, w.steps[id := pc]), id, op);
    Rebuilt(w, ctx, id, pc);
  }

  lemma StepIs(w: World, id: nat)
    requires Inv(w) && id in w.steps
    ensures StepOk(w.ctx, w.steps[id])
    ensures InfoOf(w.steps[id]).Some? ==> InfoOf(w.steps[id]).value.subject in w.ctx.subjects
  {}

  lemma {:induction false} DelayKeeps(w: World, id: nat, pc: Pc, answers: Answers, k: nat)
    requires Inv(w) && id in w.steps && w.steps[id] == pc && pc.Delaying?
    ensures var (ctx, pc') := Delay(w.ctx, pc.info, pc.attempt, pc.remaining, pc.slept, answers, k);
            Inv(World(ctx, w.steps[id := pc']))
  {
    hide StepOk, Ready, Inv, BeginAttempt, Ask;
    StepIs(w, id);
    DelayingIs(w.ctx, pc);
    if Ask(answers, k).Some? {
      MoveKeeps(w, id, Raised(pc.info, pc.slept));
    } else if pc.remaining > 0.0 {
      assert w.steps[id := pc] == w.steps;
    } else {
      BeginKeeps(w, id, pc.info, pc.attempt + 1, pc.slept, Ask(answers, k + 1));
    }
  }

  lemma {:induction false} DelayingIs(ctx: Context, pc: Pc)
    requires StepOk(ctx, pc) && pc.Delaying?
    ensures StepOk(ctx, Raised(pc.info, pc.slept)) && pc.attempt < pc.info.policy.maxAttempts && pc.remaining >= 0.0
    ensures pc.remaining == 0.0 ==> Ready(ctx, pc.info, pc.attempt + 1, pc.slept)
    ensures var interval := Slice(pc.remaining);
            StepOk(ctx, Delaying(pc.info, pc.attempt, pc.remaining - interval, pc.slept + interval))
  {}

  lemma {:induction false} WakeKeeps(w: World, id: nat, answers: Answers)
    requires Inv(w) && id in w.steps && w.steps[id].Delaying?
    ensures var (ctx, pc) := Wake(w.ctx, w.steps[id], answers);
            Inv(World(ctx, w.steps[id := pc]))
  {
    hide StepOk, Ready, Inv, Delay, Slice;
    var pc := w.steps[id];
    StepIs(w, id);
    DelayingIs(w.ctx, pc);
    var interval := Slice(pc.remaining);
    var slept := Delaying(pc.info, pc.attempt, pc.remaining - interval, pc.slept + interval);
    MoveKeeps(w, id, slept);
    var w' := World(w.ctx, w.steps[id := slept]);
    DelayKeeps(w', id, slept, answers, 0);
    var (ctx, next) := Wake(w.ctx, pc, answers);
    assert w'.steps[id := next] == w.steps[id := next];
  }

  lemma {:induction false} FinishedOk(ctx: Context, pc: Pc, kind: Kind)
    requires StepOk(ctx, pc) && pc.Invoking? && kind != Started
    requires kind == Retrying ==> pc.attempt < pc.info.policy.maxAttempts
    ensures StepOk(ctx.(buffer := Finish(ctx.buffer, pc.info, pc.attempt, pc.span, kind)), AfterFinish(pc, kind))
  {
    var ctx' := ctx.(buffer := Finish(ctx.buffer, pc.info, pc.attempt, pc.span, kind));
    var ops, ops' := ctx.buffer.operations, ctx'.buffer.operations;
    var mine, mine' := Of(ops, pc.info.subject), Of(ops', pc.info.subject);
    OfAppend(ops, Last(ops'), pc.info.subject);
    hide Of, Orderly, Open, DelayAfter;
    OrderlyAppend(pc.info, mine, Last(ops'));
    TotalBackoffBound(pc.info.policy, pc.attempt - 1);
    DelayGrows(pc.info.policy, pc.attempt, pc.attempt);
  }

  function AfterFinish(pc: Pc, kind: Kind): Pc
    requires pc.Invoking? && pc.attempt >= 1
  {
    match kind
    case Retrying => Delaying(pc.info, pc.attempt, DelayAfter(pc.info.policy, pc.attempt), pc.slept)
    case Completed => Done(pc.info, pc.slept)
    case _ => Raised(pc.info, pc.slept)
  }

  function Finished(w: World, id: nat, kind: Kind): Context
    requires id in w.steps && w.steps[id].Invoking?
  {
    var pc := w.steps[id];
    w.ctx.(buffer := Finish(w.ctx.buffer, pc.info, pc.attempt, pc.span, kind))
  }

  lemma AfterFinishInfo(pc: Pc, kind: Kind)
    requires pc.Invoking? && pc.attempt >= 1
    ensures InfoOf(AfterFinish(pc, kind)) == InfoOf(pc)
  {}

  lemma {:induction false} FinishKeepsContext(w: World, id: nat, kind: Kind)
    requires Inv(w) && id in w.steps && w.steps[id].Invoking? && kind != Started
    ensures ContextOk(Finished(w, id, kind))
  {
    var pc, ctx := w.steps[id], Finished(w, id, kind);
    hide StepOk, BufferOk, SpansAccounted, StepsApart, StepsOk, Open;
    StepIs(w, id);
    var i := OwnStart(w.ctx, pc);
    StillOpen(w.ctx, pc);
    BufferAppend(w.ctx.buffer, ctx.buffer, Last(ctx.buffer.operations), i);
  }

  lemma {:induction false} FinishKeeps(w: World, id: nat, kind: Kind)
    requires Inv(w) && id in w.steps && w.steps[id].Invoking? && kind != Started
    requires kind == Retrying ==> w.steps[id].attempt < w.steps[id].info.policy.maxAttempts
    requires w.steps[id].attempt >= 1
    ensures Inv(World(Finished(w, id, kind), w.steps[id := AfterFinish(w.steps[id], kind)]))
  {
    var pc, ctx := w.steps[id], Finished(w, id, kind);
    var w' := World(ctx, w.steps[id := AfterFinish(pc, kind)]);
    var ops, op := w.ctx.buffer.operations, Last(ctx.buffer.operations);
    hide StepOk, ContextOk, SpansAccounted, StepsApart, StepsOk, AfterFinish;
    AfterFinishInfo(pc, kind);
    StepIs(w, id);
    FinishedOk(w.ctx, pc, kind);
    FinishKeepsContext(w, id, kind);
    OthersKeep(w, ctx, op, id);
    ClosesSpan(w, w', id, op);
    Rebuilt(w, ctx, id, AfterFinish(pc, kind));
  }

  lemma {:induction false} ClosesSpan(w: World, w': World, id: nat, op: Op)
    requires SpansAccounted(w) && id in w.steps && w.steps[id].Invoking? && Terminal(op) && op.span == w.steps[id].span
    requires w'.ctx.buffer.operations == w.ctx.buffer.operations + [op]
    requires forall other :: other in w.steps && other != id ==> other in w'.steps && w'.steps[other] == w.steps[other]
    ensures SpansAccounted(w')
  {
    forall o | o in w'.ctx.buffer.operations && o.kind == Started ensures Accounted(w', o.span) {
      if o.span == op.span { assert op in w'.ctx.buffer.operations; } else { StillAccounted(w, w', id, o.span); }
    }
  }

  lemma StillOpen(ctx: Context, pc: Pc)
    requires StepOk(ctx, pc) && pc.Invoking?
    ensures Open(ctx.buffer.operations, pc.span)
  {}

  lemma {:induction false} SettleKeeps(w: World, id: nat, outcome: Outcome, answers: Answers)
    requires Inv(w) && id in w.steps && w.steps[id].Invoking? && w.steps[id].attempt >= 1
    ensures var (ctx, pc) := Settle(w.ctx, w.steps[id], outcome, answers);
            Inv(World(ctx, w.steps[id := pc]))
  {
    hide Inv, Delay, Finish, DelayAfter;
    var pc := w.steps[id];
    var thrown := if outcome.Threw? then Some(outcome.thrown) else Ask(answers, 0);
    if thrown.None? {
      FinishKeeps(w, id, Completed);
    } else if !thrown.value.cancellation && pc.attempt < pc.info.policy.maxAttempts && thrown.value.listed {
      FinishKeeps(w, id, Retrying);
      var delaying := AfterFinish(pc, Retrying);
      var w' := World(Finished(w, id, Retrying), w.steps[id := delaying]);
      DelayKeeps(w', id, delaying, answers, 1);
      var (ctx, next) := Settle(w.ctx, pc, outcome, answers);
      assert w'.steps[id := next] == w.steps[id := next];
    } else {
      FinishKeeps(w, id, Failed);
    }
  }

  lemma {:induction false} NothingYet(ops: seq<Op>, subject: string)
    requires forall op :: op in ops ==> op.subject != subject
    ensures Of(ops, subject) == []
  {
    if ops != [] {
      assert Last(ops) in ops;
      NothingYet(Front(ops), subject);
    }
  }

  lemma {:induction false} NewcomerOk(w: World, request: Request, answers: Answers)
    requires Inv(w) && Admission(w.ctx, request, answers).Ok?
    requires request.policy.Some? ==> ValidPolicy(request.policy.value)
    ensures var info := Admission(w.ctx, request, answers).value;
            var admitted := Context(w.ctx.buffer, info.logical, w.ctx.subjects + {info.subject});
            && StepOk(admitted, Raised(info, 0.0)) && Ready(admitted, info, 1, 0.0)
            && |admitted.subjects| == admitted.sequence <= MAX_STEP_OCCURRENCES
            && info.subject !in w.ctx.subjects && info.logical == w.ctx.sequence + 1
  {
    hide BufferOk, StepsOk, StepsApart, SpansAccounted, Subject;
    NothingYet(w.ctx.buffer.operations, Admission(w.ctx, request, answers).value.subject);
  }

  lemma {:induction false} AdmitKeeps(w: World, id: nat, request: Request, answers: Answers)
    requires Inv(w) && id !in w.steps && (request.policy.Some? ==> ValidPolicy(request.policy.value))
    ensures var (ctx, pc) := Admit(w.ctx, request, answers);
            Inv(World(ctx, w.steps[id := pc]))
  {
    hide ContextOk, StepsOk, StepsApart, SpansAccounted, BeginAttempt, Admission, Inv, StepOk, Ready;
    match Admission(w.ctx, request, answers)
    case Err(rejection) =>
      RejectedOk(w, rejection);
      JoinKeeps(w, w.ctx, id, Rejected(rejection));
    case Ok(info) =>
      var admitted := Context(w.ctx.buffer, info.logical, w.ctx.subjects + {info.subject});
      NewcomerOk(w, request, answers);
      JoinKeeps(w, admitted, id, Raised(info, 0.0));
      var w' := World(admitted, w.steps[id := Raised(info, 0.0)]);
      BeginKeeps(w', id, info, 1, 0.0, Ask(answers, 1));
      var (_, pc) := Admit(w.ctx, request, answers);
      assert w'.steps[id := pc] == w.steps[id := pc];
  }

  lemma RejectedOk(w: World, rejection: Rejection)
    requires Inv(w)
    ensures StepOk(w.ctx, Rejected(rejection)) && |w.ctx.subjects| == w.ctx.sequence <= MAX_STEP_OCCURRENCES
  {}

  lemma {:induction false} Wider(ctx: Context, ctx': Context, pc: Pc)
    requires StepOk(ctx, pc)
    requires ctx'.buffer == ctx.buffer && ctx.subjects <= ctx'.subjects && ctx.sequence <= ctx'.sequence
    ensures StepOk(ctx', pc)
  {}

  /** A step joins, with a subject and a sequence number of its own. */
  lemma {:induction false} JoinKeeps(w: World, ctx: Context, id: nat, pc: Pc)
    requires Inv(w) && id !in w.steps && !pc.Invoking? && StepOk(ctx, pc)
    requires ctx.buffer == w.ctx.buffer && w.ctx.subjects <= ctx.subjects && w.ctx.sequence <= ctx.sequence
    requires |ctx.subjects| == ctx.sequence <= MAX_STEP_OCCURRENCES
    requires InfoOf(pc).Some? ==>
               InfoOf(pc).value.subject !in w.ctx.subjects && InfoOf(pc).value.logical > w.ctx.sequence
    ensures Inv(World(ctx, w.steps[id := pc]))
  {
    var w' := World(ctx, w.steps[id := pc]);
    forall other | other in w.steps ensures Apart(w.steps[other], pc) && Apart(pc, w.steps[other]) {
      assert StepOk(w.ctx, w.steps[other]);
    }
    hide StepOk, Apart, BufferOk;
    forall other | other in w'.steps ensures StepOk(ctx, w'.steps[other]) {
      if other != id { Wider(w.ctx, ctx, w.steps[other]); }
    }
    assert StepsApart(w');
    forall op | op in w.ctx.buffer.operations && op.kind == Started ensures Accounted(w', op.span) {
      assert Accounted(w, op.span);
      if other :| other in w.steps && w.steps[other].Invoking? && w.steps[other].span == op.span {
        assert w'.steps[other] == w.steps[other];
      }
    }
  }

  lemma {:induction false} ActionKeepsInv(w: World, action: Action)
    requires Inv(w) && Enabled(w, action)
    ensures Inv(Perform(w, action))
  {
    match action
    case Call(id, request, answers) => AdmitKeeps(w, id, request, answers);
    case Return(id, outcome, answers) => SettleKeeps(w, id, outcome, answers);
    case Slept(id, answers) => WakeKeeps(w, id, answers);
  }

  // ----- runs -----

  ghost predicate Run(worlds: seq<World>, actions: seq<Action>) {
    && |worlds| == |actions| + 1
    && worlds[0] == World(Context(Buffer([], 0, 0), 0, {}), map[])
    && forall i {:trigger actions[i]} :: 0 <= i < |actions| ==>
         Enabled(worlds[i], actions[i]) && worlds[i + 1] == Perform(worlds[i], actions[i])
  }

  lemma {:induction false} RunKeepsInv(worlds: seq<World>, actions: seq<Action>, i: nat)
    requires Run(worlds, actions) && i < |worlds|
    ensures Inv(worlds[i])
  {
    if i > 0 {
      assert actions[i - 1] == actions[i - 1];
      RunKeepsInv(worlds, actions, i - 1);
      ActionKeepsInv(worlds[i - 1], actions[i - 1]);
    }
  }

  /** Whatever steps interleave and however they end: event sequences are 1..n, spans are opened once
      and in order, every terminal follows the start of its span, no span is closed twice, and the
      admitted steps are counted by `sequence`, at most a thousand. */
  lemma {:induction false} TraceIsWellFormed(worlds: seq<World>, actions: seq<Action>, i: nat)
    requires Run(worlds, actions) && i < |worlds|
    ensures var ctx := worlds[i].ctx;
            && WellFormed(ctx.buffer.operations)
            && ctx.buffer.spanCounter == Starts(ctx.buffer.operations)
            && |ctx.subjects| == ctx.sequence <= MAX_STEP_OCCURRENCES
    ensures forall a, b :: a in worlds[i].steps && b in worlds[i].steps && a != b ==>
              Apart(worlds[i].steps[a], worlds[i].steps[b])
  {
    RunKeepsInv(worlds, actions, i);
  }

  lemma {:induction false} OnlyTerminal(ops: seq<Op>, k: nat, op: Op)
    requires WellFormed(ops) && k < |ops| && ops[k].kind == Started
    requires op in ops && Terminal(op) && op.span == ops[k].span
    ensures exists j :: k < j < |ops| && Terminal(ops[j]) && SameAttempt(ops[k], ops[j])
                        && forall j' :: 0 <= j' < |ops| && Terminal(ops[j']) && ops[j'].span == ops[k].span ==> j' == j
  {
    var j :| 0 <= j < |ops| && ops[j] == op;
    assert Opens(ops, j);
    var start :| 0 <= start < j && ops[start].kind == Started && SameAttempt(ops[start], ops[j]);
    assert start == k;
  }

  /** A span still open belongs to a step still invoking: when none is, every span has its terminal. */
  lemma {:induction false} EverySpanEnds(worlds: seq<World>, actions: seq<Action>, i: nat, k: nat)
    requires Run(worlds, actions) && i < |worlds|
    requires k < |worlds[i].ctx.buffer.operations| && worlds[i].ctx.buffer.operations[k].kind == Started
    requires forall id :: id in worlds[i].steps ==> !worlds[i].steps[id].Invoking?
    ensures var ops := worlds[i].ctx.buffer.operations;
            exists j :: k < j < |ops| && Terminal(ops[j]) && SameAttempt(ops[k], ops[j])
                        && forall j' :: 0 <= j' < |ops| && Terminal(ops[j']) && ops[j'].span == ops[k].span ==> j' == j
  {
    RunKeepsInv(worlds, actions, i);
    var ops := worlds[i].ctx.buffer.operations;
    assert Accounted(worlds[i], ops[k].span);
    var op :| op in ops && Terminal(op) && op.span == ops[k].span;
    hide Run, Inv;
    OnlyTerminal(ops, k, op);
  }

  function SleptBy(pc: Pc): real {
    match pc
    case Invoking(_, _, _, slept) => slept
    case Delaying(_, _, _, slept) => slept
    case Done(_, slept) => slept
    case Raised(_, slept) => slept
    case _ => 0.0
  }

  /** The longest a policy can make a step wait: its longest delay before every attempt but one. */
  function MostBackoff(p: RetryPolicy): real
    requires p.maxAttempts >= 1
  {
    (p.maxAttempts - 1) as real * p.maxDelay
  }

  lemma {:induction false} BackoffWithin(p: RetryPolicy, failures: nat)
    requires ValidPolicy(p) && failures < p.maxAttempts
    ensures 0.0 <= TotalBackoff(p, failures) <= MostBackoff(p)
  {
    hide TotalBackoff, Times;
    TotalBackoffBound(p, failures);
    TimesGrows(failures, p.maxAttempts - 1, p.maxDelay);
    TimesIsProduct(p.maxAttempts - 1, p.maxDelay);
  }

  /** Each admitted step: attempts 1..k with k within the policy, every terminal before its last marked
      retrying, a return only after a completed attempt, and no more backoff than the policy allows.
      The retry loop is never exhausted. */
  lemma {:induction false} StepsAreOrderly(worlds: seq<World>, actions: seq<Action>, i: nat, id: nat)
    requires Run(worlds, actions) && i < |worlds| && id in worlds[i].steps && InfoOf(worlds[i].steps[id]).Some?
    ensures var pc := worlds[i].steps[id];
            var info := InfoOf(pc).value;
            var mine := Of(worlds[i].ctx.buffer.operations, info.subject);
            && !pc.Exhausted?
            && Orderly(info, mine)
            && (pc.Done? ==> mine != [] && Last(mine).kind == Completed)
            && (pc.Invoking? <==> |mine| % 2 == 1)
            && info.policy.maxAttempts >= 1
            && 0.0 <= SleptBy(pc) <= MostBackoff(info.policy)
  {
    hide Inv, StepOk, Run, Of, Orderly;
    RunKeepsInv(worlds, actions, i);
    StepIs(worlds[i], id);
    BackoffBound(worlds[i].ctx, worlds[i].steps[id]);
    StepShape(worlds[i].ctx, worlds[i].steps[id]);
  }

  lemma StepShape(ctx: Context, pc: Pc)
    requires StepOk(ctx, pc) && InfoOf(pc).Some?
    ensures var mine := Of(ctx.buffer.operations, InfoOf(pc).value.subject);
            && !pc.Exhausted? && Orderly(InfoOf(pc).value, mine)
            && (pc.Done? ==> mine != [] && Last(mine).kind == Completed)
            && (pc.Invoking? <==> |mine| % 2 == 1)
  {
    hide Of, Orderly;
  }

  lemma {:induction false} BackoffBound(ctx: Context, pc: Pc)
    requires StepOk(ctx, pc) && InfoOf(pc).Some?
    ensures InfoOf(pc).value.policy.maxAttempts >= 1
    ensures 0.0 <= SleptBy(pc) <= MostBackoff(InfoOf(pc).value.policy)
  {
    var info, mine := InfoOf(pc).value, Of(ctx.buffer.operations, InfoOf(pc).value.subject);
    AtMost(info, ctx.buffer.operations);
    hide Orderly, Of, MostBackoff, TotalBackoff, Open;
    BackoffWithin(info.policy, 0);
    match pc {
      case Invoking(_, attempt, _, _) => BackoffWithin(info.policy, attempt - 1);
      case Delaying(_, attempt, _, _) => BackoffWithin(info.policy, attempt);
      case Done(_, _) => BackoffWithin(info.policy, |mine| / 2 - 1);
      case Raised(_, _) =>
        if mine == [] {
          assert SleptBy(pc) == 0.0;
        } else if Last(mine).kind == Failed {
          BackoffWithin(info.policy, |mine| / 2 - 1);
        } else {
          BackoffWithin(info.policy, |mine| / 2);
        }
      case _ =>
    }
  }

  lemma AtMost(info: Info, ops: seq<Op>)
    requires Orderly(info, Of(ops, info.subject)) && ValidPolicy(info.policy)
    ensures |Of(ops, info.subject)| / 2 <= info.policy.maxAttempts
  {}

  // ----- when a failed attempt is retried -----

  /** How an invocation ended: what the function threw, or else what the control answered after it. */
  function ThrownBy(outcome: Outcome, answers: Answers): Option<Thrown> {
    match outcome
    case Threw(e) => Some(e)
    case Returned => if answers == [] then None else answers[0]
  }

  /** A retry needs an exception that the policy lists, that is no cancellation, and an attempt left. */
  predicate Retries(e: Thrown, attempt: nat, maxAttempts: int) {
    e.listed && !e.cancellation && attempt < maxAttempts
  }

  /** The terminal an invocation is due. */
  ghost predicate Deserves(kind: Kind, thrown: Option<Thrown>, attempt: nat, maxAttempts: int) {
    && (kind == Completed <==> thrown.None?)
    && (kind == Retrying <==> thrown.Some? && Retries(thrown.value, attempt, maxAttempts))
    && (kind == Failed <==> thrown.Some? && !Retries(thrown.value, attempt, maxAttempts))
  }

  /** Some check of the control after the invocation's own said stop. */
  ghost predicate ControlStops(answers: Answers) {
    exists k :: 1 <= k < |answers| && answers[k].Some?
  }

  /** The end of an invocation: exactly the terminal it is due, on its own span; a completed step is
      done, a failed one raises, and a retried one waits, is in its next attempt, or was stopped by the
      control. */
  lemma {:induction false} SettlesAsDue(ctx: Context, pc: Pc, outcome: Outcome, answers: Answers)
    requires pc.Invoking? && pc.attempt >= 1
    ensures var (ctx', pc') := Settle(ctx, pc, outcome, answers);
            var ops, ops' := ctx.buffer.operations, ctx'.buffer.operations;
            && |ops'| > |ops| && ops'[..|ops|] == ops
            && ops'[|ops|].span == pc.span && ops'[|ops|].attempt == pc.attempt
            && ops'[|ops|].subject == pc.info.subject && ops'[|ops|].name == pc.info.name
            && Deserves(ops'[|ops|].kind, ThrownBy(outcome, answers), pc.attempt, pc.info.policy.maxAttempts)
            && (forall k :: |ops| < k < |ops'| ==> ops'[k].kind == Started)
            && match ops'[|ops|].kind
               case Completed => pc' == Done(pc.info, pc.slept) && |ops'| == |ops| + 1
               case Failed => pc' == Raised(pc.info, pc.slept) && |ops'| == |ops| + 1
               case Retrying =>
                 || (pc'.Delaying? && pc'.info == pc.info && pc'.attempt == pc.attempt)
                 || (pc'.Invoking? && pc'.info == pc.info && pc'.attempt == pc.attempt + 1)
                 || (pc'.Raised? && pc'.info == pc.info && ControlStops(answers))
               case Started => false
  {
    hide DelayAfter;
  }

  /** How a step goes on from a check of the control with some delay left: it is stopped, sleeps on, is
      stopped at the next check, or starts its next attempt; nothing else is recorded. */
  ghost predicate GoesOn(
      ops: seq<Op>, ops': seq<Op>, pc': Pc, info: Info, attempt: nat, delay: real, stops: bool, stopsNext: bool)
  {
    if stops then pc'.Raised? && pc'.info == info && ops' == ops
    else if delay > 0.0 then
      pc'.Delaying? && pc'.info == info && pc'.attempt == attempt && pc'.remaining == delay && ops' == ops
    else if stopsNext then pc'.Raised? && pc'.info == info && ops' == ops
    else
      && pc'.Invoking? && pc'.info == info && pc'.attempt == attempt + 1
      && |ops'| == |ops| + 1 && ops'[..|ops|] == ops && ops'[|ops|].kind == Started
      && ops'[|ops|].attempt == attempt + 1 && ops'[|ops|].span == pc'.span
  }

  predicate Stops(answers: Answers, k: nat) {
    k < |answers| && answers[k].Some?
  }

  /** After a retried failure the control is asked before the delay, after every tenth of a second of it,
      and before the next attempt, and each time it says stop the step ends there. */
  lemma {:induction false} ControlIsAsked(ctx: Context, pc: Pc, outcome: Outcome, answers: Answers)
    ensures pc.Invoking? && 1 <= pc.attempt < pc.info.policy.maxAttempts
            && ThrownBy(outcome, answers).Some?
            && Retries(ThrownBy(outcome, answers).value, pc.attempt, pc.info.policy.maxAttempts) ==>
              var (ctx', pc') := Settle(ctx, pc, outcome, answers);
              var failed := Finish(ctx.buffer, pc.info, pc.attempt, pc.span, Retrying);
              GoesOn(failed.operations, ctx'.buffer.operations, pc', pc.info, pc.attempt,
                     DelayAfter(pc.info.policy, pc.attempt), Stops(answers, 1), Stops(answers, 2))
    ensures pc.Delaying? && pc.attempt < pc.info.policy.maxAttempts ==>
              var (ctx', pc') := Wake(ctx, pc, answers);
              var slice := if pc.remaining <= 0.1 then pc.remaining else 0.1;
              && GoesOn(ctx.buffer.operations, ctx'.buffer.operations, pc', pc.info, pc.attempt,
                        pc.remaining - slice, Stops(answers, 0), Stops(answers, 1))
              && SleptBy(pc') == pc.slept + slice
  {
    hide DelayAfter;
  }

  /** And before the first attempt. */
  lemma {:induction false} ControlIsAskedFirst(ctx: Context, request: Request, answers: Answers)
    requires Admission(ctx, request, answers).Ok? && (request.policy.Some? ==> ValidPolicy(request.policy.value))
    ensures var (ctx', pc') := Admit(ctx, request, answers);
            var info := Admission(ctx, request, answers).value;
            && GoesOn(ctx.buffer.operations, ctx'.buffer.operations, pc', info, 0, 0.0, false, Stops(answers, 1))
            && ctx'.sequence == ctx.sequence + 1 && ctx'.subjects == ctx.subjects + {info.subject}
  {
    hide Subject;
  }

  lemma OnlyStarts(ctx: Context, pc: Pc, request: Request, answers: Answers)
    ensures var ops, ops' := ctx.buffer.operations, Admit(ctx, request, answers).0.buffer.operations;
            |ops| <= |ops'| && ops'[..|ops|] == ops && forall k :: |ops| <= k < |ops'| ==> ops'[k].kind == Started
    ensures pc.Delaying? ==>
              var ops, ops' := ctx.buffer.operations, Wake(ctx, pc, answers).0.buffer.operations;
              |ops| <= |ops'| && ops'[..|ops|] == ops && forall k :: |ops| <= k < |ops'| ==> ops'[k].kind == Started
  {
    hide Admission, Slice;
  }

  /** Operation k of the buffer was appended when this action ended an invocation, as it was due. */
  ghost predicate EndedBy(w: World, action: Action, op: Op, k: nat) {
    && action.Return? && action.id in w.steps && w.steps[action.id].Invoking?
    && k == |w.ctx.buffer.operations|
    && var pc := w.steps[action.id];
       && op.span == pc.span && op.attempt == pc.attempt && op.subject == pc.info.subject
       && Deserves(op.kind, ThrownBy(action.outcome, action.answers), pc.attempt, pc.info.policy.maxAttempts)
  }

  lemma {:induction false} ActionEnds(w: World, action: Action, k: nat)
    requires Inv(w) && Enabled(w, action)
    ensures var ops, ops' := w.ctx.buffer.operations, Perform(w, action).ctx.buffer.operations;
            && |ops| <= |ops'| && ops'[..|ops|] == ops
            && (|ops| <= k < |ops'| && Terminal(ops'[k]) ==> EndedBy(w, action, ops'[k], k))
  {
    match action
    case Call(id, request, answers) => OnlyStarts(w.ctx, Rejected(Stopped), request, answers);
    case Slept(id, answers) => OnlyStarts(w.ctx, w.steps[id], Request("", None, None, None), answers);
    case Return(id, outcome, answers) =>
      StepIs(w, id);
      SettlesAsDue(w.ctx, w.steps[id], outcome, answers);
  }

  /** In every run every terminal was appended by the end of an invocation and is the one that end was
      due: an attempt is marked failed only when it was not to be retried, and retrying only when it was. */
  lemma {:induction false} TerminalsAreDue(worlds: seq<World>, actions: seq<Action>, j: nat, k: nat)
    requires Run(worlds, actions) && j < |worlds|
    requires k < |worlds[j].ctx.buffer.operations| && Terminal(worlds[j].ctx.buffer.operations[k])
    ensures exists i :: 0 <= i < j && EndedBy(worlds[i], actions[i], worlds[j].ctx.buffer.operations[k], k)
  {
    hide EndedBy, Inv, Enabled, Perform;
    assert j > 0;
    assert actions[j - 1] == actions[j - 1];
    RunKeepsInv(worlds, actions, j - 1);
    ActionEnds(worlds[j - 1], actions[j - 1], k);
    if k < |worlds[j - 1].ctx.buffer.operations| { TerminalsAreDue(worlds, actions, j - 1, k); }
  }

  // ----- what admits a step -----

  /** A step is admitted exactly when its name and key are well formed, its subject is new, there is room,
      its timeout is positive and the control does not stop it; it then counts as the next one. */
  lemma AdmittedIff(ctx: Context, request: Request, answers: Answers)
    ensures var named := 1 <= |request.name| <= 128 && (request.key.Some? ==> Identifier(request.key.value, 64));
            var subject := if request.key.Some? then request.name + ":" + request.key.value else request.name;
            var admission := Admission(ctx, request, answers);
            && (admission.Ok? <==>
                  && named && subject !in ctx.subjects && |ctx.subjects| < 1000
                  && (request.timeout.Some? ==> request.timeout.value > 0.0)
                  && (answers == [] || answers[0].None?))
            && (admission.Ok? ==>
                  && admission.value.name == request.name && admission.value.subject == subject
                  && admission.value.logical == ctx.sequence + 1
                  && (request.policy.Some? ==> admission.value.policy == request.policy.value)
                  && (request.policy.None? ==> admission.value.policy.maxAttempts == 1))
  {
    if request.key.Some? { KeysAreIdentifiers(request.key.value); }
    hide ValidKey, Identifier;
  }

  lemma KeysAreIdentifiers(key: string)
    ensures ValidKey(key) <==> Identifier(key, 64)
  {}

  // ----- the name a result reports -----

  predicate Final(op: Op) {
    op.kind == Completed || op.kind == Failed
  }

  function LastStepName(ops: seq<Op>): string {
    if ops == [] then ""
    else if Final(Last(ops)) then Last(ops).name
    else LastStepName(Front(ops))
  }

  /** The last attempt that ended its step, if any, gives the name. */
  lemma {:induction false} LastStepNameIs(ops: seq<Op>)
    ensures (forall i :: 0 <= i < |ops| ==> ops[i].kind in {Started, Retrying}) ==> LastStepName(ops) == ""
    ensures forall i :: 0 <= i < |ops| && ops[i].kind in {Completed, Failed}
                        && (forall j :: i < j < |ops| ==> ops[j].kind in {Started, Retrying}) ==>
              LastStepName(ops) == ops[i].name
  {
    if ops != [] {
      LastStepNameIs(Front(ops));
      forall i | 0 <= i < |ops| && ops[i].kind in {Completed, Failed}
                 && (forall j :: i < j < |ops| ==> ops[j].kind in {Started, Retrying})
        ensures LastStepName(ops) == ops[i].name
      {
        if i < |ops| - 1 {
          assert !Final(ops[|ops| - 1]);
          assert Front(ops)[i] == ops[i];
          assert forall j :: i < j < |Front(ops)| ==> Front(ops)[j] == ops[j];
        }
      }
    }
  }
}
