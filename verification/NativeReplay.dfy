/** Replaying a buffer onto an event sink that may refuse to open spans. */
module NativeReplay {
  import opened Prelude
  import opened NativeTrace

  type Ref = nat

  /** The calls a sink receives; failures of the other calls are suppressed and change nothing. */
  datatype SinkCall =
    | SpanStarted(op: Op, answer: Option<Ref>)
    | SpanCompleted(op: Op, span: Ref)
    | SpanFailed(op: Op, span: Ref)
    | Projection(op: Op, on: Option<Ref>)

  /** The sink's answer to opening a symbolic span: its own span, or a failure. */
  type Answers = nat -> Option<Ref>

  class EventSink {
    const answers: Answers
    const projects: bool
    var calls: seq<SinkCall>

    constructor (answers: Answers, projects: bool)
      ensures calls == [] && this.answers == answers && this.projects == projects
    {
      this.answers, this.projects, calls := answers, projects, [];
    }

    method Open(op: Op) returns (actual: Option<Ref>)
      modifies this
      ensures actual == answers(op.span) && calls == old(calls) + [SpanStarted(op, actual)]
    {
      actual := answers(op.span);
      calls := calls + [SpanStarted(op, actual)];
    }

    method Close(op: Op, actual: Option<Ref>)
      modifies this
      ensures calls == old(calls) + CloseCalls(op, actual)
    {
      if actual.None? {
        return;
      }
      calls := calls + [if op.kind == Completed then SpanCompleted(op, actual.value) else SpanFailed(op, actual.value)];
    }

    method Project(op: Op, actual: Option<Ref>)
      modifies this
      ensures calls == old(calls) + (if projects then [Projection(op, actual)] else [])
    {
      if !projects {
        return;
      }
      calls := calls + [Projection(op, actual)];
    }
  }

  function CloseCalls(op: Op, actual: Option<Ref>): seq<SinkCall> {
    match actual
    case None => []
    case Some(ref) => [if op.kind == Completed then SpanCompleted(op, ref) else SpanFailed(op, ref)]
  }

  ghost predicate Begun(ops: seq<Op>, span: nat) {
    exists op :: op in ops && op.kind == NativeTrace.Started && op.span == span
  }

  /** The calls one operation causes. */
  function CallsFor(op: Op, actual: Option<Ref>, projects: bool): seq<SinkCall> {
    (if op.kind == NativeTrace.Started then [SpanStarted(op, actual)] else CloseCalls(op, actual))
    + (if projects then [Projection(op, actual)] else [])
  }

  ghost function ActualFor(before: seq<Op>, op: Op, answers: Answers): Option<Ref> {
    if op.kind == NativeTrace.Started || Begun(before, op.span) then answers(op.span) else None
  }

  ghost function Calls(ops: seq<Op>, answers: Answers, projects: bool): seq<SinkCall> {
    if ops == [] then []
    else Calls(Front(ops), answers, projects)
         + CallsFor(Last(ops), ActualFor(Front(ops), Last(ops), answers), projects)
  }

  /** The spans the sink has opened so far. */
  ghost predicate Tracks(actual: map<nat, Ref>, ops: seq<Op>, answers: Answers) {
    && (forall span :: span in actual ==> Begun(ops, span) && answers(span) == Some(actual[span]))
    && (forall span :: Begun(ops, span) && answers(span).Some? ==> span in actual)
  }

  lemma TracksStep(actual: map<nat, Ref>, ops: seq<Op>, op: Op, answers: Answers)
    requires Tracks(actual, ops, answers)
    ensures op.kind == NativeTrace.Started && answers(op.span).Some? ==>
              Tracks(actual[op.span := answers(op.span).value], ops + [op], answers)
    ensures op.kind != NativeTrace.Started || answers(op.span).None? ==> Tracks(actual, ops + [op], answers)
  {
    forall span
      ensures Begun(ops + [op], span) <==> Begun(ops, span) || (op.kind == NativeTrace.Started && op.span == span)
    {
      if Begun(ops, span) {
        var o :| o in ops && o.kind == NativeTrace.Started && o.span == span;
        assert o in ops + [op];
      }
      assert op in ops + [op];
    }
  }

  /** One round of the replay loop. */
  method ReplayOperation(op: Op, ghost before: seq<Op>, actualSpans: map<nat, Ref>, sink: EventSink)
    returns (spans: map<nat, Ref>)
    requires Tracks(actualSpans, before, sink.answers)
    modifies sink
    ensures Tracks(spans, before + [op], sink.answers)
    ensures sink.calls == old(sink.calls) + CallsFor(op, ActualFor(before, op, sink.answers), sink.projects)
  {
    TracksStep(actualSpans, before, op, sink.answers);
    spans := actualSpans;
    if op.kind == NativeTrace.Started {
      var actual := sink.Open(op);
      if actual.Some? {
        spans := spans[op.span := actual.value];
      }
      sink.Project(op, actual);
    } else {
      var actual := if op.span in actualSpans then Some(actualSpans[op.span]) else None;
      assert actual == ActualFor(before, op, sink.answers);
      sink.Close(op, actual);
      sink.Project(op, actual);
    }
  }

  /** The replay of a buffer; `applies` is false without a sink or without a numeric run. */
  method Replay(ops: seq<Op>, sink: EventSink, applies: bool)
    modifies sink
    ensures sink.calls == old(sink.calls) + (if applies then Calls(ops, sink.answers, sink.projects) else [])
  {
    if !applies {
      return;
    }
    hide Tracks, Calls, CallsFor, ActualFor;
    ghost var start := sink.calls;
    var actualSpans: map<nat, Ref> := map[];
    TracksNothing(sink.answers, sink.projects);
    assert ops[..0] == [];
    for i := 0 to |ops|
      invariant Tracks(actualSpans, ops[..i], sink.answers)
      invariant sink.calls == start + Calls(ops[..i], sink.answers, sink.projects)
    {
      ghost var earlier := Calls(ops[..i], sink.answers, sink.projects);
      ghost var mine := CallsFor(ops[i], ActualFor(ops[..i], ops[i], sink.answers), sink.projects);
      CallsGrow(ops, sink.answers, sink.projects, i);
      Regroup(start, earlier, mine);
      actualSpans := ReplayOperation(ops[i], ops[..i], actualSpans, sink);
      assert ops[..i + 1] == ops[..i] + [ops[i]];
    }
    assert ops[..|ops|] == ops;
  }

  lemma Regroup<T>(a: seq<T>, b: seq<T>, c: seq<T>)
    ensures (a + b) + c == a + (b + c)
  {}

  lemma TracksNothing(answers: Answers, projects: bool)
    ensures Tracks(map[], [], answers) && Calls([], answers, projects) == []
  {}

  lemma CallsGrow(ops: seq<Op>, answers: Answers, projects: bool, i: nat)
    requires i < |ops|
    ensures Calls(ops[..i + 1], answers, projects)
            == Calls(ops[..i], answers, projects) + CallsFor(ops[i], ActualFor(ops[..i], ops[i], answers), projects)
  {
    assert Front(ops[..i + 1]) == ops[..i] && Last(ops[..i + 1]) == ops[i];
  }

  // ----- what the sink has seen -----

  /** Where the calls of operation i begin. */
  ghost function At(ops: seq<Op>, answers: Answers, projects: bool, i: nat): nat
    requires i <= |ops|
  {
    |Calls(ops[..i], answers, projects)|
  }

  lemma {:induction false} CallsPrefix(ops: seq<Op>, answers: Answers, projects: bool, i: nat)
    requires i <= |ops|
    ensures Calls(ops[..i], answers, projects) <= Calls(ops, answers, projects)
  {
    if i == |ops| {
      assert ops[..i] == ops;
    } else {
      CallsPrefix(Front(ops), answers, projects, i);
      assert Front(ops)[..i] == ops[..i];
    }
  }

  /** The calls of operation i are where they belong. */
  lemma {:induction false} CallsOf(ops: seq<Op>, answers: Answers, projects: bool, i: nat)
    requires i < |ops|
    ensures var mine := CallsFor(ops[i], ActualFor(ops[..i], ops[i], answers), projects);
            && At(ops, answers, projects, i + 1) == At(ops, answers, projects, i) + |mine|
            && At(ops, answers, projects, i + 1) <= |Calls(ops, answers, projects)|
            && Calls(ops, answers, projects)[At(ops, answers, projects, i)..At(ops, answers, projects, i + 1)] == mine
  {
    var upto := ops[..i + 1];
    assert Front(upto) == ops[..i] && Last(upto) == ops[i];
    CallsPrefix(ops, answers, projects, i + 1);
    var all, some := Calls(ops, answers, projects), Calls(upto, answers, projects);
    assert all[..|some|] == some;
    assert all[At(ops, answers, projects, i)..|some|] == some[At(ops, answers, projects, i)..];
  }

  /** Every call is some operation's. */
  lemma {:induction false} Owner(ops: seq<Op>, answers: Answers, projects: bool, c: nat) returns (i: nat)
    requires c < |Calls(ops, answers, projects)|
    ensures i < |ops| && At(ops, answers, projects, i) <= c < At(ops, answers, projects, i + 1)
  {
    var front := Front(ops);
    assert ops[..|ops|] == ops && ops[..|ops| - 1] == front;
    if c < |Calls(front, answers, projects)| {
      i := Owner(front, answers, projects, c);
      assert front[..i] == ops[..i] && front[..i + 1] == ops[..i + 1];
    } else {
      i := |ops| - 1;
    }
  }

  predicate Closes(call: SinkCall, span: nat) {
    (call.SpanCompleted? || call.SpanFailed?) && call.op.span == span
  }

  /** A span the sink opened is closed exactly once, after it was opened, on the sink's own span and
      with the recorded outcome. */
  lemma {:induction false} OpenedSpansCloseOnce(ops: seq<Op>, answers: Answers, projects: bool, k: nat, j: nat)
    requires WellFormed(ops) && k < |ops| && j < |ops|
    requires ops[k].kind == NativeTrace.Started && Terminal(ops[j]) && ops[j].span == ops[k].span
    requires answers(ops[k].span).Some?
    ensures var calls, ref := Calls(ops, answers, projects), answers(ops[k].span).value;
            exists a, b ::
              && 0 <= a < b < |calls|
              && calls[a] == SpanStarted(ops[k], Some(ref))
              && calls[b] == (if ops[j].kind == Completed then SpanCompleted(ops[j], ref) else SpanFailed(ops[j], ref))
              && forall c :: 0 <= c < |calls| && Closes(calls[c], ops[k].span) ==> c == b
  {
    hide WellFormed;
    var calls, span := Calls(ops, answers, projects), ops[k].span;
    StartBefore(ops, k, j);
    var a, b := At(ops, answers, projects, k), At(ops, answers, projects, j);
    OpenCall(ops, answers, projects, k);
    assert Begun(ops[..j], span) by { assert ops[..j][k] == ops[k]; }
    CloseCall(ops, answers, projects, j);
    AtGrows(ops, answers, projects, k + 1, j);
    hide Calls, At, Begun;
    forall c | 0 <= c < |calls| && Closes(calls[c], span) ensures c == b {
      var i := Closer(ops, answers, projects, span, c);
      OneTerminal(ops, i, j);
    }
    assert calls[a] == SpanStarted(ops[k], answers(span));
  }

  lemma {:induction false} OpenCall(ops: seq<Op>, answers: Answers, projects: bool, k: nat)
    requires k < |ops| && ops[k].kind == NativeTrace.Started
    ensures At(ops, answers, projects, k) < At(ops, answers, projects, k + 1) <= |Calls(ops, answers, projects)|
    ensures Calls(ops, answers, projects)[At(ops, answers, projects, k)] == SpanStarted(ops[k], answers(ops[k].span))
  {
    CallsOf(ops, answers, projects, k);
    hide Calls, At;
    var lo, hi := At(ops, answers, projects, k), At(ops, answers, projects, k + 1);
    assert Calls(ops, answers, projects)[lo] == Calls(ops, answers, projects)[lo..hi][0];
  }

  lemma {:induction false} CloseCall(ops: seq<Op>, answers: Answers, projects: bool, j: nat)
    requires j < |ops| && Terminal(ops[j]) && Begun(ops[..j], ops[j].span) && answers(ops[j].span).Some?
    ensures At(ops, answers, projects, j) < |Calls(ops, answers, projects)|
    ensures Calls(ops, answers, projects)[At(ops, answers, projects, j)]
            == (if ops[j].kind == Completed then SpanCompleted(ops[j], answers(ops[j].span).value)
                else SpanFailed(ops[j], answers(ops[j].span).value))
  {
    CallsOf(ops, answers, projects, j);
    hide Calls, At;
    var lo, hi := At(ops, answers, projects, j), At(ops, answers, projects, j + 1);
    assert Calls(ops, answers, projects)[lo] == Calls(ops, answers, projects)[lo..hi][0];
  }

  /** A call that closes a span is the first call of a terminal on that span. */
  lemma {:induction false} Closer(ops: seq<Op>, answers: Answers, projects: bool, span: nat, c: nat) returns (i: nat)
    requires c < |Calls(ops, answers, projects)| && Closes(Calls(ops, answers, projects)[c], span)
    ensures i < |ops| && Terminal(ops[i]) && ops[i].span == span && c == At(ops, answers, projects, i)
  {
    i := Owner(ops, answers, projects, c);
    CallsOf(ops, answers, projects, i);
    hide Calls, At;
    var lo, hi := At(ops, answers, projects, i), At(ops, answers, projects, i + 1);
    assert Calls(ops, answers, projects)[c] == Calls(ops, answers, projects)[lo..hi][c - lo];
  }

  /** Whatever the steps of a run did, once none is invoking the replay closes each span the sink
      opened exactly once. */
  lemma {:induction false} FinishedRunsReplay(
      worlds: seq<World>, actions: seq<Action>, i: nat, k: nat, answers: Answers, projects: bool)
    requires Run(worlds, actions) && i < |worlds| && k < |worlds[i].ctx.buffer.operations|
    requires worlds[i].ctx.buffer.operations[k].kind == NativeTrace.Started
    requires answers(worlds[i].ctx.buffer.operations[k].span).Some?
    requires forall id :: id in worlds[i].steps ==> !worlds[i].steps[id].Invoking?
    ensures var span := worlds[i].ctx.buffer.operations[k].span;
            var calls := Calls(worlds[i].ctx.buffer.operations, answers, projects);
            exists b :: 0 <= b < |calls| && Closes(calls[b], span)
                        && forall c :: 0 <= c < |calls| && Closes(calls[c], span) ==> c == b
  {
    var ops := worlds[i].ctx.buffer.operations;
    TraceIsWellFormed(worlds, actions, i);
    EverySpanEnds(worlds, actions, i, k);
    hide Run, WellFormed, Calls;
    var j :| k < j < |ops| && Terminal(ops[j]) && SameAttempt(ops[k], ops[j]);
    OpenedSpansCloseOnce(ops, answers, projects, k, j);
  }

  lemma StartBefore(ops: seq<Op>, k: nat, j: nat)
    requires WellFormed(ops) && k < |ops| && j < |ops|
    requires ops[k].kind == NativeTrace.Started && Terminal(ops[j]) && ops[j].span == ops[k].span
    ensures k < j
  {
    assert Opens(ops, j);
    var i :| 0 <= i < j && ops[i].kind == NativeTrace.Started && SameAttempt(ops[i], ops[j]);
    assert i == k;
  }

  lemma OneTerminal(ops: seq<Op>, i: nat, j: nat)
    requires WellFormed(ops) && i < |ops| && j < |ops|
    requires Terminal(ops[i]) && Terminal(ops[j]) && ops[i].span == ops[j].span
    ensures i == j
  {}

  lemma {:induction false} AtGrows(ops: seq<Op>, answers: Answers, projects: bool, i: nat, j: nat)
    requires i <= j <= |ops|
    ensures At(ops, answers, projects, i) <= At(ops, answers, projects, j)
  {
    CallsPrefix(ops[..j], answers, projects, i);
    assert ops[..j][..i] == ops[..i];
  }

  /** A span the sink refused is never closed. */
  lemma {:induction false} RefusedSpansStayShut(ops: seq<Op>, answers: Answers, projects: bool, span: nat)
    requires answers(span).None?
    ensures forall call :: call in Calls(ops, answers, projects) ==> !Closes(call, span)
  {
    if ops != [] {
      RefusedSpansStayShut(Front(ops), answers, projects, span);
    }
  }

  function Projected(calls: seq<SinkCall>): seq<Op> {
    if calls == [] then []
    else Projected(Front(calls)) + (if Last(calls).Projection? then [Last(calls).op] else [])
  }

  lemma {:induction false} ProjectedAppend(a: seq<SinkCall>, b: seq<SinkCall>)
    ensures Projected(a + b) == Projected(a) + Projected(b)
  {
    if b == [] {
      assert a + b == a;
    } else {
      ProjectedAppend(a, Front(b));
      assert Front(a + b) == a + Front(b) && Last(a + b) == Last(b);
    }
  }

  lemma {:induction false} ProjectedOnce(op: Op, actual: Option<Ref>)
    ensures Projected(CallsFor(op, actual, true)) == [op]
  {
    var first := if op.kind == NativeTrace.Started then [SpanStarted(op, actual)] else CloseCalls(op, actual);
    ProjectedAppend(first, [Projection(op, actual)]);
    if first != [] { assert Front(first) == []; }
    assert Front([Projection(op, actual)]) == [];
  }

  lemma ProjectedNothing()
    ensures Projected([]) == []
  {}

  /** One projection per buffered operation, in order. */
  lemma {:induction false} ProjectionsInOrder(ops: seq<Op>, answers: Answers)
    ensures Projected(Calls(ops, answers, true)) == ops
  {
    hide Projected, CallsFor, ActualFor;
    if ops == [] {
      assert Calls(ops, answers, true) == [] && Projected([]) == [] by { ProjectedNothing(); }
    } else {
      var op, front := Last(ops), Front(ops);
      var actual := ActualFor(front, op, answers);
      ProjectionsInOrder(front, answers);
      ProjectedAppend(Calls(front, answers, true), CallsFor(op, actual, true));
      ProjectedOnce(op, actual);
      assert ops == front + [op];
    }
  }
}
