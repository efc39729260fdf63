/** `runConnector` (services/connectors/src/sdk/runner.ts): logs the start, awaits
    each of the optional phases init, discover, poll and shutdown that the connector
    has, in that order, and logs the finish. There is no catch, so a phase that
    throws ends the run.

    A connector is described by the phases it has; `throws` is the set of phases
    that throw when called. The run is recorded as a trace of steps. */
module Runner {
  datatype Phase = Init | Discover | Poll | Shutdown

  /** What a connector exposes to the runner. */
  datatype ConnectorShape = ConnectorShape(kind: string, name: string, present: set<Phase>)

  datatype Step = Started(name: string, kind: string) | Called(phase: Phase) | Finished(name: string)

  /** The fixed order of the phases. */
  function Rank(p: Phase): nat {
    match p
    case Init => 0
    case Discover => 1
    case Poll => 2
    case Shutdown => 3
  }

  const AllPhases: seq<Phase> := [Init, Discover, Poll, Shutdown]

  /** The phases appear in strictly increasing rank. */
  predicate Ordered(ps: seq<Phase>) {
    forall i, j :: 0 <= i < j < |ps| ==> Rank(ps[i]) < Rank(ps[j])
  }

  /** Walking the phases `ps` in order: the ones called, and whether the walk got
      through without a throw. */
  function Calls(present: set<Phase>, throws: set<Phase>, ps: seq<Phase>): (seq<Phase>, bool)
    decreases |ps|
  {
    if ps == [] then ([], true)
    else if ps[0] !in present then Calls(present, throws, ps[1..])
    else if ps[0] in throws then ([ps[0]], false)
    else
      var rest := Calls(present, throws, ps[1..]);
      ([ps[0]] + rest.0, rest.1)
  }

  function CallSteps(ps: seq<Phase>): (steps: seq<Step>)
    ensures |steps| == |ps| && forall i :: 0 <= i < |ps| ==> steps[i] == Called(ps[i])
  {
    if ps == [] then [] else [Called(ps[0])] + CallSteps(ps[1..])
  }

  /** The trace of a run and whether it completed. */
  function Run(c: ConnectorShape, throws: set<Phase>): (seq<Step>, bool) {
    var (called, done) := Calls(c.present, throws, AllPhases);
    ([Started(c.name, c.kind)] + CallSteps(called) + (if done then [Finished(c.name)] else []), done)
  }

  /** The runner itself: four guarded, awaited calls between the two log lines.
      `completed` is false when a phase threw out of the run. */
  method RunConnector(c: ConnectorShape, throws: set<Phase>) returns (trace: seq<Step>, completed: bool)
    ensures (trace, completed) == Run(c, throws)
  {
    // `called` are the phases called so far, `rest` those still to consider.
    ghost var called: seq<Phase> := [];
    ghost var rest := AllPhases;
    assert [] + Calls(c.present, throws, rest).0 == Calls(c.present, throws, rest).0;
    trace := [Started(c.name, c.kind)];
    completed := false;
    assert trace == [Started(c.name, c.kind)] + CallSteps(called);
    var threw;
    trace, threw, called := CallPhase(c, throws, Init, trace, called, rest);
    if threw { return; }
    rest := rest[1..];
    trace, threw, called := CallPhase(c, throws, Discover, trace, called, rest);
    if threw { return; }
    rest := rest[1..];
    trace, threw, called := CallPhase(c, throws, Poll, trace, called, rest);
    if threw { return; }
    rest := rest[1..];
    trace, threw, called := CallPhase(c, throws, Shutdown, trace, called, rest);
    if threw { return; }
    rest := rest[1..];
    assert rest == [] && Calls(c.present, throws, rest) == ([], true) && called + [] == called;
    trace := trace + [Finished(c.name)];
    completed := true;
  }

  /** `if (connector.p) await connector.p(...)`: the next phase of the walk is called
      when present; a throw ends the run with the trace so far. */
  method CallPhase(c: ConnectorShape, throws: set<Phase>, p: Phase, trace: seq<Step>,
                   ghost called: seq<Phase>, ghost rest: seq<Phase>)
    returns (trace': seq<Step>, threw: bool, ghost called': seq<Phase>)
    requires rest != [] && rest[0] == p && Agrees(c, throws, called, rest)
    requires trace == [Started(c.name, c.kind)] + CallSteps(called)
    ensures threw ==> (trace', false) == Run(c, throws)
    ensures !threw ==> Agrees(c, throws, called', rest[1..])
                       && trace' == [Started(c.name, c.kind)] + CallSteps(called')
  {
    trace', threw, called' := trace, false, called;
    if p in c.present {
      TraceStep(Started(c.name, c.kind), called, p);
      trace' := trace + [Called(p)];
      if p in throws {
        Stop(c, throws, called, rest);
        threw := true;
        return;
      }
    }
    Advance(c, throws, called, rest);
    called' := called + (if p in c.present then [p] else []);
  }

  /** The walk of the whole phase list is `called` followed by the walk of `rest`. */
  ghost predicate Agrees(c: ConnectorShape, throws: set<Phase>, called: seq<Phase>, rest: seq<Phase>) {
    var w := Calls(c.present, throws, rest);
    Calls(c.present, throws, AllPhases) == (called + w.0, w.1)
  }

  lemma Advance(c: ConnectorShape, throws: set<Phase>, called: seq<Phase>, rest: seq<Phase>)
    requires rest != [] && Agrees(c, throws, called, rest)
    requires rest[0] !in c.present || rest[0] !in throws
    ensures Agrees(c, throws, called + (if rest[0] in c.present then [rest[0]] else []), rest[1..])
  {
    if rest[0] in c.present {
      var w := Calls(c.present, throws, rest[1..]);
      assert called + ([rest[0]] + w.0) == (called + [rest[0]]) + w.0;
    } else {
      assert called + [] == called;
    }
  }

  lemma Stop(c: ConnectorShape, throws: set<Phase>, called: seq<Phase>, rest: seq<Phase>)
    requires rest != [] && Agrees(c, throws, called, rest)
    requires rest[0] in c.present && rest[0] in throws
    ensures Calls(c.present, throws, AllPhases) == (called + [rest[0]], false)
  {
  }

  /** Logging one more call extends the trace by that call. */
  lemma TraceStep(start: Step, ps: seq<Phase>, p: Phase)
    ensures [start] + CallSteps(ps) + [Called(p)] == [start] + CallSteps(ps + [p])
    ensures [start] + CallSteps(ps + [p]) + [] == [start] + CallSteps(ps + [p])
  {
  }

  // ---------------------------------------------------------------------------
  // Properties of a run
  // ---------------------------------------------------------------------------

  /** Every phase called is present and one of `ps`, and the calls keep the order of `ps`. */
  lemma {:induction false} CallsAreOrderedSubset(present: set<Phase>, throws: set<Phase>, ps: seq<Phase>)
    requires Ordered(ps)
    ensures var called := Calls(present, throws, ps).0;
      && Ordered(called)
      && forall p :: p in called ==> p in present && p in ps
    decreases |ps|
  {
    if ps != [] {
      CallsAreOrderedSubset(present, throws, ps[1..]);
      var rest := Calls(present, throws, ps[1..]).0;
      forall p | p in rest ensures Rank(ps[0]) < Rank(p) {
        var j :| 1 <= j < |ps| && ps[j] == p;
      }
    }
  }

  /** A walk completes iff no present phase of `ps` throws, and then every present
      phase of `ps` is called. */
  lemma {:induction false} CallsComplete(present: set<Phase>, throws: set<Phase>, ps: seq<Phase>)
    ensures var (called, done) := Calls(present, throws, ps);
      && (done <==> forall p :: p in ps && p in present ==> p !in throws)
      && (done ==> forall p :: p in ps && p in present ==> p in called)
    decreases |ps|
  {
    if ps != [] {
      CallsComplete(present, throws, ps[1..]);
      forall p | p in ps ensures p == ps[0] || p in ps[1..] {
        var j :| 0 <= j < |ps| && ps[j] == p;
        if j > 0 {
          assert ps[1..][j - 1] == p;
        }
      }
    }
  }

  /** A walk that does not complete ends with the phase that threw, and no earlier
      call threw. */
  lemma {:induction false} CallsStopAtThrow(present: set<Phase>, throws: set<Phase>, ps: seq<Phase>)
    ensures var (called, done) := Calls(present, throws, ps);
      && (!done ==> called != [] && called[|called| - 1] in throws)
      && forall i :: 0 <= i < |called| - (if done then 0 else 1) ==> called[i] !in throws
    decreases |ps|
  {
    if ps != [] {
      CallsStopAtThrow(present, throws, ps[1..]);
      var rest := Calls(present, throws, ps[1..]);
      if ps[0] in present && ps[0] !in throws {
        var called := [ps[0]] + rest.0;
        forall i | 0 <= i < |called| - (if rest.1 then 0 else 1) ensures called[i] !in throws {
          if i > 0 {
            assert called[i] == rest.0[i - 1];
          }
        }
      }
    }
  }

  /** The phases present are called in the order init, discover, poll, shutdown, and
      an absent phase is never called. */
  lemma PhasesInOrder(c: ConnectorShape, throws: set<Phase>)
    ensures var called := Calls(c.present, throws, AllPhases).0;
      && Ordered(called)
      && forall p :: p in called ==> p in c.present
  {
    assert Ordered(AllPhases);
    CallsAreOrderedSubset(c.present, throws, AllPhases);
  }

  /** When no phase throws, the run completes and calls each present phase exactly once. */
  lemma EachPresentPhaseOnce(c: ConnectorShape, throws: set<Phase>)
    requires forall p :: p in c.present ==> p !in throws
    ensures Run(c, throws).1
    ensures var called := Calls(c.present, throws, AllPhases).0;
      && (forall p :: p in called <==> p in c.present)
      && forall i, j :: 0 <= i < j < |called| ==> called[i] != called[j]
  {
    CallsComplete(c.present, throws, AllPhases);
    PhasesInOrder(c, throws);
    forall p | p in c.present ensures p in AllPhases {
      match p
      case Init => assert AllPhases[0] == p;
      case Discover => assert AllPhases[1] == p;
      case Poll => assert AllPhases[2] == p;
      case Shutdown => assert AllPhases[3] == p;
    }
  }

  /** The start line comes first; the finish line comes last exactly when the run completed. */
  lemma StartFirstFinishLast(c: ConnectorShape, throws: set<Phase>)
    ensures var (trace, done) := Run(c, throws);
      && trace[0] == Started(c.name, c.kind)
      && (done <==> trace[|trace| - 1] == Finished(c.name))
      && forall i :: 0 < i < |trace| - 1 ==> trace[i].Called?
  {
    var (called, done) := Calls(c.present, throws, AllPhases);
    CallsStopAtThrow(c.present, throws, AllPhases);
    TraceShape(c, called, done);
  }

  /** The trace built around any list of calls that is non-empty when the run stopped. */
  lemma TraceShape(c: ConnectorShape, called: seq<Phase>, done: bool)
    requires !done ==> called != []
    ensures var trace := [Started(c.name, c.kind)] + CallSteps(called) + (if done then [Finished(c.name)] else []);
      && trace[0] == Started(c.name, c.kind)
      && (done <==> trace[|trace| - 1] == Finished(c.name))
      && forall i :: 0 < i < |trace| - 1 ==> trace[i].Called?
  {
    var steps := CallSteps(called);
    var trace := [Started(c.name, c.kind)] + steps + (if done then [Finished(c.name)] else []);
    forall i | 0 < i < |trace| - 1 ensures trace[i].Called? {
      assert trace[i] == steps[i - 1];
    }
    if !done {
      assert trace[|trace| - 1] == steps[|steps| - 1];
    }
  }

  /** After a phase throws nothing else runs: it is the last call and no finish line follows. */
  lemma NothingAfterThrow(c: ConnectorShape, throws: set<Phase>)
    ensures var (trace, done) := Run(c, throws);
      var called := Calls(c.present, throws, AllPhases).0;
      !done ==> called != [] && called[|called| - 1] in throws
                && trace[|trace| - 1] == Called(called[|called| - 1])
                && forall p :: p in c.present && Rank(p) > Rank(called[|called| - 1]) ==> p !in called
  {
    var (trace, done) := Run(c, throws);
    var called := Calls(c.present, throws, AllPhases).0;
    if !done {
      CallsStopAtThrow(c.present, throws, AllPhases);
      PhasesInOrder(c, throws);
    }
  }
}
