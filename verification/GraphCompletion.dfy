/** Which graphs can be completed at all: those whose nodes all have a value. */
module GraphCompletion {
  import opened GraphContracts
  import opened GraphEngine
  import opened GraphExecution
  import opened Wrappers

  ghost predicate Reachable(p: Program, sys: System) {
    exists run: seq<System>, steps: seq<Step> :: Execution(p, run, steps) && run[|steps|] == sys
  }

  /** Some execution stores the graph as completed. */
  ghost predicate CanComplete(p: Program) {
    exists sys :: Reachable(p, sys) && sys.stored.status == GraphCompleted
  }

  ghost predicate EveryNodeEvaluates(p: Program)
    requires Admitted(p)
  {
    forall n :: n in p.nodes ==> Eval(p, n).Some?
  }

  lemma StartIsReachable(p: Program)
    ensures Reachable(p, Initial(p))
  {
    var run, steps: seq<Step> := [Initial(p)], [];
    assert Execution(p, run, steps) && run[|steps|] == Initial(p);
  }

  lemma StepIsReachable(p: Program, sys: System, step: Step)
    requires Reachable(p, sys) && Enabled(p, sys, step)
    ensures Reachable(p, Apply(p, sys, step))
  {
    var run, steps :| Execution(p, run, steps) && run[|steps|] == sys;
    var run', steps' := run + [Apply(p, sys, step)], steps + [step];
    assert Execution(p, run', steps') && run'[|steps'|] == Apply(p, sys, step);
  }

  lemma ReachableIsSound(p: Program, sys: System)
    requires Admitted(p) && Reachable(p, sys)
    ensures SoundSystem(p, Meaning(p), sys)
  {
    var run, steps :| Execution(p, run, steps) && run[|steps|] == sys;
    MeaningSolves(p);
    ExecutionIsSound(p, Meaning(p), run, steps, |steps|);
  }

  // ---------------------------------------------------------------------------------------------
  // One driver

  function Solo(stored: GraphState, driver: Driver): System {
    System(stored, map[0 := driver])
  }

  lemma SoloIsSound(p: Program, stored: GraphState, driver: Driver)
    requires Admitted(p) && Reachable(p, Solo(stored, driver))
    ensures SoundDriver(p, Meaning(p), driver)
  {
    ReachableIsSound(p, Solo(stored, driver));
    assert Solo(stored, driver).drivers[0] == driver;
  }

  lemma SoloActs(p: Program, stored: GraphState, driver: Driver, step: Step)
    requires Reachable(p, Solo(stored, driver)) && (IsTaskStep(step) || IsGraphStep(step)) && step.d == 0
    requires CanAdvance(p, driver, step)
    ensures Reachable(p, Solo(stored, Advance(p, driver, step)))
  {
    var sys := Solo(stored, driver);
    StepIsReachable(p, sys, step);
    assert sys.drivers[0 := Advance(p, driver, step)] == map[0 := Advance(p, driver, step)];
  }

  /** A node whose dependencies are completed with their values finds its inputs, and its handler returns. */
  lemma HandlerReturns(p: Program, s: GraphState, n: Id)
    requires Admitted(p) && EveryNodeEvaluates(p) && Sound(p, Meaning(p), s) && DependenciesDone(p, s, n)
    ensures InputsFrom(p.nodes[n], s.results).Some?
    ensures p.handler(p.nodes[n], InputsFrom(p.nodes[n], s.results).value).Some?
  {
    forall d | d in p.nodes[n].dependencies ensures d in s.results && Eval(p, d) == Some(s.results[d]) {
      assert d in s.nodes && s.nodes[d] == Completed;
    }
    InputsAreEvaluated(p, s.results, n);
  }

  /** What a node of the round leaves when it is done. */
  ghost predicate Ran(before: Driver, after: Driver, n: Id) {
    && after.tasks == before.tasks - {n} && after.errored == before.errored
    && after.state.nodes == before.state.nodes[n := Completed]
    && after.state.status == before.state.status && after.state.version == before.state.version
  }

  lemma NodeStarts(p: Program, stored: GraphState, driver: Driver, n: Id) returns (next: Driver)
    requires Reachable(p, Solo(stored, driver)) && n in driver.tasks && driver.tasks[n].Queued?
    ensures Reachable(p, Solo(stored, next))
    ensures next == driver.(state := SetNode(driver.state, n, Running), tasks := driver.tasks[n := Started])
  {
    SoloActs(p, stored, driver, Start(0, n));
    next := Advance(p, driver, Start(0, n));
  }

  lemma StartedHandlerReturns(p: Program, stored: GraphState, driver: Driver, n: Id)
    requires Admitted(p) && EveryNodeEvaluates(p) && Reachable(p, Solo(stored, driver))
    requires n in driver.tasks && driver.tasks[n].Started?
    ensures n in p.nodes && InputsFrom(p.nodes[n], driver.state.results).Some?
    ensures p.handler(p.nodes[n], InputsFrom(p.nodes[n], driver.state.results).value).Some?
  {
    SoloIsSound(p, stored, driver);
    assert SoundTask(p, Meaning(p), driver.state, n, driver.tasks[n]);
    HandlerReturns(p, driver.state, n);
  }

  lemma NodeResolves(p: Program, stored: GraphState, driver: Driver, n: Id) returns (next: Driver, inputs: Inputs)
    requires Admitted(p) && EveryNodeEvaluates(p) && Reachable(p, Solo(stored, driver))
    requires n in driver.tasks && driver.tasks[n].Started?
    ensures Reachable(p, Solo(stored, next)) && next == driver.(tasks := driver.tasks[n := Holding(inputs)])
    ensures n in p.nodes && p.handler(p.nodes[n], inputs).Some?
  {
    StartedHandlerReturns(p, stored, driver, n);
    SoloActs(p, stored, driver, Resolve(0, n));
    next, inputs := Advance(p, driver, Resolve(0, n)), InputsFrom(p.nodes[n], driver.state.results).value;
  }

  lemma NodeFinishes(p: Program, stored: GraphState, driver: Driver, n: Id) returns (next: Driver)
    requires Reachable(p, Solo(stored, driver)) && n in driver.tasks && driver.tasks[n].Holding? && n in p.nodes
    requires p.handler(p.nodes[n], driver.tasks[n].inputs).Some?
    ensures Reachable(p, Solo(stored, next)) && Ran(driver, next, n)
  {
    SoloActs(p, stored, driver, Finish(0, n));
    next := Advance(p, driver, Finish(0, n));
  }

  lemma RanAltogether(before: Driver, started: Driver, holding: Driver, after: Driver, n: Id, inputs: Inputs)
    requires started == before.(state := SetNode(before.state, n, Running), tasks := before.tasks[n := Started])
    requires holding == started.(tasks := started.tasks[n := Holding(inputs)]) && Ran(holding, after, n)
    ensures Ran(before, after, n)
  {
    assert before.tasks[n := Started][n := Holding(inputs)] - {n} == before.tasks - {n};
    assert before.state.nodes[n := Running][n := Completed] == before.state.nodes[n := Completed];
  }

  lemma NodeRuns(p: Program, stored: GraphState, driver: Driver, n: Id) returns (after: Driver)
    requires Admitted(p) && EveryNodeEvaluates(p) && Reachable(p, Solo(stored, driver))
    requires n in driver.tasks && driver.tasks[n].Queued?
    ensures Reachable(p, Solo(stored, after)) && Ran(driver, after, n)
  {
    var started := NodeStarts(p, stored, driver, n);
    var holding, inputs := NodeResolves(p, stored, started, n);
    after := NodeFinishes(p, stored, holding, n);
    RanAltogether(driver, started, holding, after, n, inputs);
  }

  /** What the whole round leaves when it is done. */
  ghost predicate RoundRan(before: Driver, after: Driver) {
    && after.tasks == map[] && after.errored == before.errored
    && after.state.nodes.Keys == before.state.nodes.Keys + before.tasks.Keys
    && (forall n :: n in before.tasks ==> after.state.nodes[n] == Completed)
    && (forall n :: n in before.state.nodes && n !in before.tasks ==> after.state.nodes[n] == before.state.nodes[n])
    && after.state.status == before.state.status && after.state.version == before.state.version
  }

  lemma {:induction false} RoundRuns(p: Program, stored: GraphState, driver: Driver) returns (after: Driver)
    requires Admitted(p) && EveryNodeEvaluates(p) && Reachable(p, Solo(stored, driver))
    requires forall n :: n in driver.tasks ==> driver.tasks[n].Queued?
    ensures Reachable(p, Solo(stored, after)) && RoundRan(driver, after)
    decreases driver.tasks.Keys
  {
    if driver.tasks == map[] {
      after := driver;
    } else {
      var n :| n in driver.tasks;
      var next := NodeRuns(p, stored, driver, n);
      after := RoundRuns(p, stored, next);
    }
  }

  /** Between two rounds of a run in which nothing went wrong. */
  ghost predicate BetweenRounds(driver: Driver) {
    && driver.tasks == map[] && !driver.errored && driver.state.status == GraphRunning
    && forall n :: n in driver.state.nodes ==> driver.state.nodes[n] in {Pending, Completed}
  }

  ghost function Unfinished(s: GraphState): set<Id> {
    set n | n in s.nodes && s.nodes[n] != Completed
  }

  lemma RoundBegins(p: Program, stored: GraphState, driver: Driver, n: Id) returns (next: Driver, ready: Id)
    requires Admitted(p) && Reachable(p, Solo(stored, driver))
    requires BetweenRounds(driver) && n in Unfinished(driver.state)
    ensures Reachable(p, Solo(stored, next)) && next == driver.(tasks := next.tasks) && ready in next.tasks
    ensures forall k :: k in next.tasks ==> next.tasks[k].Queued? && k in driver.state.nodes && k in Unfinished(driver.state)
  {
    SoloIsSound(p, stored, driver);
    ready := SomeNodeIsReady(p, driver.state, n);
    SoloActs(p, stored, driver, BeginRound(0));
    next := Advance(p, driver, BeginRound(0));
  }

  lemma RoundLeavesLess(before: Driver, after: Driver, ready: Id)
    requires RoundRan(before, after) && ready in before.tasks
    requires forall k :: k in before.tasks ==> k in Unfinished(before.state)
    requires forall n :: n in before.state.nodes ==> before.state.nodes[n] in {Pending, Completed}
    ensures Unfinished(after.state) < Unfinished(before.state)
    ensures forall n :: n in after.state.nodes ==> after.state.nodes[n] in {Pending, Completed}
  {
    assert ready in Unfinished(before.state) && ready !in Unfinished(after.state);
  }

  /** One round over the ready nodes finishes some node. */
  lemma RoundFinishes(p: Program, stored: GraphState, driver: Driver, n: Id) returns (after: Driver)
    requires Admitted(p) && EveryNodeEvaluates(p) && Reachable(p, Solo(stored, driver))
    requires BetweenRounds(driver) && n in Unfinished(driver.state)
    ensures Reachable(p, Solo(stored, after)) && BetweenRounds(after)
    ensures after.state.version == driver.state.version && Unfinished(after.state) < Unfinished(driver.state)
  {
    var begun, ready := RoundBegins(p, stored, driver, n);
    after := RoundRuns(p, stored, begun);
    RoundLeavesLess(begun, after, ready);
  }

  lemma {:induction false} AllRoundsRun(p: Program, stored: GraphState, driver: Driver) returns (after: Driver)
    requires Admitted(p) && EveryNodeEvaluates(p) && Reachable(p, Solo(stored, driver)) && BetweenRounds(driver)
    ensures Reachable(p, Solo(stored, after)) && BetweenRounds(after)
    ensures after.state.version == driver.state.version && AllCompleted(after.state)
    decreases Unfinished(driver.state)
  {
    if Unfinished(driver.state) == {} {
      after := driver;
      forall n | n in after.state.nodes ensures after.state.nodes[n] == Completed {
        assert n !in Unfinished(driver.state);
      }
    } else {
      var n :| n in Unfinished(driver.state);
      var next := RoundFinishes(p, stored, driver, n);
      after := AllRoundsRun(p, stored, next);
    }
  }

  /** With a value for every node, a driver that meets no error runs the graph to its end and stores it. */
  lemma GraphsWithValuesComplete(p: Program) returns (sys: System)
    requires Admitted(p) && EveryNodeEvaluates(p)
    ensures Reachable(p, sys) && sys.stored.status == GraphCompleted
  {
    var stored := Fresh(p);
    StartIsReachable(p);
    StepIsReachable(p, Initial(p), Resume(0));
    var driver := Driver(Recovered(stored), map[], false);
    assert Apply(p, Initial(p), Resume(0)) == Solo(stored, driver);
    driver := AllRoundsRun(p, stored, driver);
    SoloActs(p, stored, driver, Conclude(0));
    driver := Advance(p, driver, Conclude(0));
    StepIsReachable(p, Solo(stored, driver), Checkpoint(0));
    sys := Apply(p, Solo(stored, driver), Checkpoint(0));
  }

  /** A graph can be completed exactly if every node has a value in the recursive evaluation. */
  lemma CanCompleteIff(p: Program)
    requires Admitted(p)
    ensures CanComplete(p) <==> EveryNodeEvaluates(p)
  {
    if sys :| Reachable(p, sys) && sys.stored.status == GraphCompleted {
      var run, steps :| Execution(p, run, steps) && run[|steps|] == sys;
      CompletedRunsEvaluateTheGraph(p, run, steps, |steps|);
    }
    if EveryNodeEvaluates(p) {
      var sys := GraphsWithValuesComplete(p);
    }
  }
}
