/** Executions of the analytical graph engine: every interleaving of any number of drivers, the
    tasks of their rounds, checkpoints, timeouts, crashes and resumes. */
module GraphExecution {
  import opened GraphContracts
  import opened GraphEngine
  import opened Wrappers

  /** A node of the current round: waiting for the semaphore, marked running, or inside its
      handler with the inputs it resolved. */
  datatype Task = Queued | Started | Holding(inputs: Inputs)

  datatype Driver = Driver(state: GraphState, tasks: map<Id, Task>, errored: bool)

  datatype System = System(stored: GraphState, drivers: map<nat, Driver>)

  datatype Step =
    | Resume(d: nat)                    // a new driver loads the stored checkpoint
    | BeginRound(d: nat)                // collect the ready nodes and gather them
    | Start(d: nat, n: Id)              // mark a gathered node running
    | Resolve(d: nat, n: Id)            // read the inputs of a started node
    | Abort(d: nat, n: Id)              // an error before the handler: the node stays as it is
    | Finish(d: nat, n: Id)             // the handler returned
    | Break(d: nat, n: Id)              // the handler, or the check of its result, raised
    | Checkpoint(d: nat)                // compare-and-swap the driver's state into the store
    | Conclude(d: nat)                  // all nodes complete: the graph completes
    | GiveUp(d: nat, s: GraphStatus)    // failure or cancellation of the whole graph
    | TimeOut(d: nat)                   // the graph timeout
    | Leave(d: nat)                     // the driver returns, raises out, or crashes

  function Initial(p: Program): System {
    System(Fresh(p), map[])
  }

  predicate IsTaskStep(step: Step) {
    step.Start? || step.Resolve? || step.Abort? || step.Finish? || step.Break?
  }

  predicate IsGraphStep(step: Step) {
    step.BeginRound? || step.Conclude? || step.GiveUp? || step.TimeOut?
  }

  /** The steps a driver takes on its own copy. */
  predicate CanAdvance(p: Program, driver: Driver, step: Step) {
    var s := driver.state;
    match step
    case BeginRound(_) =>
      && driver.tasks == map[] && !driver.errored && s.status == GraphRunning
      && forall n :: n in s.nodes ==> s.nodes[n] !in {Failed, Cancelled}
    case Start(_, n) => n in driver.tasks && driver.tasks[n].Queued?
    case Resolve(_, n) =>
      n in driver.tasks && driver.tasks[n].Started? && n in p.nodes && InputsFrom(p.nodes[n], s.results).Some?
    case Abort(_, n) => n in driver.tasks && !driver.tasks[n].Holding?
    case Finish(_, n) =>
      && n in driver.tasks && driver.tasks[n].Holding? && n in p.nodes
      && p.handler(p.nodes[n], driver.tasks[n].inputs).Some?
    case Break(_, n) => n in driver.tasks && driver.tasks[n].Holding?
    case Conclude(_) =>
      && driver.tasks == map[] && !driver.errored && s.status == GraphRunning
      && forall n :: n in s.nodes ==> s.nodes[n] == Completed
    case GiveUp(_, status) => driver.tasks == map[] && status in {GraphFailed, GraphCancelled}
    case TimeOut(_) => driver.tasks == map[]
    case _ => false
  }

  predicate Enabled(p: Program, sys: System, step: Step) {
    match step
    case Resume(d) => d !in sys.drivers
    case Checkpoint(d) => d in sys.drivers
    case Leave(d) => d in sys.drivers
    case _ => step.d in sys.drivers && CanAdvance(p, sys.drivers[step.d], step)
  }

  /** The driver after one of its own steps. */
  function Advance(p: Program, driver: Driver, step: Step): Driver
    requires CanAdvance(p, driver, step)
  {
    var s := driver.state;
    match step
    case BeginRound(_) => driver.(tasks := map n | n in p.nodes && Ready(p, s, n) :: Queued)
    case Start(_, n) => driver.(state := SetNode(s, n, Running), tasks := driver.tasks[n := Started])
    case Resolve(_, n) =>
      driver.(tasks := driver.tasks[n := Holding(InputsFrom(p.nodes[n], s.results).value)])
    case Abort(_, n) => driver.(tasks := driver.tasks - {n}, errored := true)
    case Finish(_, n) =>
      var v := p.handler(p.nodes[n], driver.tasks[n].inputs).value;
      driver.(state := Complete(s, n, v), tasks := driver.tasks - {n})
    case Break(_, n) =>
      driver.(state := SetNode(s, n, Failed), tasks := driver.tasks - {n}, errored := true)
    case Conclude(_) => driver.(state := s.(status := GraphCompleted))
    case GiveUp(_, status) => driver.(state := s.(status := status), errored := true)
    case TimeOut(_) => driver.(state := TimedOut(s), errored := true)
  }

  function Apply(p: Program, sys: System, step: Step): System
    requires Enabled(p, sys, step)
  {
    match step
    case Resume(d) => sys.(drivers := sys.drivers[d := Driver(Recovered(sys.stored), map[], false)])
    case Checkpoint(d) =>
      var driver := sys.drivers[d];
      if driver.state.version == sys.stored.version then
        var saved := driver.state.(version := driver.state.version + 1);
        System(saved, sys.drivers[d := driver.(state := saved)])
      else
        sys.(drivers := sys.drivers[d := driver.(errored := true)])
    case Leave(d) => sys.(drivers := sys.drivers - {d})
    case _ => sys.(drivers := sys.drivers[step.d := Advance(p, sys.drivers[step.d], step)])
  }

  // ---------------------------------------------------------------------------------------------
  // The invariant

  ghost predicate SoundTask(p: Program, m: map<Id, Value>, s: GraphState, n: Id, t: Task) {
    && n in s.nodes
    && DependenciesDone(p, s, n)
    && (if t.Queued? then s.nodes[n] == Pending else s.nodes[n] == Running)
    && (t.Holding? ==> p.handler(p.nodes[n], t.inputs) == if n in m then Some(m[n]) else None)
  }

  ghost predicate SoundDriver(p: Program, m: map<Id, Value>, driver: Driver) {
    && Sound(p, m, driver.state)
    && (forall n :: n in driver.tasks ==> SoundTask(p, m, driver.state, n, driver.tasks[n]))
    && (driver.tasks != map[] ==> driver.state.status != GraphCompleted)
  }

  predicate Includes(larger: map<Id, Value>, smaller: map<Id, Value>) {
    forall n :: n in smaller ==> n in larger && larger[n] == smaller[n]
  }

  /** A driver whose next save would succeed holds every result the store holds. */
  ghost predicate UpToDate(stored: GraphState, driver: Driver) {
    && driver.state.version <= stored.version
    && (driver.state.version == stored.version ==> Includes(driver.state.results, stored.results))
  }

  ghost predicate SoundSystem(p: Program, m: map<Id, Value>, sys: System) {
    && Sound(p, m, sys.stored)
    && (forall d :: d in sys.drivers ==> SoundDriver(p, m, sys.drivers[d]) && UpToDate(sys.stored, sys.drivers[d]))
  }

  lemma ResolveIsSound(p: Program, m: map<Id, Value>, driver: Driver, n: Id)
    requires Solves(p, m) && SoundDriver(p, m, driver)
    requires n in driver.tasks && driver.tasks[n].Started? && n in p.nodes
    requires InputsFrom(p.nodes[n], driver.state.results).Some?
    ensures SoundTask(p, m, driver.state, n, Holding(InputsFrom(p.nodes[n], driver.state.results).value))
  {
    assert SoundTask(p, m, driver.state, n, driver.tasks[n]);
    assert AgreesOn(m, driver.state.results, p.nodes[n].dependencies);
  }

  /** One task ends or starts: the other tasks of the round keep their facts. */
  lemma TaskFrame(p: Program, m: map<Id, Value>, s: GraphState, s': GraphState, n: Id, k: Id, t: Task)
    requires SoundTask(p, m, s, k, t) && k != n
    requires s'.nodes.Keys == s.nodes.Keys
    requires forall j :: j in s.nodes && j != n ==> s'.nodes[j] == s.nodes[j]
    requires n in s.nodes && s.nodes[n] != Completed
    ensures SoundTask(p, m, s', k, t)
  {
  }

  lemma TaskStepState(p: Program, m: map<Id, Value>, driver: Driver, step: Step)
    requires Solves(p, m) && IsTaskStep(step) && CanAdvance(p, driver, step) && SoundDriver(p, m, driver)
    ensures Sound(p, m, Advance(p, driver, step).state)
  {
    var n := step.n;
    assert SoundTask(p, m, driver.state, n, driver.tasks[n]);
    match step {
      case Start(_, _) => StartIsSound(p, m, driver.state, n);
      case Finish(_, _) => CompleteIsSound(p, m, driver.state, n, m[n]);
      case Break(_, _) => FailIsSound(p, m, driver.state, n);
      case _ =>
    }
  }

  lemma OtherTaskStaysSound(p: Program, m: map<Id, Value>, driver: Driver, step: Step, k: Id)
    requires IsTaskStep(step) && CanAdvance(p, driver, step)
    requires SoundTask(p, m, driver.state, step.n, driver.tasks[step.n])
    requires k in driver.tasks && k != step.n && SoundTask(p, m, driver.state, k, driver.tasks[k])
    ensures k in Advance(p, driver, step).tasks
    ensures SoundTask(p, m, Advance(p, driver, step).state, k, Advance(p, driver, step).tasks[k])
  {
    TaskFrame(p, m, driver.state, Advance(p, driver, step).state, step.n, k, driver.tasks[k]);
  }

  lemma OwnTaskIsSound(p: Program, m: map<Id, Value>, driver: Driver, step: Step)
    requires Solves(p, m) && IsTaskStep(step) && CanAdvance(p, driver, step) && SoundDriver(p, m, driver)
    requires step.n in Advance(p, driver, step).tasks
    ensures SoundTask(p, m, Advance(p, driver, step).state, step.n, Advance(p, driver, step).tasks[step.n])
  {
    assert SoundTask(p, m, driver.state, step.n, driver.tasks[step.n]);
    if step.Resolve? {
      ResolveIsSound(p, m, driver, step.n);
    }
  }

  lemma TaskStepIsSound(p: Program, m: map<Id, Value>, driver: Driver, step: Step)
    requires Solves(p, m) && IsTaskStep(step) && CanAdvance(p, driver, step) && SoundDriver(p, m, driver)
    ensures SoundDriver(p, m, Advance(p, driver, step))
  {
    var next := Advance(p, driver, step);
    assert SoundTask(p, m, driver.state, step.n, driver.tasks[step.n]);
    TaskStepState(p, m, driver, step);
    forall k | k in next.tasks ensures SoundTask(p, m, next.state, k, next.tasks[k]) {
      if k == step.n {
        OwnTaskIsSound(p, m, driver, step);
      } else {
        OtherTaskStaysSound(p, m, driver, step, k);
      }
    }
  }

  lemma RoundBeginsSound(p: Program, m: map<Id, Value>, driver: Driver, step: Step)
    requires step.BeginRound? && CanAdvance(p, driver, step) && SoundDriver(p, m, driver)
    ensures SoundDriver(p, m, Advance(p, driver, step))
  {
    var next := Advance(p, driver, step);
    forall n | n in next.tasks ensures SoundTask(p, m, driver.state, n, next.tasks[n]) {
      assert Ready(p, driver.state, n);
    }
  }

  lemma StatusChangeIsSound(p: Program, m: map<Id, Value>, s: GraphState, status: GraphStatus)
    requires Sound(p, m, s) && (status == GraphCompleted ==> AllCompleted(s))
    ensures Sound(p, m, s.(status := status))
  {
    var next := s.(status := status);
    forall n | n in s.nodes && DependenciesDone(p, s, n) ensures DependenciesDone(p, next, n) {
      assert n in p.nodes;
    }
  }

  lemma GraphStepIsSound(p: Program, m: map<Id, Value>, driver: Driver, step: Step)
    requires IsGraphStep(step) && CanAdvance(p, driver, step) && SoundDriver(p, m, driver)
    ensures SoundDriver(p, m, Advance(p, driver, step))
  {
    match step {
      case BeginRound(_) => RoundBeginsSound(p, m, driver, step);
      case TimeOut(_) => RelabellingIsSound(p, m, driver.state);
      case Conclude(_) => StatusChangeIsSound(p, m, driver.state, GraphCompleted);
      case GiveUp(_, status) => StatusChangeIsSound(p, m, driver.state, status);
      case _ =>
    }
  }

  /** A driver's own step only adds results and does not touch its version. */
  lemma AdvanceOnlyAdds(p: Program, m: map<Id, Value>, driver: Driver, step: Step)
    requires CanAdvance(p, driver, step) && SoundDriver(p, m, driver)
    ensures var after := Advance(p, driver, step).state;
            after.version == driver.state.version && Includes(after.results, driver.state.results)
  {
    if step.Finish? {
      assert SoundTask(p, m, driver.state, step.n, driver.tasks[step.n]);
    }
  }

  /** Replacing one driver, and moving the store to a later version that includes its results,
      leaves every other driver sound: none of them can save over it. */
  lemma ReplacingKeepsSoundness(p: Program, m: map<Id, Value>, sys: System, stored: GraphState, d: nat, after: Driver)
    requires SoundSystem(p, m, sys)
    requires stored == sys.stored || sys.stored.version < stored.version
    requires Sound(p, m, stored)
    requires SoundDriver(p, m, after) && UpToDate(stored, after)
    ensures SoundSystem(p, m, System(stored, sys.drivers[d := after]))
  {
    var next := System(stored, sys.drivers[d := after]);
    forall e | e in next.drivers ensures SoundDriver(p, m, next.drivers[e]) && UpToDate(next.stored, next.drivers[e]) {
      if e != d {
        assert SoundDriver(p, m, sys.drivers[e]) && UpToDate(sys.stored, sys.drivers[e]);
      }
    }
  }

  lemma OwnStepIsSound(p: Program, m: map<Id, Value>, sys: System, step: Step)
    requires Solves(p, m) && SoundSystem(p, m, sys) && Enabled(p, sys, step) && (IsTaskStep(step) || IsGraphStep(step))
    ensures SoundSystem(p, m, Apply(p, sys, step)) && Apply(p, sys, step).stored == sys.stored
  {
    var d := step.d;
    assert SoundDriver(p, m, sys.drivers[d]) && UpToDate(sys.stored, sys.drivers[d]);
    AdvanceOnlyAdds(p, m, sys.drivers[d], step);
    if IsTaskStep(step) {
      TaskStepIsSound(p, m, sys.drivers[d], step);
    } else {
      GraphStepIsSound(p, m, sys.drivers[d], step);
    }
    ReplacingKeepsSoundness(p, m, sys, sys.stored, d, Advance(p, sys.drivers[d], step));
  }

  lemma SoundIgnoresVersion(p: Program, m: map<Id, Value>, driver: Driver, version: nat)
    requires SoundDriver(p, m, driver)
    ensures SoundDriver(p, m, driver.(state := driver.state.(version := version)))
    ensures Sound(p, m, driver.state.(version := version))
  {
    var s := driver.state.(version := version);
    assert forall n :: DependenciesDone(p, driver.state, n) ==> DependenciesDone(p, s, n);
    forall n | n in driver.tasks ensures SoundTask(p, m, s, n, driver.tasks[n]) {
      assert SoundTask(p, m, driver.state, n, driver.tasks[n]);
    }
  }

  lemma SavedIsSound(p: Program, m: map<Id, Value>, sys: System, driver: Driver)
    requires SoundDriver(p, m, driver) && UpToDate(sys.stored, driver) && driver.state.version == sys.stored.version
    ensures var saved := driver.state.(version := driver.state.version + 1);
            && Sound(p, m, saved) && SoundDriver(p, m, driver.(state := saved))
            && Includes(saved.results, sys.stored.results)
  {
    SoundIgnoresVersion(p, m, driver, driver.state.version + 1);
  }

  lemma CheckpointIsSound(p: Program, m: map<Id, Value>, sys: System, d: nat)
    requires SoundSystem(p, m, sys) && d in sys.drivers
    ensures SoundSystem(p, m, Apply(p, sys, Checkpoint(d)))
    ensures Includes(Apply(p, sys, Checkpoint(d)).stored.results, sys.stored.results)
    ensures sys.stored.version <= Apply(p, sys, Checkpoint(d)).stored.version
  {
    var driver := sys.drivers[d];
    assert SoundDriver(p, m, driver) && UpToDate(sys.stored, driver);
    var stored, after := sys.stored, driver.(errored := true);
    if driver.state.version == sys.stored.version {
      SavedIsSound(p, m, sys, driver);
      stored := driver.state.(version := driver.state.version + 1);
      after := driver.(state := stored);
    }
    assert Apply(p, sys, Checkpoint(d)) == System(stored, sys.drivers[d := after]);
    ReplacingKeepsSoundness(p, m, sys, stored, d, after);
  }

  /** Every atomic step keeps the invariant, and never takes a result out of the store. */
  lemma StepIsSound(p: Program, m: map<Id, Value>, sys: System, step: Step)
    requires Solves(p, m) && SoundSystem(p, m, sys) && Enabled(p, sys, step)
    ensures SoundSystem(p, m, Apply(p, sys, step))
    ensures Includes(Apply(p, sys, step).stored.results, sys.stored.results)
    ensures sys.stored.version <= Apply(p, sys, step).stored.version
  {
    match step {
      case Resume(d) =>
        RelabellingIsSound(p, m, sys.stored);
        var next := Apply(p, sys, step);
        forall e | e in next.drivers ensures SoundDriver(p, m, next.drivers[e]) && UpToDate(next.stored, next.drivers[e]) {
          if e != d {
            assert SoundDriver(p, m, sys.drivers[e]) && UpToDate(sys.stored, sys.drivers[e]);
          }
        }
      case Checkpoint(d) => CheckpointIsSound(p, m, sys, d);
      case Leave(d) =>
        var next := Apply(p, sys, step);
        forall e | e in next.drivers ensures SoundDriver(p, m, next.drivers[e]) && UpToDate(next.stored, next.drivers[e]) {
          assert SoundDriver(p, m, sys.drivers[e]) && UpToDate(sys.stored, sys.drivers[e]);
        }
      case _ => OwnStepIsSound(p, m, sys, step);
    }
  }

  // ---------------------------------------------------------------------------------------------
  // Whole executions

  ghost predicate Execution(p: Program, run: seq<System>, steps: seq<Step>) {
    && |run| == |steps| + 1
    && run[0] == Initial(p)
    && forall i :: 0 <= i < |steps| ==> Enabled(p, run[i], steps[i]) && run[i + 1] == Apply(p, run[i], steps[i])
  }

  lemma {:induction false} ExecutionIsSound(p: Program, m: map<Id, Value>, run: seq<System>, steps: seq<Step>, i: nat)
    requires Solves(p, m) && Execution(p, run, steps) && i < |run|
    ensures SoundSystem(p, m, run[i])
  {
    if i == 0 {
    } else {
      ExecutionIsSound(p, m, run, steps, i - 1);
      StepIsSound(p, m, run[i - 1], steps[i - 1]);
    }
  }

  lemma {:induction false} CompletedIsSolution(p: Program, m: map<Id, Value>, run: seq<System>, steps: seq<Step>, i: nat)
    requires Solves(p, m) && Execution(p, run, steps) && i < |run|
    requires run[i].stored.status == GraphCompleted
    requires m.Keys <= p.nodes.Keys
    ensures run[i].stored.results.Keys == p.nodes.Keys
    ensures run[i].stored.results == m
  {
    ExecutionIsSound(p, m, run, steps, i);
    var s := run[i].stored;
    assert Sound(p, m, s);
    assert forall n :: n in p.nodes ==> n in s.results;
  }

  /** Confluence.  In every execution, whatever the interleaving of tasks and drivers and however
      often it crashed and resumed, a graph stored as completed holds for every node exactly the
      value of the recursive bottom-up evaluation. */
  lemma {:induction false} CompletedRunsEvaluateTheGraph(p: Program, run: seq<System>, steps: seq<Step>, i: nat)
    requires Admitted(p) && Execution(p, run, steps) && i < |run|
    requires run[i].stored.status == GraphCompleted
    ensures run[i].stored.results.Keys == p.nodes.Keys
    ensures forall n :: n in p.nodes ==> Eval(p, n) == Some(run[i].stored.results[n])
  {
    MeaningSolves(p);
    CompletedIsSolution(p, Meaning(p), run, steps, i);
  }

  lemma {:induction false} CompletedNode(p: Program, run: seq<System>, steps: seq<Step>, i: nat, n: Id)
    requires Admitted(p) && Execution(p, run, steps) && i < |run| && n in p.nodes
    requires run[i].stored.status == GraphCompleted
    ensures n in run[i].stored.results && Eval(p, n) == Some(run[i].stored.results[n])
  {
    CompletedRunsEvaluateTheGraph(p, run, steps, i);
  }

  /** Two executions of the same graph, even ones validated with different orders, agree. */
  lemma {:induction false} CompletedRunsAgree(
      p: Program, run: seq<System>, steps: seq<Step>, i: nat,
      q: Program, run': seq<System>, steps': seq<Step>, j: nat)
    requires Admitted(p) && Admitted(q) && p.nodes == q.nodes && p.handler == q.handler
    requires Execution(p, run, steps) && i < |run| && run[i].stored.status == GraphCompleted
    requires Execution(q, run', steps') && j < |run'| && run'[j].stored.status == GraphCompleted
    ensures run[i].stored.results == run'[j].stored.results
  {
    var a, b := run[i].stored.results, run'[j].stored.results;
    assert a.Keys == p.nodes.Keys by {
      CompletedRunsEvaluateTheGraph(p, run, steps, i);
    }
    assert b.Keys == p.nodes.Keys by {
      CompletedRunsEvaluateTheGraph(q, run', steps', j);
    }
    forall n | n in p.nodes ensures a[n] == b[n] {
      CompletedNode(p, run, steps, i, n);
      CompletedNode(q, run', steps', j, n);
      EvalIgnoresRank(p, q, n);
    }
  }

  lemma OneStepPersists(p: Program, m: map<Id, Value>, run: seq<System>, steps: seq<Step>, i: nat)
    requires Solves(p, m) && Execution(p, run, steps) && i < |steps|
    ensures Includes(run[i + 1].stored.results, run[i].stored.results)
    ensures run[i].stored.version <= run[i + 1].stored.version
  {
    ExecutionIsSound(p, m, run, steps, i);
    StepIsSound(p, m, run[i], steps[i]);
  }

  lemma IncludesIsTransitive(a: map<Id, Value>, b: map<Id, Value>, c: map<Id, Value>)
    requires Includes(b, a) && Includes(c, b)
    ensures Includes(c, a)
  {
  }

  lemma {:induction false} SolutionsPersist(p: Program, m: map<Id, Value>, run: seq<System>, steps: seq<Step>, i: nat, j: nat)
    requires Solves(p, m) && Execution(p, run, steps) && i <= j < |run|
    ensures Includes(run[j].stored.results, run[i].stored.results)
    ensures run[i].stored.version <= run[j].stored.version
  {
    if i == j {
    } else {
      SolutionsPersist(p, m, run, steps, i, j - 1);
      OneStepPersists(p, m, run, steps, j - 1);
      IncludesIsTransitive(run[i].stored.results, run[j - 1].stored.results, run[j].stored.results);
    }
  }

  /** Checkpoints are never rolled back: no save, by any driver, loses a stored result. */
  lemma {:induction false} StoredResultsPersist(p: Program, run: seq<System>, steps: seq<Step>, i: nat, j: nat)
    requires Admitted(p) && Execution(p, run, steps) && i <= j < |run|
    ensures Includes(run[j].stored.results, run[i].stored.results)
    ensures run[i].stored.version <= run[j].stored.version
  {
    MeaningSolves(p);
    SolutionsPersist(p, Meaning(p), run, steps, i, j);
  }

  /** What a resumed driver schedules is at rest: no node of its copy is running or skipped. */
  lemma {:induction false} ResumedDriversRest(p: Program, run: seq<System>, steps: seq<Step>, i: nat)
    requires Admitted(p) && Execution(p, run, steps) && i < |steps| && steps[i].Resume?
    ensures steps[i].d in run[i + 1].drivers && Resting(run[i + 1].drivers[steps[i].d].state)
  {
    MeaningSolves(p);
    ExecutionIsSound(p, Meaning(p), run, steps, i);
    RelabellingKeepsTheRest(run[i].stored);
    assert Apply(p, run[i], steps[i]).drivers[steps[i].d] == Driver(Recovered(run[i].stored), map[], false);
  }

  /** Dependency safety: a pending node is marked running, and reads its inputs, only once every one of its
      dependencies is completed; every reference then finds its result. */
  lemma {:induction false} NodesRunAfterTheirDependencies(p: Program, run: seq<System>, steps: seq<Step>, i: nat)
    requires Admitted(p) && Execution(p, run, steps) && i < |steps|
    requires steps[i].Start? || steps[i].Resolve? || steps[i].Finish?
    ensures var s := run[i].drivers[steps[i].d].state;
            && DependenciesDone(p, s, steps[i].n)
            && (steps[i].Start? ==> steps[i].n in s.nodes && s.nodes[steps[i].n] == Pending)
            && forall name :: name in p.nodes[steps[i].n].inputs ==> p.nodes[steps[i].n].inputs[name].nodeId in s.results
  {
    MeaningSolves(p);
    ExecutionIsSound(p, Meaning(p), run, steps, i);
    var d, n := steps[i].d, steps[i].n;
    assert Enabled(p, run[i], steps[i]);
    assert SoundDriver(p, Meaning(p), run[i].drivers[d]);
    assert SoundTask(p, Meaning(p), run[i].drivers[d].state, n, run[i].drivers[d].tasks[n]);
  }

  // ---------------------------------------------------------------------------------------------
  // Errors

  /** A task of the driver raised, or its save met a newer checkpoint. */
  predicate Errs(sys: System, step: Step, d: nat) {
    && d in sys.drivers
    && (|| (step.Abort? && step.d == d) || (step.Break? && step.d == d)
        || (step == Checkpoint(d) && sys.drivers[d].state.version != sys.stored.version))
  }

  lemma ErrorIsRemembered(p: Program, sys: System, step: Step, d: nat)
    requires Enabled(p, sys, step) && d in sys.drivers && step != Leave(d)
    ensures d in Apply(p, sys, step).drivers
    ensures Errs(sys, step, d) || sys.drivers[d].errored ==> Apply(p, sys, step).drivers[d].errored
  {
  }

  lemma {:induction false} ErrorsStay(p: Program, run: seq<System>, steps: seq<Step>, i: nat, j: nat, d: nat)
    requires Execution(p, run, steps) && i < j < |run| && Errs(run[i], steps[i], d)
    requires forall k :: i < k < j ==> steps[k] != Leave(d)
    ensures d in run[j].drivers && run[j].drivers[d].errored
  {
    if j == i + 1 {
      ErrorIsRemembered(p, run[i], steps[i], d);
    } else {
      ErrorsStay(p, run, steps, i, j - 1, d);
      ErrorIsRemembered(p, run[j - 1], steps[j - 1], d);
    }
  }

  /** After its first error a driver neither begins another round nor completes the graph. */
  lemma ErrorsStopTheDriver(p: Program, run: seq<System>, steps: seq<Step>, i: nat, j: nat, d: nat)
    requires Execution(p, run, steps) && i < j < |steps| && Errs(run[i], steps[i], d)
    requires forall k :: i < k < j ==> steps[k] != Leave(d)
    ensures steps[j] != BeginRound(d) && steps[j] != Conclude(d)
  {
    ErrorsStay(p, run, steps, i, j, d);
    assert Enabled(p, run[j], steps[j]);
  }
}
