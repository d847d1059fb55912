/** The scheduling loop of the graph engine and its in-memory checkpoint store.

    `Scheduler` runs the same steps as the state machine of `GraphExecution`, in the loop of the
    source: collect the ready nodes, gather them, stop on the first error.  Within a round any
    task may move next, and any task may fail.  What is proved is progress. */
module GraphScheduler {
  import opened GraphContracts
  import opened GraphEngine
  import opened GraphExecution
  import opened Wrappers

  // ---------------------------------------------------------------------------------------------
  // The store

  datatype Stored = Stored(tenant: string, state: GraphState)

  class InMemoryGraphStore {
    var states: map<string, Stored>

    constructor ()
      ensures states == map[]
    {
      states := map[];
    }

    /** False stands for the conflict error. */
    method Create(id: string, tenant: string, state: GraphState) returns (ok: bool)
      modifies this
      ensures ok == (id !in old(states))
      ensures states == if ok then old(states)[id := Stored(tenant, state)] else old(states)
    {
      ok := id !in states;
      if ok {
        states := states[id := Stored(tenant, state)];
      }
    }

    method Get(id: string, tenant: string) returns (state: Option<GraphState>)
      ensures state == if id in states && states[id].tenant == tenant then Some(states[id].state) else None
    {
      if id !in states || states[id].tenant != tenant {
        return None;
      }
      return Some(states[id].state);
    }

    /** Compare-and-swap on the version; the caller's copy moves to the saved version. */
    method Save(id: string, state: GraphState, expected: nat) returns (ok: bool, saved: GraphState)
      modifies this
      ensures ok == (id in old(states) && old(states)[id].state.version == expected)
      ensures saved == if ok then state.(version := expected + 1) else state
      ensures states == if ok then old(states)[id := Stored(old(states)[id].tenant, saved)] else old(states)
    {
      ok, saved := id in states && states[id].state.version == expected, state;
      if ok {
        saved := state.(version := expected + 1);
        states := states[id := Stored(states[id].tenant, saved)];
      }
    }
  }

  // ---------------------------------------------------------------------------------------------
  // The scheduling loop

  datatype Outcome = Done | Raised | PriorFailure | NoRunnableNodes

  /** No node is in a state the current round does not account for. */
  ghost predicate Clean(driver: Driver) {
    forall n :: n in driver.state.nodes ==> n in driver.tasks || driver.state.nodes[n] in {Pending, Completed}
  }

  ghost predicate Unstarted(s: GraphState) {
    forall n :: n in s.nodes ==> s.nodes[n] in {Pending, Completed}
  }

  function TasksLike(driver: Driver, kind: nat): set<Id> {
    set n | n in driver.tasks && (match driver.tasks[n]
                                  case Queued => kind == 0
                                  case Started => kind == 1
                                  case Holding(_) => kind == 2)
  }

  /** What one segment of task `n` does to the rest of the round. */
  ghost predicate TaskProgress(before: Driver, after: Driver, n: Id) {
    && Includes(after.state.results, before.state.results)
    && after.state.nodes.Keys == before.state.nodes.Keys
    && after.tasks.Keys <= before.tasks.Keys
    && n in before.tasks
    && (forall k :: k in before.tasks && k != n ==> k in after.tasks && after.tasks[k] == before.tasks[k])
    && (before.errored ==> after.errored)
    && (n in after.tasks || after.errored || n in after.state.results)
    && (!after.errored && Clean(before) ==> Clean(after))
    && (n in after.tasks ==>
          || (before.tasks[n].Queued? && after.tasks[n].Started?)
          || (before.tasks[n].Started? && after.tasks[n].Holding?))
  }

  lemma TaskStepMoves(p: Program, driver: Driver, step: Step)
    requires IsTaskStep(step) && CanAdvance(p, driver, step) && step.n in driver.state.nodes
    requires Includes(Advance(p, driver, step).state.results, driver.state.results)
    requires driver.tasks[step.n].Queued? ==> driver.state.nodes[step.n] == Pending
    ensures TaskProgress(driver, Advance(p, driver, step), step.n)
  {
  }

  lemma TaskStepProgresses(p: Program, m: map<Id, Value>, driver: Driver, step: Step)
    requires IsTaskStep(step) && CanAdvance(p, driver, step) && SoundDriver(p, m, driver)
    ensures TaskProgress(driver, Advance(p, driver, step), step.n)
  {
    AdvanceOnlyAdds(p, m, driver, step);
    assert SoundTask(p, m, driver.state, step.n, driver.tasks[step.n]);
    TaskStepMoves(p, driver, step);
  }

  lemma MoreResults(smaller: map<Id, Value>, larger: map<Id, Value>, n: Id)
    requires Includes(larger, smaller) && n in larger && n !in smaller
    ensures |smaller| < |larger|
  {
    assert smaller.Keys + {n} <= larger.Keys;
    SubsetSize(smaller.Keys + {n}, larger.Keys);
  }

  lemma ReadyIsUnfinished(p: Program, m: map<Id, Value>, s: GraphState, n: Id)
    requires Sound(p, m, s) && Ready(p, s, n)
    ensures n !in s.results && |s.results| < |p.nodes|
  {
    assert s.results.Keys + {n} <= p.nodes.Keys;
    SubsetSize(s.results.Keys + {n}, p.nodes.Keys);
  }

  /** The incomplete nodes, and those of them that failed or were cancelled. */
  method Unfinished(s: GraphState) returns (incomplete: set<Id>, failed: set<Id>)
    requires Resting(s)
    ensures incomplete == set n | n in s.nodes && s.nodes[n] != Completed
    ensures incomplete == {} <==> AllCompleted(s)
    ensures failed == {} <==> Unstarted(s)
  {
    incomplete := set n | n in s.nodes && s.nodes[n] != Completed;
    failed := set n | n in incomplete && s.nodes[n] in {Failed, Cancelled};
    assert incomplete == {} ==> forall n :: n in s.nodes ==> n !in incomplete;
    assert failed == {} ==> forall n :: n in s.nodes ==> n !in failed;
  }

  lemma TaskMoved(before: Driver, after: Driver, n: Id)
    requires n in before.tasks && after.tasks.Keys <= before.tasks.Keys
    requires forall k :: k in before.tasks && k != n ==> k in after.tasks && after.tasks[k] == before.tasks[k]
    requires n in after.tasks ==>
               || (before.tasks[n].Queued? && after.tasks[n].Started?)
               || (before.tasks[n].Started? && after.tasks[n].Holding?)
    ensures TasksLike(after, 0) <= TasksLike(before, 0)
    ensures before.tasks[n].Queued? ==> n in TasksLike(before, 0) - TasksLike(after, 0)
    ensures before.tasks[n].Started? ==>
              TasksLike(after, 1) <= TasksLike(before, 1) && n in TasksLike(before, 1) - TasksLike(after, 1)
    ensures before.tasks[n].Holding? ==>
              && TasksLike(after, 1) == TasksLike(before, 1)
              && TasksLike(after, 2) <= TasksLike(before, 2) && n in TasksLike(before, 2) - TasksLike(after, 2)
    ensures !before.tasks[n].Queued? ==> TasksLike(after, 0) == TasksLike(before, 0)
  {
  }

  class Scheduler {
    const program: Program
    var driver: Driver

    ghost predicate Valid(m: map<Id, Value>)
      reads this
    {
      && Admitted(program) && Solves(program, m)
      && SoundDriver(program, m, driver)
      && driver.state.status == GraphRunning
    }

    constructor (program: Program, state: GraphState, ghost m: map<Id, Value>)
      requires Admitted(program) && Solves(program, m) && Sound(program, m, state) && state.status == GraphRunning
      ensures Valid(m) && this.program == program && driver == Driver(state, map[], false)
    {
      this.program := program;
      this.driver := Driver(state, map[], false);
    }

    /** What a task may do next.  Start, a lookup error or another error before the handler, the
        handler's return, or its failure: all but the lookup error are outside the model's control. */
    method NextStep(n: Id, ghost m: map<Id, Value>) returns (step: Step)
      requires Valid(m) && n in driver.tasks
      ensures IsTaskStep(step) && step.n == n && CanAdvance(program, driver, step)
    {
      assert SoundTask(program, m, driver.state, n, driver.tasks[n]);
      var lucky: bool := *;
      match driver.tasks[n] {
        case Queued =>
          step := if lucky then Start(0, n) else Abort(0, n);
        case Started =>
          var inputs := ResolveInputs(driver.state.results, program.nodes[n]);
          step := if inputs.Some? && lucky then Resolve(0, n) else Abort(0, n);
        case Holding(inputs) =>
          var result := program.handler(program.nodes[n], inputs);
          step := if result.Some? && lucky then Finish(0, n) else Break(0, n);
      }
    }

    /** One atomic segment of one task of the round. The checkpoint that ends a task may conflict: the
        task then raises, with its node completed all the same if the handler returned. */
    method AdvanceTask(n: Id, ghost m: map<Id, Value>)
      requires Valid(m) && n in driver.tasks
      modifies this
      ensures Valid(m) && TaskProgress(old(driver), driver, n)
    {
      var step := NextStep(n, m);
      TaskStepIsSound(program, m, driver, step);
      TaskStepProgresses(program, m, driver, step);
      driver := Advance(program, driver, step);
      var conflict: bool := *;
      if step.Finish? && conflict {
        driver := driver.(errored := true);
      }
    }

    /** The gather: tasks of the round move in any order until each has returned or raised. */
    method Gather(ghost m: map<Id, Value>)
      requires Valid(m) && Clean(driver) && !driver.errored
      modifies this
      ensures Valid(m) && driver.tasks == map[]
      ensures Includes(driver.state.results, old(driver.state.results))
      ensures driver.state.nodes.Keys == old(driver.state.nodes.Keys)
      ensures !driver.errored ==>
                Clean(driver) && forall n :: n in old(driver.tasks) ==> n in driver.state.results
    {
      while driver.tasks != map[]
        invariant Valid(m)
        invariant Includes(driver.state.results, old(driver.state.results))
        invariant driver.state.nodes.Keys == old(driver.state.nodes.Keys)
        invariant !driver.errored ==> Clean(driver)
        invariant !driver.errored ==>
                    forall n :: n in old(driver.tasks) ==> n in driver.tasks || n in driver.state.results
        decreases TasksLike(driver, 0), TasksLike(driver, 1), TasksLike(driver, 2)
      {
        var n :| n in driver.tasks;
        ghost var before := driver;
        AdvanceTask(n, m);
        TaskMoved(before, driver, n);
      }
    }

    /** One round over a nonempty ready set: it completes every node of it, or raises. */
    method Round(ready: set<Id>, ghost m: map<Id, Value>)
      requires Valid(m) && driver.tasks == map[] && !driver.errored && Unstarted(driver.state)
      requires ready == set n | n in driver.state.nodes && Ready(program, driver.state, n)
      requires ready != {}
      modifies this
      ensures Valid(m) && driver.tasks == map[]
      ensures driver.state.nodes.Keys == old(driver.state.nodes.Keys)
      ensures Includes(driver.state.results, old(driver.state.results))
      ensures |old(driver.state.results)| <= |driver.state.results|
      ensures |old(driver.state.results)| < |program.nodes|
      ensures !driver.errored ==> Unstarted(driver.state) && ready <= driver.state.results.Keys
      ensures !driver.errored ==> |old(driver.state.results)| < |driver.state.results|
    {
      GraphStepIsSound(program, m, driver, BeginRound(0));
      ghost var before := driver.state.results;
      ghost var n :| n in ready;
      ReadyIsUnfinished(program, m, driver.state, n);
      driver := Advance(program, driver, BeginRound(0));
      assert driver.tasks.Keys == ready;
      Gather(m);
      SubsetSize(before.Keys, driver.state.results.Keys);
      if !driver.errored {
        MoreResults(before, driver.state.results, n);
      }
    }

    /** The ready nodes: never none, while incomplete nodes are pending. */
    method CollectReady(ghost stuck: Id) returns (ready: set<Id>)
      requires Admitted(program) && driver.state.nodes.Keys == program.nodes.Keys
      requires Unstarted(driver.state) && stuck in driver.state.nodes && driver.state.nodes[stuck] != Completed
      ensures ready != {} && ready == set n | n in driver.state.nodes && Ready(program, driver.state, n)
    {
      ready := set n | n in driver.state.nodes && Ready(program, driver.state, n);
      ghost var k := SomeNodeIsReady(program, driver.state, stuck);
      assert k in ready;
    }

    /** What the loop decides at its head: stop, or run the ready nodes. */
    method Inspect() returns (decision: Option<Outcome>, ready: set<Id>)
      requires Admitted(program) && driver.state.nodes.Keys == program.nodes.Keys && Resting(driver.state)
      ensures decision == Some(Done) <==> AllCompleted(driver.state)
      ensures decision == Some(PriorFailure) <==> !AllCompleted(driver.state) && !Unstarted(driver.state)
      ensures decision.Some? ==> decision.value in {Done, PriorFailure}
      ensures decision.None? ==> ready != {} && ready == set n | n in driver.state.nodes && Ready(program, driver.state, n)
    {
      ready := {};
      var incomplete, failed := Unfinished(driver.state);
      if incomplete == {} {
        return Some(Done), ready;
      }
      if failed != {} {
        return Some(PriorFailure), ready;
      }
      ghost var stuck :| stuck in incomplete;
      ready := CollectReady(stuck);
      if ready == {} {
        return Some(NoRunnableNodes), ready;
      }
      return None, ready;
    }

    /** The `while True` loop.  Every round completes at least one node or raises, so the rounds are
        at most the incomplete nodes, and the loop never meets an empty round; it reports a prior
        failure only when the checkpoint it started from had a failed or cancelled node. */
    method Schedule(ghost m: map<Id, Value>) returns (outcome: Outcome, rounds: nat)
      requires Valid(m) && driver.tasks == map[] && !driver.errored && Resting(driver.state)
      modifies this
      ensures Valid(m) && driver.tasks == map[]
      ensures outcome != NoRunnableNodes
      ensures outcome == PriorFailure <==> !Unstarted(old(driver.state))
      ensures outcome == Done ==> AllCompleted(driver.state)
      ensures rounds <= |program.nodes| - |old(driver.state.results)|
      ensures Includes(driver.state.results, old(driver.state.results))
      ensures |driver.state.results| >= |old(driver.state.results)| + rounds - (if outcome == Raised then 1 else 0)
    {
      rounds := 0;
      while true
        invariant Valid(m) && driver.tasks == map[] && !driver.errored
        invariant Resting(driver.state)
        invariant Includes(driver.state.results, old(driver.state.results))
        invariant Unstarted(old(driver.state)) <==> Unstarted(driver.state)
        invariant |driver.state.results| >= |old(driver.state.results)| + rounds
        decreases |program.nodes| - |driver.state.results|
      {
        SubsetSize(driver.state.results.Keys, program.nodes.Keys);
        var decision, ready := Inspect();
        if decision.Some? {
          return decision.value, rounds;
        }
        ghost var before := driver.state.results;
        Round(ready, m);
        rounds := rounds + 1;
        IncludesIsTransitive(old(driver.state.results), before, driver.state.results);
        if driver.errored {
          return Raised, rounds;
        }
      }
    }
  }
}
