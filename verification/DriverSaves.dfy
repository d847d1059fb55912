/** The saves of one driver, and why they are steps of the life of its run. */
module DriverSaves {
  import opened RunLifecycle
  import opened RunPromises
  import opened Wrappers

  /** A save: the copy the last save left, the pending calls the driver has edited since, and what the save
      is for. */
  datatype Save = Save(copy: Actor, pending: seq<CallId>, cause: Cause, target: Status)

  /** The copy that is about to be saved, before the edits that come with the cause. */
  function Before(save: Save): Actor {
    save.copy.(run := save.copy.run.(pending := save.pending))
  }

  function CopyAfter(save: Save): Actor {
    SavedCopy(Before(save), save.cause, save.target)
  }

  /** A driver takes the actions of the table, and leaves decisions and recoveries to others. */
  predicate DriverMay(builtIn: bool, save: Save) {
    && MayAct(builtIn, Before(save), save.cause, save.target)
    && save.target in Allowed(save.copy.run.status)
    && !save.cause.Decide? && !save.cause.Recover? && !save.cause.Elapse?
  }

  /** The save was made from the copy the one before it left, and left the copy of the next one. */
  ghost predicate SaveOk(builtIn: bool, loaded: Actor, saves: seq<Save>, copy: Actor, i: nat)
    requires i < |saves|
  {
    && DriverMay(builtIn, saves[i])
    && (i == 0 ==> saves[i].copy == loaded)
    && CopyAfter(saves[i]) == if i + 1 < |saves| then saves[i + 1].copy else copy
  }

  /** The driver loaded one copy and holds the other after these saves. */
  ghost predicate Chain(builtIn: bool, loaded: Actor, saves: seq<Save>, copy: Actor) {
    && (saves == [] ==> copy == loaded)
    && forall i :: 0 <= i < |saves| ==> SaveOk(builtIn, loaded, saves, copy, i)
  }

  lemma ChainGrows(builtIn: bool, loaded: Actor, saves: seq<Save>, save: Save)
    requires Chain(builtIn, loaded, saves, save.copy) && DriverMay(builtIn, save)
    ensures Chain(builtIn, loaded, saves + [save], CopyAfter(save))
  {
    var longer := saves + [save];
    forall i | 0 <= i < |longer| ensures SaveOk(builtIn, loaded, longer, CopyAfter(save), i) {
      if i < |saves| {
        assert SaveOk(builtIn, loaded, saves, save.copy, i);
        assert longer[i] == saves[i];
      } else {
        assert longer[i] == save;
      }
    }
  }

  lemma ChainShrinks(builtIn: bool, loaded: Actor, saves: seq<Save>, copy: Actor, n: nat)
    requires Chain(builtIn, loaded, saves, copy) && |saves| == n + 1
    ensures Chain(builtIn, loaded, saves[..n], saves[n].copy)
    ensures DriverMay(builtIn, saves[n]) && CopyAfter(saves[n]) == copy
  {
    assert SaveOk(builtIn, loaded, saves, copy, n);
    forall i | 0 <= i < n ensures SaveOk(builtIn, loaded, saves[..n], saves[n].copy, i) {
      assert SaveOk(builtIn, loaded, saves, copy, i);
    }
  }

  // ---------------------------------------------------------------------------------------------
  // Saves are steps

  /** Actor `a` holds this copy, at the stored version. */
  predicate Holds(sys: System, a: nat, copy: Actor) {
    a in sys.actors && sys.actors[a] == copy && copy.run.version == sys.stored.version
  }

  lemma SaveIsTwoSteps(sys: System, a: nat, save: Save, decisions: set<Decision>) returns (next: System)
    requires Reachable(sys, decisions) && Holds(sys, a, save.copy) && DriverMay(sys.builtIn, save)
    ensures Reachable(next, decisions) && next.builtIn == sys.builtIn
    ensures Holds(next, a, CopyAfter(save)) && next.stored == CopyAfter(save).run
    ensures next.log == sys.log + [Entry(sys.stored.status, CopyAfter(save).run, save.cause)]
  {
    var think, act := Think(a, save.pending), Act(a, save.cause, save.target);
    StepIsReachable(sys, think, decisions);
    var thought := Apply(sys, think);
    assert thought.actors[a] == Before(save);
    StepIsReachable(thought, act, decisions);
    next := Apply(thought, act);
  }

  predicate Records(entry: Entry, save: Save) {
    entry.cause == save.cause && entry.run == CopyAfter(save).run
  }

  /** The log got exactly these saves, in order. */
  ghost predicate Logged(log: seq<Entry>, longer: seq<Entry>, saves: seq<Save>) {
    && |longer| == |log| + |saves| && log <= longer
    && forall i :: 0 <= i < |saves| ==> Records(longer[|log| + i], saves[i])
  }

  lemma LogGrows(log: seq<Entry>, longer: seq<Entry>, saves: seq<Save>, n: nat, entry: Entry)
    requires |saves| == n + 1 && Logged(log, longer, saves[..n]) && Records(entry, saves[n])
    ensures Logged(log, longer + [entry], saves)
  {
    forall i | 0 <= i <= n ensures Records((longer + [entry])[|log| + i], saves[i]) {
      assert i < n ==> Records(longer[|log| + i], saves[..n][i]);
    }
  }

  /** Wherever the run was checked out, with whatever other actors about, the saves of a driver are steps of
      the life of the run: what holds of every execution of the state machine holds of the driver. */
  lemma {:induction false} SavesAreSteps(
      sys: System, a: nat, loaded: Actor, saves: seq<Save>, copy: Actor, decisions: set<Decision>)
    returns (next: System)
    requires Reachable(sys, decisions) && Holds(sys, a, loaded) && Chain(sys.builtIn, loaded, saves, copy)
    ensures Reachable(next, decisions) && next.builtIn == sys.builtIn
    ensures Holds(next, a, copy) && Logged(sys.log, next.log, saves)
    decreases |saves|
  {
    if saves == [] {
      next := sys;
    } else {
      var n := |saves| - 1;
      ChainShrinks(sys.builtIn, loaded, saves, copy, n);
      var before := SavesAreSteps(sys, a, loaded, saves[..n], saves[n].copy, decisions);
      next := SaveIsTwoSteps(before, a, saves[n], decisions);
      LogGrows(sys.log, before.log, saves, n, next.log[|before.log|]);
    }
  }
}
