/** What can be done with a run in any reachable state, what a run promises about tool calls, and exactly
    for whom it keeps it: consent depends on the decisions callers make, and completing every call once
    depends on the planner. */
module RunPromises {
  import opened RunLifecycle
  import opened Wrappers

  // ---------------------------------------------------------------------------------------------
  // Reachable states

  predicate DecidesWithin(step: Step, decisions: set<Decision>) {
    step.Act? && step.cause.Decide? ==> step.cause.decision in decisions
  }

  ghost predicate DecidesOnly(steps: seq<Step>, decisions: set<Decision>) {
    forall i :: 0 <= i < |steps| ==> DecidesWithin(steps[i], decisions)
  }

  /** Some execution whose callers make these decisions only ends in the state. */
  ghost predicate Reachable(sys: System, decisions: set<Decision>) {
    exists systems: seq<System>, steps: seq<Step> ::
      Execution(systems, steps) && DecidesOnly(steps, decisions) && systems[|steps|] == sys
  }

  lemma StartIsReachable(builtIn: bool, decisions: set<Decision>)
    ensures Reachable(Start(builtIn), decisions)
  {
    var systems, steps: seq<Step> := [Start(builtIn)], [];
    assert Execution(systems, steps) && DecidesOnly(steps, decisions) && systems[|steps|] == Start(builtIn);
  }

  lemma StepIsReachable(sys: System, step: Step, decisions: set<Decision>)
    requires Reachable(sys, decisions) && Enabled(sys, step) && DecidesWithin(step, decisions)
    ensures Reachable(Apply(sys, step), decisions)
  {
    var systems, steps :| Execution(systems, steps) && DecidesOnly(steps, decisions) && systems[|steps|] == sys;
    var systems', steps' := systems + [Apply(sys, step)], steps + [step];
    assert Execution(systems', steps') && DecidesOnly(steps', decisions);
    assert systems'[|steps'|] == Apply(sys, step);
  }

  lemma EveryStateIsReachable(systems: seq<System>, steps: seq<Step>, n: nat, decisions: set<Decision>)
    requires Execution(systems, steps) && DecidesOnly(steps, decisions) && n < |systems|
    ensures Reachable(systems[n], decisions)
  {
    var systems', steps' := systems[..n + 1], steps[..n];
    assert Execution(systems', steps') && DecidesOnly(steps', decisions) && systems'[|steps'|] == systems[n];
  }

  // ---------------------------------------------------------------------------------------------
  // What can be done with a run

  lemma {:induction false} AboveAll(actors: set<nat>) returns (bound: nat)
    ensures forall a :: a in actors ==> a < bound
  {
    if actors == {} {
      bound := 0;
    } else {
      var a :| a in actors;
      bound := AboveAll(actors - {a});
      bound := if a < bound then bound else a + 1;
      forall b | b in actors ensures b < bound {
        assert b != a ==> b in actors - {a};
      }
    }
  }

  /** Whatever others are doing, a new actor reads the stored run and takes any action it allows. */
  lemma NewActorActs(sys: System, cause: Cause, target: Status, decisions: set<Decision>) returns (later: System)
    requires Reachable(sys, decisions) && MayAct(sys.builtIn, Actor(sys.stored, None), cause, target)
    requires cause.Decide? ==> cause.decision in decisions
    ensures Reachable(later, decisions)
    ensures later.stored == After(Edited(Actor(sys.stored, None), cause), target)
    ensures later.log == sys.log + [Entry(sys.stored.status, later.stored, cause)]
  {
    var a := AboveAll(sys.actors.Keys);
    StepIsReachable(sys, Checkout(a), decisions);
    var loaded := Apply(sys, Checkout(a));
    StepIsReachable(loaded, Act(a, cause, target), decisions);
    later := Apply(loaded, Act(a, cause, target));
  }

  /** In every reachable state an unfinished run can be cancelled, its deadline can elapse unless it waits for
      somebody, and it can be picked up where an interruption leaves it, with its calls and approvals as they were. */
  lemma UnfinishedRunsCanBeStoppedOrPickedUp(sys: System, decisions: set<Decision>)
    returns (cancelled: System, elapsed: System, resumed: System)
    requires Reachable(sys, decisions) && !Terminal(sys.stored.status)
    ensures Reachable(cancelled, decisions) && cancelled.stored.status == Cancelled
    ensures Reachable(elapsed, decisions) && (!Paused(sys.stored.status) ==> elapsed.stored.status == TimedOut)
    ensures Reachable(resumed, decisions)
    ensures var s := sys.stored.status;
            resumed.stored == sys.stored.(
              version := sys.stored.version + 1,
              status := if s in {Received, Validating} then Received
                        else if s in {BuildingContext, AwaitingApproval, AwaitingClarification} then s else Planning)
  {
    cancelled := NewActorActs(sys, Move, Status.Cancelled, decisions);
    elapsed := sys;
    if !Paused(sys.stored.status) {
      elapsed := NewActorActs(sys, Elapse, TimedOut, decisions);
    }
    PickedUpWhere(sys.stored.status);
    resumed := NewActorActs(sys, Recover, RecoveryStatus(sys.stored.status), decisions);
  }

  /** A run that waits for an approval waits for one call, and any decision on that call can be taken: a rejection
      fails the run, and any other lets it plan on with the call approved. */
  lemma WaitingRunsCanBeDecided(sys: System, decision: Decision, decisions: set<Decision>) returns (later: System)
    requires Reachable(sys, decisions) && decision in decisions
    requires sys.stored.status == AwaitingApproval
    ensures sys.stored.pausedCall.Some? && Reachable(later, decisions)
    ensures if decision == RejectedByUser then later.stored.status == Failed
            else
              && later.stored.status == Planning && sys.stored.pausedCall.value in later.stored.approved
              && later.stored.pausedCall.None?
  {
    var systems, steps :| Execution(systems, steps) && DecidesOnly(steps, decisions) && systems[|steps|] == sys;
    ExecutionKeepsInv(systems, steps, |steps|);
    var call := sys.stored.pausedCall.value;
    var target := if decision == RejectedByUser then Failed else Planning;
    later := NewActorActs(sys, Decide(call, decision), target, decisions);
  }

  // ---------------------------------------------------------------------------------------------
  // One actor at a time

  /** The only actor holds the stored run. */
  function Solo(builtIn: bool, a: nat, actor: Actor, log: seq<Entry>): System {
    System(builtIn, actor.run, map[a := actor], log)
  }

  lemma SoloActs(
      builtIn: bool, a: nat, actor: Actor, log: seq<Entry>, cause: Cause, target: Status, decisions: set<Decision>)
    returns (next: Actor, log': seq<Entry>)
    requires Reachable(Solo(builtIn, a, actor, log), decisions) && MayAct(builtIn, actor, cause, target)
    requires cause.Decide? ==> cause.decision in decisions
    ensures next == SavedCopy(actor, cause, target) && log' == log + [Entry(actor.run.status, next.run, cause)]
    ensures Reachable(Solo(builtIn, a, next, log'), decisions)
  {
    var sys, step := Solo(builtIn, a, actor, log), Act(a, cause, target);
    StepIsReachable(sys, step, decisions);
    next, log' := SavedCopy(actor, cause, target), log + [Entry(actor.run.status, SavedCopy(actor, cause, target).run, cause)];
    assert sys.actors[a := next] == map[a := next];
    assert Apply(sys, step) == Solo(builtIn, a, next, log');
  }

  /** The actor leaves and another one reads the stored run. */
  lemma SoloHandsOver(builtIn: bool, a: nat, actor: Actor, log: seq<Entry>, b: nat, decisions: set<Decision>)
    requires Reachable(Solo(builtIn, a, actor, log), decisions)
    ensures Reachable(Solo(builtIn, b, Actor(actor.run, None), log), decisions)
  {
    var sys := Solo(builtIn, a, actor, log);
    StepIsReachable(sys, Drop(a), decisions);
    var empty := Apply(sys, Drop(a));
    assert empty.actors == map[];
    StepIsReachable(empty, Checkout(b), decisions);
    assert Apply(empty, Checkout(b)) == Solo(builtIn, b, Actor(actor.run, None), log);
  }

  /** Log entries that neither enter or finish a tool nor decide anything. */
  ghost predicate Uneventful(log: seq<Entry>) {
    forall i :: 0 <= i < |log| ==> !log[i].cause.EnterTool? && !log[i].cause.FinishTool? && !log[i].cause.Decide?
  }

  lemma CheckedOut(builtIn: bool, decisions: set<Decision>) returns (actor: Actor)
    ensures actor == Actor(Run(Received, 0, [], {}, {}, None), None)
    ensures Reachable(Solo(builtIn, 0, actor, []), decisions)
  {
    var start := Start(builtIn);
    StartIsReachable(builtIn, decisions);
    StepIsReachable(start, Checkout(0), decisions);
    actor := Actor(start.stored, None);
    assert Apply(start, Checkout(0)) == Solo(builtIn, 0, actor, []);
  }

  /** The driver reaches planning from the start, with nothing pending yet. */
  lemma Planned(builtIn: bool, decisions: set<Decision>) returns (actor: Actor, log: seq<Entry>)
    ensures Reachable(Solo(builtIn, 0, actor, log), decisions) && Uneventful(log)
    ensures actor == Actor(Run(Planning, 3, [], {}, {}, None), None)
  {
    actor := CheckedOut(builtIn, decisions);
    log := [];
    actor, log := SoloActs(builtIn, 0, actor, log, Move, Validating, decisions);
    actor, log := SoloActs(builtIn, 0, actor, log, Move, BuildingContext, decisions);
    actor, log := SoloActs(builtIn, 0, actor, log, Move, Planning, decisions);
  }

  /** The model asks for a tool call. */
  lemma CallRequested(decisions: set<Decision>) returns (actor: Actor, log: seq<Entry>)
    ensures Reachable(Solo(true, 0, actor, log), decisions) && Uneventful(log)
    ensures actor == Actor(Run(Planning, 5, ["call"], {}, {}, None), None)
  {
    actor, log := Planned(true, decisions);
    actor, log := SoloActs(true, 0, actor, log, Move, InvokingModel, decisions);
    var sys := Solo(true, 0, actor, log);
    StepIsReachable(sys, Think(0, ["call"]), decisions);
    var asked := Actor(actor.run.(pending := ["call"]), None);
    var thinking := Apply(sys, Think(0, ["call"]));
    assert thinking == System(true, actor.run, map[0 := asked], log);
    StepIsReachable(thinking, Act(0, Move, Planning), decisions);
    var saved := SavedCopy(asked, Move, Planning);
    assert thinking.actors[0 := saved] == map[0 := saved];
    assert Apply(thinking, Act(0, Move, Planning))
        == Solo(true, 0, saved, log + [Entry(InvokingModel, saved.run, Move)]);
    actor, log := saved, log + [Entry(InvokingModel, saved.run, Move)];
  }

  // ---------------------------------------------------------------------------------------------
  // Consent

  /** The decisions that let a call through by what they say. */
  predicate Consents(decision: Decision) {
    decision in {Approved, Modified}
  }

  /** A decision on a call that was not approved before lets the call through without saying so exactly
      when it is one of the two statuses that are no decision at all. */
  lemma ConsentWithoutApproval(actor: Actor, call: CallId, decision: Decision)
    requires call !in actor.run.approved
    ensures call in Edited(actor, Decide(call, decision)).approved && !Consents(decision)
            <==> decision in {Undecided, Expired}
  {
  }

  ghost predicate ConsentedBefore(log: seq<Entry>, i: nat, call: CallId)
    requires i <= |log|
  {
    exists j :: 0 <= j < i && log[j].cause.Decide? && log[j].cause.call == call && Consents(log[j].cause.decision)
  }

  /** Every call that needed approval entered the tool after it was approved or modified. */
  ghost predicate EntersWithConsent(log: seq<Entry>) {
    forall i :: 0 <= i < |log| && log[i].cause.EnterTool? && log[i].cause.needsApproval ==>
      ConsentedBefore(log, i, log[i].cause.call)
  }

  /** Callers that decide with these statuses only never have a call run without consent. */
  ghost predicate ConsentIsRespected(decisions: set<Decision>) {
    forall sys :: Reachable(sys, decisions) ==> EntersWithConsent(sys.log)
  }

  ghost predicate LogDecidesOnly(log: seq<Entry>, decisions: set<Decision>) {
    forall i :: 0 <= i < |log| && log[i].cause.Decide? ==> log[i].cause.decision in decisions
  }

  lemma {:induction false} LogFollowsSteps(systems: seq<System>, steps: seq<Step>, decisions: set<Decision>, n: nat)
    requires Execution(systems, steps) && DecidesOnly(steps, decisions) && n < |systems|
    ensures LogDecidesOnly(systems[n].log, decisions)
  {
    if n == 0 {
    } else {
      LogFollowsSteps(systems, steps, decisions, n - 1);
      assert DecidesWithin(steps[n - 1], decisions);
    }
  }

  lemma DecisionsLeadToConsent(sys: System, decisions: set<Decision>)
    requires Reachable(sys, decisions) && Undecided !in decisions && Expired !in decisions
    ensures EntersWithConsent(sys.log)
  {
    var systems, steps :| Execution(systems, steps) && DecidesOnly(steps, decisions) && systems[|steps|] == sys;
    LogFollowsSteps(systems, steps, decisions, |steps|);
    ExecutionKeepsInv(systems, steps, |steps|);
    forall i | 0 <= i < |sys.log| && sys.log[i].cause.EnterTool? && sys.log[i].cause.needsApproval
      ensures ConsentedBefore(sys.log, i, sys.log[i].cause.call)
    {
      assert LogEntryOk(sys.builtIn, sys.log, i);
      var j :| 0 <= j < i && Grants(sys.log[j].cause, sys.log[i].cause.call);
      assert sys.log[j].cause.decision in decisions;
    }
  }

  lemma ConsentOfTheOnlyDecision(log: seq<Entry>, decided: Entry, entered: Entry, decision: Decision)
    requires Uneventful(log) && decided.cause == Decide("call", decision) && entered.cause == EnterTool("call", true)
    ensures EntersWithConsent(log + [decided] + [entered]) <==> Consents(decision)
  {
    var all, n := log + [decided] + [entered], |log|;
    assert all[n] == decided && all[n + 1] == entered && forall i :: 0 <= i < n ==> all[i] == log[i];
    if Consents(decision) {
      assert ConsentedBefore(all, n + 1, "call");
    }
  }

  /** With any status but rejected there is a run, with a built-in planner, in which the call enters the
      tool with that decision as its only one; so a pending or expired one runs it without consent. */
  lemma AnyStatusButRejectedRunsTheTool(decision: Decision) returns (sys: System)
    requires decision != RejectedByUser
    ensures Reachable(sys, {decision}) && sys.builtIn && sys.stored.status == InvokingTool
    ensures EntersWithConsent(sys.log) <==> Consents(decision)
  {
    var actor, log := CallRequested({decision});
    actor, log := SoloActs(true, 0, actor, log, AskApproval("call"), AwaitingApproval, {decision});
    SoloHandsOver(true, 0, actor, log, 1, {decision});
    var quiet, decided, entered := log, Decide("call", decision), EnterTool("call", true);
    actor, log := SoloActs(true, 1, Actor(actor.run, None), log, decided, Planning, {decision});
    SoloHandsOver(true, 1, actor, log, 2, {decision});
    actor, log := SoloActs(true, 2, Actor(actor.run, None), log, entered, InvokingTool, {decision});
    ConsentOfTheOnlyDecision(quiet, log[|quiet|], log[|quiet| + 1], decision);
    assert log == quiet + [log[|quiet|]] + [log[|quiet| + 1]];
    sys := Solo(true, 2, actor, log);
  }

  lemma MoreDecisionsReachMore(sys: System, fewer: set<Decision>, more: set<Decision>)
    requires Reachable(sys, fewer) && fewer <= more
    ensures Reachable(sys, more)
  {
    var systems, steps :| Execution(systems, steps) && DecidesOnly(steps, fewer) && systems[|steps|] == sys;
    assert forall i :: 0 <= i < |steps| ==> DecidesWithin(steps[i], fewer) && DecidesWithin(steps[i], more);
  }

  /** Consent is respected exactly for callers who never decide with a pending or expired status. */
  lemma ConsentIsRespectedIff(decisions: set<Decision>)
    ensures ConsentIsRespected(decisions) <==> Undecided !in decisions && Expired !in decisions
  {
    if decision :| decision in decisions && decision in {Undecided, Expired} {
      var sys := AnyStatusButRejectedRunsTheTool(decision);
      MoreDecisionsReachMore(sys, {decision}, decisions);
    } else {
      forall sys | Reachable(sys, decisions) ensures EntersWithConsent(sys.log) {
        DecisionsLeadToConsent(sys, decisions);
      }
    }
  }

  /** Callers who keep to the three decisions the error text names: a call that needs approval enters the
      tool only after it was approved or modified. */
  lemma ToolsRunOnlyAfterConsent(systems: seq<System>, steps: seq<Step>, n: nat, i: nat)
    requires Execution(systems, steps) && DecidesOnly(steps, {Approved, RejectedByUser, Modified})
    requires n < |systems| && i < |systems[n].log|
    requires systems[n].log[i].cause.EnterTool? && systems[n].log[i].cause.needsApproval
    ensures ConsentedBefore(systems[n].log, i, systems[n].log[i].cause.call)
  {
    EveryStateIsReachable(systems, steps, n, {Approved, RejectedByUser, Modified});
    DecisionsLeadToConsent(systems[n], {Approved, RejectedByUser, Modified});
  }

  // ---------------------------------------------------------------------------------------------
  // Completing every call once

  ghost predicate CompletesOnce(log: seq<Entry>) {
    forall i, j :: 0 <= i < j < |log| && log[i].cause.FinishTool? && log[j].cause.FinishTool? ==>
      log[i].cause.call != log[j].cause.call
  }

  const EVERY_DECISION := {Undecided, Approved, RejectedByUser, Modified, Expired}

  /** Agents with such a planner never complete a call twice. */
  ghost predicate CallsCompleteOnce(builtIn: bool) {
    forall sys :: Reachable(sys, EVERY_DECISION) && sys.builtIn == builtIn ==> CompletesOnce(sys.log)
  }

  lemma BuiltInCompletesOnce(sys: System)
    requires Reachable(sys, EVERY_DECISION) && sys.builtIn
    ensures CompletesOnce(sys.log)
  {
    var systems, steps :| Execution(systems, steps) && DecidesOnly(steps, EVERY_DECISION) && systems[|steps|] == sys;
    ExecutionKeepsInv(systems, steps, |steps|);
    forall i, j | 0 <= i < j < |sys.log| && sys.log[i].cause.FinishTool? && sys.log[j].cause.FinishTool?
      ensures sys.log[i].cause.call != sys.log[j].cause.call
    {
      NoCallCompletesTwice(systems, steps, |steps|, i, j);
    }
  }

  /** A planner of an agent's own may plan the same call again after it was completed. */
  lemma OwnPlannerRepeatsACall() returns (sys: System)
    ensures Reachable(sys, EVERY_DECISION) && !sys.builtIn && !CompletesOnce(sys.log)
  {
    var actor, log := Planned(false, EVERY_DECISION);
    actor, log := SoloActs(false, 0, actor, log, EnterTool("call", false), InvokingTool, EVERY_DECISION);
    actor, log := SoloActs(false, 0, actor, log, FinishTool("call"), BuildingContext, EVERY_DECISION);
    var first := |log| - 1;
    assert log[first].cause == FinishTool("call");
    actor, log := SoloActs(false, 0, actor, log, Move, Planning, EVERY_DECISION);
    actor, log := SoloActs(false, 0, actor, log, EnterTool("call", false), InvokingTool, EVERY_DECISION);
    actor, log := SoloActs(false, 0, actor, log, FinishTool("call"), BuildingContext, EVERY_DECISION);
    assert log[first].cause == FinishTool("call") && log[|log| - 1].cause == FinishTool("call");
    sys := Solo(false, 0, actor, log);
  }

  /** Every call completes once exactly with the built-in planners: the driver executes whatever call a
      planner of the agent's own plans. */
  lemma CallsCompleteOnceIffBuiltIn(builtIn: bool)
    ensures CallsCompleteOnce(builtIn) <==> builtIn
  {
    if builtIn {
      forall sys | Reachable(sys, EVERY_DECISION) && sys.builtIn ensures CompletesOnce(sys.log) {
        BuiltInCompletesOnce(sys);
      }
    } else {
      var sys := OwnPlannerRepeatsACall();
    }
  }
}
