/** The life of one agent run: the transition table, the versioned run store, and every
    interleaving of the driver, cancel, resume, shutdown and recover over copies of the run. */
module RunLifecycle {
  import opened Wrappers

  datatype Status =
    | Received | Validating | BuildingContext | Planning | AwaitingClarification | AwaitingApproval
    | InvokingModel | InvokingTool | Verifying | Retrying | Composing
    | Completed | Failed | Cancelled | TimedOut

  /** The allowed targets of each status. */
  function Allowed(s: Status): set<Status> {
    match s
    case Received => {Validating, Cancelled}
    case Validating => {BuildingContext, Failed, Cancelled}
    case BuildingContext => {Planning, Retrying, Failed, Cancelled}
    case Planning => {InvokingModel, InvokingTool, AwaitingClarification, AwaitingApproval, Verifying,
                      Composing, Retrying, Failed, Cancelled}
    case AwaitingClarification => {BuildingContext, Cancelled, TimedOut}
    case AwaitingApproval => {Planning, Cancelled, Failed, TimedOut}
    case InvokingModel => {Planning, Verifying, Retrying, Failed, Cancelled, TimedOut}
    case InvokingTool => {BuildingContext, Planning, Retrying, Failed, Cancelled, TimedOut}
    case Verifying => {Composing, Retrying, Failed, Cancelled}
    case Retrying => {BuildingContext, Planning, InvokingModel, InvokingTool, Failed, Cancelled, TimedOut}
    case Composing => {Completed, Failed, Cancelled}
    case Completed => {}
    case Failed => {}
    case Cancelled => {}
    case TimedOut => {}
  }

  predicate Terminal(s: Status) {
    s in {Completed, Failed, Cancelled, TimedOut}
  }

  predicate Paused(s: Status) {
    s in {AwaitingApproval, AwaitingClarification}
  }

  /** Where a run interrupted in `s` is picked up again. */
  function RecoveryStatus(s: Status): Status {
    if s == Validating then Received
    else if s in {InvokingModel, InvokingTool, Verifying, Retrying, Composing} then Planning
    else s
  }

  /** The saves that bypass the table: pick-up after an interruption, and a deadline that elapsed
      while no process was driving the run. */
  predicate RecoveryJump(s: Status, t: Status) {
    && !Terminal(s)
    && (t == RecoveryStatus(s) || (t == TimedOut && !Paused(s)))
  }

  /** The table alone decides which error handlers of the driver can record their outcome. */
  lemma OutcomesTheTableAccepts(s: Status)
    ensures Failed in Allowed(s) <==> !Terminal(s) && s !in {Received, AwaitingClarification}
    ensures Cancelled in Allowed(s) <==> !Terminal(s)
    ensures TimedOut in Allowed(s) <==> Paused(s) || s in {InvokingModel, InvokingTool, Retrying}
    ensures Allowed(s) == {} <==> Terminal(s)
  {
  }

  /** What leads to each status in the table. */
  lemma WhereStatusesComeFrom(s: Status)
    ensures Received !in Allowed(s)
    ensures Validating in Allowed(s) <==> s == Received
    ensures BuildingContext in Allowed(s) <==> s in {Validating, AwaitingClarification, InvokingTool, Retrying}
    ensures Planning in Allowed(s) <==> s in {BuildingContext, AwaitingApproval, InvokingModel, InvokingTool, Retrying}
    ensures AwaitingClarification in Allowed(s) <==> s == Planning
    ensures AwaitingApproval in Allowed(s) <==> s == Planning
    ensures InvokingModel in Allowed(s) <==> s in {Planning, Retrying}
    ensures InvokingTool in Allowed(s) <==> s in {Planning, Retrying}
    ensures Verifying in Allowed(s) <==> s in {Planning, InvokingModel}
    ensures Retrying in Allowed(s) <==> s in {BuildingContext, Planning, InvokingModel, InvokingTool, Verifying}
    ensures Composing in Allowed(s) <==> s in {Planning, Verifying}
    ensures Completed in Allowed(s) <==> s == Composing
  {
  }

  /** Where an unfinished run is picked up: before its input is validated if it had not been, waiting as it was,
      or back at building its context or planning. */
  lemma PickedUpWhere(s: Status)
    requires !Terminal(s)
    ensures RecoveryStatus(s) == Received <==> s in {Received, Validating}
    ensures RecoveryStatus(s) == BuildingContext <==> s == BuildingContext
    ensures RecoveryStatus(s) == Planning <==>
            s in {Planning, InvokingModel, InvokingTool, Verifying, Retrying, Composing}
    ensures Paused(s) ==> RecoveryStatus(s) == s
    ensures !Paused(s) ==> RecoveryStatus(s) in {Received, BuildingContext, Planning}
  {
  }

  // ---------------------------------------------------------------------------------------------
  // The store

  type CallId = string

  datatype Run = Run(
    status: Status, version: nat, pending: seq<CallId>,
    completed: set<CallId>, approved: set<CallId>, pausedCall: Option<CallId>)

  datatype Record = Record(tenant: string, run: Run)

  datatype Outcome = Saved | Rejected | Conflict

  function After(copy: Run, target: Status): Run {
    copy.(status := target, version := copy.version + 1)
  }

  class InMemoryRunStore {
    var runs: map<string, Record>

    constructor ()
      ensures runs == map[]
    {
      runs := map[];
    }

    /** False stands for the conflict error. */
    method Create(id: string, tenant: string, run: Run) returns (ok: bool)
      modifies this
      ensures ok == (id !in old(runs))
      ensures runs == if ok then old(runs)[id := Record(tenant, run)] else old(runs)
    {
      ok := id !in runs;
      if ok {
        runs := runs[id := Record(tenant, run)];
      }
    }

    method Get(id: string, tenant: string) returns (run: Option<Run>)
      ensures run == if id in runs && runs[id].tenant == tenant then Some(runs[id].run) else None
    {
      if id !in runs || runs[id].tenant != tenant {
        return None;
      }
      return Some(runs[id].run);
    }

    method Save(id: string, run: Run, expected: nat) returns (ok: bool, saved: Run)
      modifies this
      ensures ok == (id in old(runs) && old(runs)[id].run.version == expected)
      ensures saved == if ok then run.(version := expected + 1) else run
      ensures runs == if ok then old(runs)[id := Record(old(runs)[id].tenant, saved)] else old(runs)
    {
      ok, saved := id in runs && runs[id].run.version == expected, run;
      if ok {
        saved := run.(version := expected + 1);
        runs := runs[id := Record(runs[id].tenant, saved)];
      }
    }

    /** `_transition`: validate against the caller's copy, then save at the copy's version.  On a
        conflict the copy is left with the new status but the old version. */
    method Transition(id: string, copy: Run, target: Status) returns (outcome: Outcome, copy': Run)
      modifies this
      ensures outcome == Rejected <==> target !in Allowed(copy.status)
      ensures outcome == Saved <==>
                target in Allowed(copy.status) && id in old(runs) && old(runs)[id].run.version == copy.version
      ensures outcome == Saved ==> copy' == copy.(status := target, version := copy.version + 1)
      ensures outcome == Rejected ==> copy' == copy
      ensures outcome == Conflict ==> copy' == copy.(status := target)
      ensures runs == if outcome == Saved then old(runs)[id := old(runs)[id].(run := After(copy, target))] else old(runs)
    {
      if target !in Allowed(copy.status) {
        return Rejected, copy;
      }
      var ok;
      ok, copy' := Save(id, copy.(status := target), copy.version);
      return if ok then Saved else Conflict, copy';
    }
  }

  // ---------------------------------------------------------------------------------------------
  // Approvals

  /** The approval statuses; a resume takes any of them for a decision. */
  datatype Decision = Undecided | Approved | RejectedByUser | Modified | Expired

  datatype Approval = Approval(tenant: string, status: Decision, expiresAt: int)

  class InMemoryApprovalService {
    var requests: map<string, Approval>

    constructor ()
      ensures requests == map[]
    {
      requests := map[];
    }

    predicate Open(id: string, tenant: string)
      reads this
    {
      id in requests && requests[id].tenant == tenant && requests[id].status == Undecided
    }

    /** Takes one decision on an open request in time, whatever status it is; nothing stands for an
        error. A decision that is the status of an open request leaves the request open. */
    method Decide(id: string, tenant: string, decision: Decision, hasParameters: bool, now: int)
      returns (status: Option<Decision>)
      modifies this
      ensures status.Some? <==>
                old(Open(id, tenant)) && now < old(requests)[id].expiresAt && (decision == Modified ==> hasParameters)
      ensures status.Some? ==>
                status.value == decision && requests == old(requests)[id := old(requests)[id].(status := decision)]
      ensures status.None? ==>
                requests == if old(Open(id, tenant)) && old(requests)[id].expiresAt <= now
                            then old(requests)[id := old(requests)[id].(status := Expired)] else old(requests)
      ensures old(Open(id, tenant)) && status.Some? ==> (Open(id, tenant) <==> decision == Undecided)
    {
      if id !in requests || requests[id].tenant != tenant {
        return None;
      }
      if requests[id].status != Undecided {
        return None;
      }
      if requests[id].expiresAt <= now {
        requests := requests[id := requests[id].(status := Expired)];
        return None;
      }
      if decision == Modified && !hasParameters {
        return None;
      }
      requests := requests[id := requests[id].(status := decision)];
      return Some(decision);
    }
  }

  // ---------------------------------------------------------------------------------------------
  // Actors over copies

  /** An actor works on its own copy; a driver also remembers the tool call it is executing. */
  datatype Actor = Actor(run: Run, tool: Option<CallId>)

  /** What a save was for. */
  datatype Cause =
    | Move                              // a plain transition of the table
    | EnterTool(call: CallId, needsApproval: bool)
    | FinishTool(call: CallId)
    | AskApproval(call: CallId)
    | Decide(call: CallId, decision: Decision)
    | Recover                           // recover() or the shutdown handler
    | Elapse                            // recover() past the deadline

  datatype Entry = Entry(from: Status, run: Run, cause: Cause)

  /** The stored run, the copies of every actor, and the saves so far. `builtIn` tells that the agent
      uses one of the runtime's own planners, which plan pending and uncompleted tool calls only. */
  datatype System = System(builtIn: bool, stored: Run, actors: map<nat, Actor>, log: seq<Entry>)

  datatype Step =
    | Checkout(a: nat)                                    // read a fresh copy
    | Think(a: nat, pending: seq<CallId>)                 // unsaved edits by the driver
    | Act(a: nat, cause: Cause, target: Status)           // edit, validate and save
    | Drop(a: nat)                                        // return, raise, or crash

  function Start(builtIn: bool): System {
    System(builtIn, Run(Received, 0, [], {}, {}, None), map[], [])
  }

  /** The edit a given action makes to the copy before saving it. */
  function Edited(actor: Actor, cause: Cause): Run {
    var run := actor.run;
    match cause
    case FinishTool(call) =>
      run.(completed := run.completed + {call}, pending := Without(run.pending, call))
    case AskApproval(call) => run.(pausedCall := Some(call))
    case Decide(call, decision) =>
      if decision == RejectedByUser then run
      else run.(approved := run.approved + {call}, pausedCall := None)
    case _ => run
  }

  /** The copy after its save. */
  function SavedCopy(actor: Actor, cause: Cause, target: Status): Actor {
    Actor(After(Edited(actor, cause), target), if cause.EnterTool? then Some(cause.call) else None)
  }

  /** What the built-in planners check of a tool call; the driver itself checks neither. */
  predicate Plannable(run: Run, call: CallId) {
    call in run.pending && call !in run.completed
  }

  /** Which actions the code takes from which copies, and where they lead. */
  predicate MayAct(builtIn: bool, actor: Actor, cause: Cause, target: Status) {
    var run := actor.run;
    match cause
    case Move =>
      && target in Allowed(run.status) && target !in {InvokingTool, AwaitingApproval}
      && (run.status == AwaitingApproval ==> target !in {Planning})
      && (run.status == InvokingTool ==> target != BuildingContext)
    case EnterTool(call, needs) =>
      && run.status == Planning && target == InvokingTool
      && (builtIn ==> Plannable(run, call)) && (needs ==> call in run.approved)
    case FinishTool(call) =>
      run.status == InvokingTool && actor.tool == Some(call) && target == BuildingContext
    case AskApproval(call) =>
      && run.status == Planning && target == AwaitingApproval
      && (builtIn ==> Plannable(run, call)) && call !in run.approved
    case Decide(call, decision) =>
      && run.status == AwaitingApproval && run.pausedCall == Some(call)
      && target == if decision == RejectedByUser then Failed else Planning
    case Recover => !Terminal(run.status) && target == RecoveryStatus(run.status)
    case Elapse => !Terminal(run.status) && !Paused(run.status) && target == TimedOut
  }

  predicate Enabled(sys: System, step: Step) {
    match step
    case Checkout(a) => a !in sys.actors
    case Think(a, _) => a in sys.actors
    case Act(a, cause, target) => a in sys.actors && MayAct(sys.builtIn, sys.actors[a], cause, target)
    case Drop(a) => a in sys.actors
  }

  /** A save succeeds only at the stored version; an actor whose save conflicts raises and is gone. */
  function Apply(sys: System, step: Step): System
    requires Enabled(sys, step)
  {
    match step
    case Checkout(a) => sys.(actors := sys.actors[a := Actor(sys.stored, None)])
    case Think(a, pending) =>
      sys.(actors := sys.actors[a := sys.actors[a].(run := sys.actors[a].run.(pending := pending))])
    case Act(a, cause, target) =>
      var actor := sys.actors[a];
      if actor.run.version == sys.stored.version then
        var next := SavedCopy(actor, cause, target);
        System(sys.builtIn, next.run, sys.actors[a := next], sys.log + [Entry(sys.stored.status, next.run, cause)])
      else
        sys.(actors := sys.actors - {a})
    case Drop(a) => sys.(actors := sys.actors - {a})
  }

  // ---------------------------------------------------------------------------------------------
  // The invariant

  /** A copy at the stored version is the stored run, up to unsaved edits of `pending`. */
  ghost predicate Fresh(builtIn: bool, stored: Run, actor: Actor) {
    && actor.run.version <= stored.version
    && (actor.run.version == stored.version ==> actor.run.(pending := stored.pending) == stored)
    && (actor.tool.Some? ==>
          actor.run.status == InvokingTool && (builtIn ==> actor.tool.value !in actor.run.completed))
  }

  predicate Grants(cause: Cause, call: CallId) {
    cause.Decide? && cause.call == call && cause.decision != RejectedByUser
  }

  /** The sets carried by the run record exactly what the log did to them. */
  ghost predicate Accounts(run: Run, log: seq<Entry>) {
    && (forall c :: c in run.completed <==> exists i :: 0 <= i < |log| && log[i].cause == FinishTool(c))
    && (forall c :: c in run.approved <==> exists i :: 0 <= i < |log| && Grants(log[i].cause, c))
  }

  ghost predicate LogEntryOk(builtIn: bool, log: seq<Entry>, i: nat)
    requires i < |log|
  {
    && log[i].run.version == i + 1
    && log[i].from == (if i == 0 then Received else log[i - 1].run.status)
    && !Terminal(log[i].from)
    && (log[i].run.status in Allowed(log[i].from) || RecoveryJump(log[i].from, log[i].run.status))
    && (log[i].cause.EnterTool? <==> log[i].run.status == InvokingTool)
    && (log[i].cause.EnterTool? && log[i].cause.needsApproval ==>
          exists j :: 0 <= j < i && Grants(log[j].cause, log[i].cause.call))
    && (builtIn && log[i].cause.FinishTool? ==> forall j :: 0 <= j < i ==> log[j].cause != log[i].cause)
    && (log[i].cause.Decide? && log[i].cause.decision == RejectedByUser ==> log[i].run.status == Failed)
  }

  ghost predicate Inv(sys: System) {
    && sys.stored.version == |sys.log|
    && sys.stored.status == (if sys.log == [] then Received else sys.log[|sys.log| - 1].run.status)
    && (forall a :: a in sys.actors ==> Fresh(sys.builtIn, sys.stored, sys.actors[a]))
    && (sys.stored.status == AwaitingApproval ==> sys.stored.pausedCall.Some?)
    && Accounts(sys.stored, sys.log)
    && (forall i :: 0 <= i < |sys.log| ==> LogEntryOk(sys.builtIn, sys.log, i))
  }

  lemma EntriesPersist(builtIn: bool, log: seq<Entry>, e: Entry)
    requires forall i :: 0 <= i < |log| ==> LogEntryOk(builtIn, log, i)
    ensures forall i :: 0 <= i < |log| ==> LogEntryOk(builtIn, log + [e], i)
  {
    var log' := log + [e];
    forall i | 0 <= i < |log| ensures LogEntryOk(builtIn, log', i) {
      assert LogEntryOk(builtIn, log, i);
      if log[i].cause.EnterTool? && log[i].cause.needsApproval {
        var j :| 0 <= j < i && Grants(log[j].cause, log[i].cause.call);
        assert Grants(log'[j].cause, log'[i].cause.call);
      }
    }
  }

  lemma NewEntryIsOk(sys: System, actor: Actor, cause: Cause, target: Status)
    requires Inv(sys) && Fresh(sys.builtIn, sys.stored, actor) && actor.run.version == sys.stored.version
    requires MayAct(sys.builtIn, actor, cause, target)
    ensures var saved := After(Edited(actor, cause), target);
            LogEntryOk(sys.builtIn, sys.log + [Entry(sys.stored.status, saved, cause)], |sys.log|)
  {
    var n := |sys.log|;
    var log' := sys.log + [Entry(sys.stored.status, After(Edited(actor, cause), target), cause)];
    if cause.EnterTool? && cause.needsApproval {
      var j :| 0 <= j < n && Grants(sys.log[j].cause, cause.call);
      assert Grants(log'[j].cause, cause.call);
    }
  }

  lemma AccountsAfter(sys: System, actor: Actor, cause: Cause, target: Status)
    requires Inv(sys) && Fresh(sys.builtIn, sys.stored, actor) && actor.run.version == sys.stored.version
    requires MayAct(sys.builtIn, actor, cause, target)
    ensures var saved := After(Edited(actor, cause), target);
            Accounts(saved, sys.log + [Entry(sys.stored.status, saved, cause)])
  {
    var n := |sys.log|;
    var saved := After(Edited(actor, cause), target);
    var log' := sys.log + [Entry(sys.stored.status, saved, cause)];
    assert log'[n].cause == cause;
    forall c
      ensures c in saved.completed <==> exists i :: 0 <= i <= n && log'[i].cause == FinishTool(c)
      ensures c in saved.approved <==> exists i :: 0 <= i <= n && Grants(log'[i].cause, c)
    {
      if i :| 0 <= i < n && sys.log[i].cause == FinishTool(c) {
        assert log'[i].cause == FinishTool(c);
      }
      if i :| 0 <= i < n && Grants(sys.log[i].cause, c) {
        assert Grants(log'[i].cause, c);
      }
      if i :| 0 <= i <= n && log'[i].cause == FinishTool(c) {
        assert i < n ==> sys.log[i].cause == FinishTool(c);
      }
      if i :| 0 <= i <= n && Grants(log'[i].cause, c) {
        assert i < n ==> Grants(sys.log[i].cause, c);
      }
    }
  }

  lemma StepKeepsInv(sys: System, step: Step)
    requires Inv(sys) && Enabled(sys, step)
    ensures Inv(Apply(sys, step))
    ensures sys.log <= Apply(sys, step).log
  {
    if step.Act? {
      var actor := sys.actors[step.a];
      if actor.run.version == sys.stored.version {
        NewEntryIsOk(sys, actor, step.cause, step.target);
        AccountsAfter(sys, actor, step.cause, step.target);
        EntriesPersist(sys.builtIn, sys.log, Entry(sys.stored.status, After(Edited(actor, step.cause), step.target), step.cause));
      }
    }
  }

  // ---------------------------------------------------------------------------------------------
  // Whole executions

  ghost predicate Execution(systems: seq<System>, steps: seq<Step>) {
    && |systems| == |steps| + 1
    && systems[0] == Start(systems[0].builtIn)
    && forall i :: 0 <= i < |steps| ==> Enabled(systems[i], steps[i]) && systems[i + 1] == Apply(systems[i], steps[i])
  }

  lemma {:induction false} ExecutionKeepsInv(systems: seq<System>, steps: seq<Step>, i: nat)
    requires Execution(systems, steps) && i < |systems|
    ensures Inv(systems[i]) && systems[i].builtIn == systems[0].builtIn
  {
    if i == 0 {
    } else {
      ExecutionKeepsInv(systems, steps, i - 1);
      StepKeepsInv(systems[i - 1], steps[i - 1]);
    }
  }

  /** The statuses the store went through, in the order of the saves. */
  ghost function StoredStatus(log: seq<Entry>, i: nat): Status
    requires i <= |log|
  {
    if i == 0 then Received else log[i - 1].run.status
  }

  /** Every successful save adds one to the version, follows the table or a recovery jump, and
      never leaves a terminal status: a terminal status can only be the last one stored. */
  lemma {:induction false} SavesFormALifecycle(systems: seq<System>, steps: seq<Step>, n: nat)
    requires Execution(systems, steps) && n < |systems|
    ensures var sys := systems[n];
            && sys.stored.version == |sys.log|
            && sys.stored.status == StoredStatus(sys.log, |sys.log|)
            && (forall i :: 0 <= i < |sys.log| ==> sys.log[i].run.version == i + 1)
            && (forall i :: 0 <= i < |sys.log| ==>
                  && !Terminal(StoredStatus(sys.log, i))
                  && (|| StoredStatus(sys.log, i + 1) in Allowed(StoredStatus(sys.log, i))
                      || RecoveryJump(StoredStatus(sys.log, i), StoredStatus(sys.log, i + 1))))
  {
    ExecutionKeepsInv(systems, steps, n);
    var sys := systems[n];
    forall i | 0 <= i < |sys.log|
      ensures sys.log[i].run.version == i + 1 && !Terminal(StoredStatus(sys.log, i))
      ensures StoredStatus(sys.log, i + 1) in Allowed(StoredStatus(sys.log, i))
           || RecoveryJump(StoredStatus(sys.log, i), StoredStatus(sys.log, i + 1))
    {
      assert LogEntryOk(sys.builtIn, sys.log, i);
    }
  }

  lemma StepFromTerminal(sys: System, step: Step)
    requires Inv(sys) && Enabled(sys, step) && Terminal(sys.stored.status)
    ensures Apply(sys, step).stored == sys.stored
  {
    if step.Act? {
      assert Fresh(sys.builtIn, sys.stored, sys.actors[step.a]);
    }
  }

  /** Once terminal, the stored run never changes again, whatever copies are still in flight. */
  lemma {:induction false} TerminalIsFinal(systems: seq<System>, steps: seq<Step>, i: nat, j: nat)
    requires Execution(systems, steps) && i <= j < |systems| && Terminal(systems[i].stored.status)
    ensures systems[j].stored == systems[i].stored
  {
    if i == j {
    } else {
      TerminalIsFinal(systems, steps, i, j - 1);
      ExecutionKeepsInv(systems, steps, j - 1);
      StepFromTerminal(systems[j - 1], steps[j - 1]);
    }
  }

  /** A call that needs approval enters the tool only after a resume granted exactly that call. */
  lemma {:induction false} ToolsRunOnlyAfterApproval(systems: seq<System>, steps: seq<Step>, n: nat, i: nat)
    requires Execution(systems, steps) && n < |systems| && i < |systems[n].log|
    requires systems[n].log[i].run.status == InvokingTool
    ensures var log := systems[n].log;
            && log[i].cause.EnterTool?
            && (log[i].cause.needsApproval ==>
                  exists j :: 0 <= j < i && Grants(log[j].cause, log[i].cause.call))
  {
    ExecutionKeepsInv(systems, steps, n);
    assert LogEntryOk(systems[n].builtIn, systems[n].log, i);
  }

  lemma OnlyTheLastIsTerminal(builtIn: bool, log: seq<Entry>, i: nat)
    requires i < |log| && forall k :: 0 <= k < |log| ==> LogEntryOk(builtIn, log, k)
    ensures Terminal(log[i].run.status) ==> i == |log| - 1
  {
    if i + 1 < |log| {
      assert LogEntryOk(builtIn, log, i + 1);
    }
  }

  /** A rejected run never executes again: its rejection is the last save there will ever be. */
  lemma {:induction false} RejectionEndsTheRun(systems: seq<System>, steps: seq<Step>, n: nat, i: nat)
    requires Execution(systems, steps) && n < |systems| && i < |systems[n].log|
    requires systems[n].log[i].cause.Decide? && systems[n].log[i].cause.decision == RejectedByUser
    ensures i == |systems[n].log| - 1 && systems[n].stored.status == Failed
  {
    ExecutionKeepsInv(systems, steps, n);
    var log := systems[n].log;
    assert LogEntryOk(systems[n].builtIn, log, i);
    OnlyTheLastIsTerminal(systems[n].builtIn, log, i);
  }

  /** With a built-in planner no tool call is completed twice, not even after crashes and recoveries. */
  lemma {:induction false} NoCallCompletesTwice(systems: seq<System>, steps: seq<Step>, n: nat, i: nat, j: nat)
    requires Execution(systems, steps) && systems[0].builtIn && n < |systems| && i < j < |systems[n].log|
    requires systems[n].log[i].cause.FinishTool? && systems[n].log[j].cause.FinishTool?
    ensures systems[n].log[i].cause.call != systems[n].log[j].cause.call
  {
    ExecutionKeepsInv(systems, steps, n);
    assert LogEntryOk(systems[n].builtIn, systems[n].log, j);
  }
}
