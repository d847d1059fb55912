/** Which work items can still be finished, in any reachable state of queue and workers. */
module QueueProgress {
  import opened WorkQueue
  import opened Wrappers

  ghost predicate Leads(sys: System, step: Step, next: System) {
    Enabled(sys, step) && next == Apply(sys, step)
  }

  ghost predicate Path(systems: seq<System>, steps: seq<Step>) {
    |systems| == |steps| + 1 && forall i :: 0 <= i < |steps| ==> Leads(systems[i], steps[i], systems[i + 1])
  }

  /** Some steps lead from one state to the other. */
  ghost predicate Reaches(sys: System, later: System) {
    exists systems: seq<System>, steps: seq<Step> ::
      Path(systems, steps) && systems[0] == sys && systems[|steps|] == later
  }

  lemma StepReaches(sys: System, step: Step, next: System)
    requires Leads(sys, step, next)
    ensures Reaches(sys, next)
  {
    var systems, steps := [sys, next], [step];
    assert Path(systems, steps) && systems[0] == sys && systems[|steps|] == next;
  }

  lemma PathsJoin(systems: seq<System>, steps: seq<Step>, more: seq<System>, further: seq<Step>)
    requires Path(systems, steps) && Path(more, further) && more[0] == systems[|steps|]
    ensures Path(systems + more[1..], steps + further)
  {
    var systems', steps' := systems + more[1..], steps + further;
    forall i | 0 <= i < |steps'| ensures Leads(systems'[i], steps'[i], systems'[i + 1]) {
      if i < |steps| {
        assert Leads(systems[i], steps[i], systems[i + 1]);
      } else {
        var k := i - |steps|;
        assert Leads(more[k], further[k], more[k + 1]);
        assert systems'[i] == more[k] && steps'[i] == further[k] && systems'[i + 1] == more[k + 1];
      }
    }
  }

  lemma ReachesOn(sys: System, next: System, later: System)
    requires Reaches(sys, next) && Reaches(next, later)
    ensures Reaches(sys, later)
  {
    var systems, steps :| Path(systems, steps) && systems[0] == sys && systems[|steps|] == next;
    var more, further :| Path(more, further) && more[0] == next && more[|further|] == later;
    PathsJoin(systems, steps, more, further);
    var systems', steps' := systems + more[1..], steps + further;
    assert systems'[0] == sys && systems'[|steps'|] == later;
  }

  predicate Done(item: WorkItem) {
    item.status in {Completed, Failed}
  }

  /** Whatever the queue and the workers did so far, they can still finish the item. */
  ghost predicate CanBeFinished(sys: System, id: string) {
    exists later :: Reaches(sys, later) && id in later.queue.items && Done(later.queue.items[id])
  }

  lemma FinishingLater(sys: System, next: System, id: string)
    requires Reaches(sys, next) && CanBeFinished(next, id)
    ensures CanBeFinished(sys, id)
  {
    var later :| Reaches(next, later) && id in later.queue.items && Done(later.queue.items[id]);
    ReachesOn(sys, next, later);
  }

  // ---------------------------------------------------------------------------------------------
  // Lost items

  /** The owner of the lease is still handling the item. */
  ghost predicate Handled(sys: System, id: string) {
    exists w :: w in sys.handling && sys.handling[w].item == id && Owned(sys.queue, id, w)
  }

  /** Unfinished, out of attempts, and nobody at work on it. */
  ghost predicate Lost(sys: System, id: string) {
    && id in sys.queue.items && !Done(sys.queue.items[id])
    && sys.queue.items[id].attempts >= sys.queue.items[id].maximumAttempts && !Handled(sys, id)
  }

  lemma StepKeepsLost(sys: System, step: Step, next: System, id: string)
    requires Lost(sys, id) && Leads(sys, step, next)
    ensures Lost(next, id) && next.queue.items[id] == sys.queue.items[id]
  {
    if IsLeaseStep(step) {
      assert sys.handling[step.worker].item == id ==> !Owned(sys.queue, id, step.worker);
    }
    assert next.queue.items[id] == sys.queue.items[id];
    if w :| w in next.handling && next.handling[w].item == id && Owned(next.queue, id, w) {
      assert w in sys.handling && sys.handling[w].item == id && Owned(sys.queue, id, w);
    }
  }

  /** A lost item stays exactly as it is. */
  lemma {:induction false} LostItemsAreLostForEver(systems: seq<System>, steps: seq<Step>, i: nat, id: string)
    requires Path(systems, steps) && Lost(systems[0], id) && i < |systems|
    ensures Lost(systems[i], id) && systems[i].queue.items[id] == systems[0].queue.items[id]
  {
    if i == 0 {
    } else {
      LostItemsAreLostForEver(systems, steps, i - 1, id);
      StepKeepsLost(systems[i - 1], steps[i - 1], systems[i], id);
    }
  }

  // ---------------------------------------------------------------------------------------------
  // Finishing an item that is not lost

  lemma {:induction false} BestOfTheFirst(q: Queue, now: int, n: nat, some: nat) returns (b: nat)
    requires Indexed(q) && some < n <= |q.order| && Eligible(q.items[q.order[some]], now)
    ensures b < n && BestOf(q, now, b, n)
  {
    var last := q.items[q.order[n - 1]];
    if j :| 0 <= j < n - 1 && Eligible(q.items[q.order[j]], now) {
      b := BestOfTheFirst(q, now, n - 1, j);
      if Eligible(last, now) && Before(last, q.items[q.order[b]]) {
        b := n - 1;
      }
    } else {
      b := n - 1;
    }
  }

  /** While an item is eligible, there is one to claim. */
  lemma SomeItemIsChosen(q: Queue, now: int, some: string) returns (id: string)
    requires Indexed(q) && some in q.items && Eligible(q.items[some], now)
    ensures Chosen(q, now, id)
  {
    var k :| 0 <= k < |q.order| && q.order[k] == some;
    var b := BestOfTheFirst(q, now, |q.order|, k);
    id := q.order[b];
  }

  ghost function EligibleItems(q: Queue, now: int): set<string> {
    set id | id in q.items && Eligible(q.items[id], now)
  }

  /** Only one item has changed. */
  ghost predicate AllButOne(sys: System, next: System, id: string) {
    && next.clock == sys.clock && next.queue.items.Keys == sys.queue.items.Keys
    && forall id' :: id' in sys.queue.items && id' != id ==> next.queue.items[id'] == sys.queue.items[id']
  }

  lemma LeadsKeepsInv(sys: System, step: Step, next: System)
    requires Inv(sys) && Leads(sys, step, next)
    ensures Inv(next)
  {
    StepKeepsInv(sys, step);
  }

  lemma FreeWorkerClaims(sys: System, w: string, id: string) returns (next: System)
    requires w !in sys.handling && Chosen(sys.queue, sys.clock, id)
    ensures Leads(sys, ClaimItem(w, id, sys.clock, 1), next) && AllButOne(sys, next, id)
    ensures w in next.handling && next.handling[w].item == id && Owned(next.queue, id, w)
  {
    next := Apply(sys, ClaimItem(w, id, sys.clock, 1));
  }

  lemma OwnerCompletes(sys: System, w: string, id: string) returns (next: System)
    requires w in sys.handling && sys.handling[w].item == id && Owned(sys.queue, id, w)
    ensures Leads(sys, Complete(w, "result"), next) && AllButOne(sys, next, id)
    ensures w !in next.handling && next.queue.items[id].status == Completed
  {
    next := Apply(sys, Complete(w, "result"));
  }

  lemma OneLessEligible(sys: System, next: System, id: string)
    requires AllButOne(sys, next, id) && id in sys.queue.items && next.queue.items[id].status == Completed
    ensures EligibleItems(next.queue, next.clock) == EligibleItems(sys.queue, sys.clock) - {id}
  {
  }

  /** A free worker claims the chosen item, completes it, and is free again. */
  lemma ChosenItemIsFinished(sys: System, w: string, id: string) returns (next: System)
    requires Inv(sys) && w !in sys.handling && Chosen(sys.queue, sys.clock, id)
    ensures Reaches(sys, next) && Inv(next) && AllButOne(sys, next, id)
    ensures w !in next.handling && next.queue.items[id].status == Completed
  {
    var claimed := FreeWorkerClaims(sys, w, id);
    LeadsKeepsInv(sys, ClaimItem(w, id, sys.clock, 1), claimed);
    next := OwnerCompletes(claimed, w, id);
    LeadsKeepsInv(claimed, Complete(w, "result"), next);
    StepReaches(sys, ClaimItem(w, id, sys.clock, 1), claimed);
    StepReaches(claimed, Complete(w, "result"), next);
    ReachesOn(sys, claimed, next);
  }

  /** A free worker finishes whatever is chosen before the item, and then the item. */
  lemma {:induction false} EligibleItemsCanBeFinished(sys: System, w: string, id: string)
    requires Inv(sys) && w !in sys.handling && id in sys.queue.items && Eligible(sys.queue.items[id], sys.clock)
    ensures CanBeFinished(sys, id)
    decreases |EligibleItems(sys.queue, sys.clock)|
  {
    var first := SomeItemIsChosen(sys.queue, sys.clock, id);
    var next := ChosenItemIsFinished(sys, w, first);
    if first != id {
      OneLessEligible(sys, next, first);
      assert first in EligibleItems(sys.queue, sys.clock);
      EligibleItemsCanBeFinished(next, w, id);
      FinishingLater(sys, next, id);
    }
  }

  lemma {:induction false} LongerThanAll(names: set<string>) returns (n: nat)
    ensures forall name :: name in names ==> |name| < n
  {
    if names == {} {
      n := 0;
    } else {
      var name :| name in names;
      n := LongerThanAll(names - {name});
      n := Max(n, |name| + 1);
    }
  }

  lemma SomeNameIsFree(names: set<string>) returns (name: string)
    ensures name !in names
  {
    var n := LongerThanAll(names);
    name := seq(n, _ => 'w');
  }

  /** With attempts left, the item becomes eligible in time and a new worker gets to it. */
  lemma AttemptsLeftCanBeFinished(sys: System, id: string)
    requires Inv(sys) && id in sys.queue.items && !Done(sys.queue.items[id])
    requires sys.queue.items[id].attempts < sys.queue.items[id].maximumAttempts
    ensures CanBeFinished(sys, id)
  {
    var item := sys.queue.items[id];
    assert ItemOk(sys, id);
    var late := Max(sys.clock, Max(item.availableAt, if item.expiresAt.Some? then item.expiresAt.value else 0));
    var ripe := Apply(sys, Tick(late));
    StepKeepsInv(sys, Tick(late));
    var w := SomeNameIsFree(ripe.handling.Keys);
    EligibleItemsCanBeFinished(ripe, w, id);
    StepReaches(sys, Tick(late), ripe);
    FinishingLater(sys, ripe, id);
  }

  lemma HandledItemsCanBeFinished(sys: System, id: string)
    requires Handled(sys, id)
    ensures CanBeFinished(sys, id)
  {
    var w :| w in sys.handling && sys.handling[w].item == id && Owned(sys.queue, id, w);
    var next := OwnerCompletes(sys, w, id);
    StepReaches(sys, Complete(w, "result"), next);
  }

  /** In every reachable state an unfinished item can still be finished exactly when it has attempts left or
      the owner of its lease is at work on it.  In particular an item whose last worker crashed stays leased
      for ever. */
  lemma {:induction false} CanBeFinishedIff(systems: seq<System>, steps: seq<Step>, i: nat, id: string)
    requires Execution(systems, steps) && i < |systems|
    requires id in systems[i].queue.items && !Done(systems[i].queue.items[id])
    ensures var item := systems[i].queue.items[id];
            CanBeFinished(systems[i], id) <==> item.attempts < item.maximumAttempts || Handled(systems[i], id)
  {
    var sys := systems[i];
    ExecutionKeepsInv(systems, steps, i);
    if sys.queue.items[id].attempts < sys.queue.items[id].maximumAttempts {
      AttemptsLeftCanBeFinished(sys, id);
    } else if Handled(sys, id) {
      HandledItemsCanBeFinished(sys, id);
    } else if later :| Reaches(sys, later) && id in later.queue.items && Done(later.queue.items[id]) {
      var path, taken :| Path(path, taken) && path[0] == sys && path[|taken|] == later;
      LostItemsAreLostForEver(path, taken, |taken|, id);
      assert false;
    }
  }
}
