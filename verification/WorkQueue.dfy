/** The leased work queue and the workers that drive it.

    `InMemoryWorkQueue` is the queue as the source writes it, proved against functions on its state.
    The state machine below runs any number of workers over those functions, with distinct names,
    each handling one item at a time, with clock ticks, expired leases and crashes in between. */
module WorkQueue {
  import opened Wrappers

  datatype Status = Pending | Leased | Completed | Failed

  datatype WorkItem = WorkItem(
    id: string, tenant: string, key: string, status: Status, attempts: nat, maximumAttempts: nat,
    availableAt: int, createdAt: int, owner: Option<string>, expiresAt: Option<int>,
    result: Option<string>, error: Option<string>)

  /** `order` is the insertion order of the item dictionary. */
  datatype Queue = Queue(items: map<string, WorkItem>, order: seq<string>, known: map<(string, string), string>)

  // ---------------------------------------------------------------------------------------------
  // The operations as functions

  /** A deduplication entry counts only if its identifier is a non-empty string. */
  function Existing(q: Queue, item: WorkItem): Option<string> {
    var k := (item.tenant, item.key);
    if k in q.known && q.known[k] != "" then Some(q.known[k]) else None
  }

  function Enqueued(q: Queue, item: WorkItem): Queue {
    if Existing(q, item).Some? then q
    else
      Queue(q.items[item.id := item],
            if item.id in q.items then q.order else q.order + [item.id],
            q.known[(item.tenant, item.key) := item.id])
  }

  predicate Eligible(item: WorkItem, now: int) {
    && item.availableAt <= now
    && (|| item.status == Pending
        || (item.status == Leased && item.expiresAt.Some? && item.expiresAt.value <= now))
    && item.attempts < item.maximumAttempts
  }

  predicate Before(a: WorkItem, b: WorkItem) {
    a.availableAt < b.availableAt || (a.availableAt == b.availableAt && a.createdAt < b.createdAt)
  }

  /** Not available yet, out of attempts, finished, or under a lease that has not expired. */
  predicate Unclaimable(item: WorkItem, now: int) {
    || item.availableAt > now || item.attempts >= item.maximumAttempts || item.status in {Completed, Failed}
    || (item.status == Leased && (item.expiresAt.None? || item.expiresAt.value > now))
  }

  lemma ClaimableOrNot(item: WorkItem, now: int)
    ensures Eligible(item, now) <==> !Unclaimable(item, now)
  {
    match item.status
    case Pending =>
    case Leased =>
    case _ =>
  }

  /** The item a claim takes: eligible, no eligible item before it, and the first inserted of its
      equals. */
  ghost predicate Chosen(q: Queue, now: int, id: string) {
    && id in q.items && Eligible(q.items[id], now)
    && (exists k ::
          && 0 <= k < |q.order| && q.order[k] == id
          && (forall j :: 0 <= j < |q.order| && q.order[j] in q.items && Eligible(q.items[q.order[j]], now) ==>
                && !Before(q.items[q.order[j]], q.items[id])
                && (j < k ==> Before(q.items[id], q.items[q.order[j]]))))
  }

  function Claimed(item: WorkItem, worker: string, now: int, lease: int): WorkItem {
    item.(status := Leased, owner := Some(worker), expiresAt := Some(now + lease), attempts := item.attempts + 1)
  }

  predicate Owned(q: Queue, id: string, worker: string) {
    id in q.items && q.items[id].status == Leased && q.items[id].owner == Some(worker)
  }

  function Finished(item: WorkItem, result: string): WorkItem {
    item.(status := Completed, result := Some(result), owner := None, expiresAt := None)
  }

  function GivenUp(item: WorkItem, error: string, retry: bool): WorkItem {
    item.(error := Some(error),
          status := if retry && item.attempts < item.maximumAttempts then Pending else Failed,
          owner := None, expiresAt := None)
  }

  function Put(q: Queue, item: WorkItem): Queue {
    q.(items := q.items[item.id := item])
  }

  // ---------------------------------------------------------------------------------------------
  // The queue object

  ghost predicate Indexed(q: Queue) {
    && (forall id :: id in q.items <==> id in q.order)
    && (forall id :: id in q.items ==> q.items[id].id == id)
    && (forall k :: k in q.known ==> q.known[k] in q.items)
    && NoDuplicates(q.order)
  }

  /** Position `b` holds the choice among the first `n` inserted items. */
  ghost predicate BestOf(q: Queue, now: int, b: nat, n: nat)
    requires Indexed(q) && b < n <= |q.order|
  {
    var best := q.items[q.order[b]];
    && Eligible(best, now)
    && forall j :: 0 <= j < n && Eligible(q.items[q.order[j]], now) ==>
         && !Before(q.items[q.order[j]], best)
         && (j < b ==> Before(best, q.items[q.order[j]]))
  }

  class InMemoryWorkQueue {
    var items: map<string, WorkItem>
    var order: seq<string>
    var known: map<(string, string), string>

    function Contents(): Queue
      reads this
    {
      Queue(items, order, known)
    }

    constructor ()
      ensures Contents() == Queue(map[], [], map[]) && Indexed(Contents())
    {
      items, order, known := map[], [], map[];
    }

    method Enqueue(item: WorkItem) returns (stored: WorkItem, created: bool)
      requires Indexed(Contents())
      modifies this
      ensures Indexed(Contents()) && Contents() == Enqueued(old(Contents()), item)
      ensures created <==> Existing(old(Contents()), item).None?
      ensures stored == if created then item else old(items)[Existing(old(Contents()), item).value]
    {
      var k := (item.tenant, item.key);
      if k in known && known[k] != "" {
        return items[known[k]], false;
      }
      order := if item.id in items then order else order + [item.id];
      items := items[item.id := item];
      known := known[k := item.id];
      return item, true;
    }

    /** `now` is read before the lock is taken. */
    method Claim(worker: string, lease: int, now: int) returns (claimed: Option<WorkItem>)
      requires Indexed(Contents())
      modifies this`items
      ensures Indexed(Contents())
      ensures claimed.None? <==> forall id :: id in old(items) ==> !Eligible(old(items)[id], now)
      ensures claimed.None? ==> Contents() == old(Contents())
      ensures claimed.Some? ==>
                && Chosen(old(Contents()), now, claimed.value.id)
                && claimed.value == Claimed(old(items)[claimed.value.id], worker, now, lease)
                && Contents() == Put(old(Contents()), claimed.value)
      ensures claimed.None? ==> forall id :: id in old(items) ==> Unclaimable(old(items)[id], now)
      ensures claimed.Some? ==>
                var was := old(items)[claimed.value.id];
                && !Unclaimable(was, now)
                && claimed.value == was.(status := Leased, owner := Some(worker), expiresAt := Some(now + lease),
                                         attempts := was.attempts + 1)
                && forall id :: id in old(items) && !Unclaimable(old(items)[id], now) ==>
                     || was.availableAt < old(items)[id].availableAt
                     || (was.availableAt == old(items)[id].availableAt && was.createdAt <= old(items)[id].createdAt)
    {
      forall id | id in items ensures Eligible(items[id], now) <==> !Unclaimable(items[id], now) {
        ClaimableOrNot(items[id], now);
      }
      var best: Option<nat> := None;
      for k := 0 to |order|
        invariant best.None? ==> forall j :: 0 <= j < k ==> !Eligible(items[order[j]], now)
        invariant best.Some? ==> best.value < k && BestOf(Contents(), now, best.value, k)
      {
        var item := items[order[k]];
        if Eligible(item, now) && (best.None? || Before(item, items[order[best.value]])) {
          best := Some(k);
        }
      }
      if best.None? {
        return None;
      }
      var item := Claimed(items[order[best.value]], worker, now, lease);
      assert Chosen(Contents(), now, item.id) by {
        assert order[best.value] == item.id;
      }
      items := items[item.id := item];
      return Some(item);
    }

    /** False stands for the conflict error, here and below. */
    method Renew(id: string, worker: string, lease: int, now: int) returns (ok: bool)
      modifies this`items
      ensures ok <==> Owned(old(Contents()), id, worker)
      ensures items == if ok then old(items)[id := old(items)[id].(expiresAt := Some(now + lease))] else old(items)
    {
      if id !in items || items[id].status != Leased || items[id].owner != Some(worker) {
        return false;
      }
      items := items[id := items[id].(expiresAt := Some(now + lease))];
      return true;
    }

    method Complete(id: string, worker: string, result: string) returns (ok: bool)
      modifies this`items
      ensures ok <==> Owned(old(Contents()), id, worker)
      ensures items == if ok then old(items)[id := Finished(old(items)[id], result)] else old(items)
      ensures ok ==> items[id].status == Completed && items[id].result == Some(result) && items[id].owner.None?
    {
      if id !in items || items[id].status != Leased || items[id].owner != Some(worker) {
        return false;
      }
      items := items[id := items[id].(status := Completed, result := Some(result), owner := None, expiresAt := None)];
      return true;
    }

    method Fail(id: string, worker: string, error: string, retry: bool) returns (ok: bool)
      modifies this`items
      ensures ok <==> Owned(old(Contents()), id, worker)
      ensures items == if ok then old(items)[id := GivenUp(old(items)[id], error, retry)] else old(items)
      ensures ok ==>
                && items[id].status in {Pending, Failed} && items[id].error == Some(error) && items[id].owner.None?
                && (items[id].status == Pending <==> retry && old(items)[id].attempts < old(items)[id].maximumAttempts)
    {
      if id !in items || items[id].status != Leased || items[id].owner != Some(worker) {
        return false;
      }
      var again := retry && items[id].attempts < items[id].maximumAttempts;
      items := items[id := items[id].(error := Some(error), status := if again then Pending else Failed,
                                      owner := None, expiresAt := None)];
      return true;
    }
  }

  // ---------------------------------------------------------------------------------------------
  // Workers

  /** The claim a worker is handling: the item, which claim of that item it is, and until when. */
  datatype Claim = Claim(item: string, number: nat, expiresAt: int)

  /** `claims` records every claim ever made, as (item, worker). */
  datatype System = System(queue: Queue, clock: int, handling: map<string, Claim>, claims: seq<(string, string)>)

  datatype Step =
    | Tick(clock: int)
    | Enqueue(item: WorkItem)
    | ClaimItem(worker: string, id: string, now: int, lease: int)
    | ClaimNothing(worker: string, now: int)
    | Renew(worker: string, lease: int)
    | Complete(worker: string, result: string)
    | Fail(worker: string, error: string, retry: bool)
    | Crash(worker: string)

  function Initial(clock: int): System {
    System(Queue(map[], [], map[]), clock, map[], [])
  }

  /** What the queue accepts as a new item: fresh identifier, nothing done yet. */
  predicate IsNew(q: Queue, item: WorkItem) {
    && item.id != "" && item.id !in q.items
    && item.status == Pending && item.attempts == 0 && item.owner.None? && item.expiresAt.None?
    && item.maximumAttempts >= 1
  }

  ghost predicate Enabled(sys: System, step: Step) {
    match step
    case Tick(clock) => sys.clock <= clock
    case Enqueue(item) => Existing(sys.queue, item).Some? || IsNew(sys.queue, item)
    case ClaimItem(w, id, now, _) => w !in sys.handling && now <= sys.clock && Chosen(sys.queue, now, id)
    case ClaimNothing(w, now) =>
      w !in sys.handling && now <= sys.clock && forall id :: id in sys.queue.items ==> !Eligible(sys.queue.items[id], now)
    case Renew(w, _) => w in sys.handling
    case Complete(w, _) => w in sys.handling
    case Fail(w, _, _) => w in sys.handling
    case Crash(w) => w in sys.handling
  }

  /** A refused completion leaves the worker to report a failure; a failure report, accepted or
      refused, ends the handling. */
  ghost function Apply(sys: System, step: Step): System
    requires Enabled(sys, step)
  {
    match step
    case Tick(clock) => sys.(clock := clock)
    case Enqueue(item) => sys.(queue := Enqueued(sys.queue, item))
    case ClaimItem(w, id, now, lease) =>
      var item := Claimed(sys.queue.items[id], w, now, lease);
      sys.(queue := sys.queue.(items := sys.queue.items[id := item]),
           handling := sys.handling[w := Claim(id, item.attempts, now + lease)],
           claims := sys.claims + [(id, w)])
    case ClaimNothing(_, _) => sys
    case Renew(w, lease) =>
      var id := sys.handling[w].item;
      if Owned(sys.queue, id, w) then
        sys.(queue := sys.queue.(items := sys.queue.items[id := sys.queue.items[id].(expiresAt := Some(sys.clock + lease))]),
             handling := sys.handling[w := sys.handling[w].(expiresAt := sys.clock + lease)])
      else sys
    case Complete(w, result) =>
      var id := sys.handling[w].item;
      if Owned(sys.queue, id, w) then
        sys.(queue := sys.queue.(items := sys.queue.items[id := Finished(sys.queue.items[id], result)]),
             handling := sys.handling - {w})
      else sys
    case Fail(w, error, retry) =>
      var id := sys.handling[w].item;
      if Owned(sys.queue, id, w) then
        sys.(queue := sys.queue.(items := sys.queue.items[id := GivenUp(sys.queue.items[id], error, retry)]),
             handling := sys.handling - {w})
      else sys.(handling := sys.handling - {w})
    case Crash(w) => sys.(handling := sys.handling - {w})
  }

  // ---------------------------------------------------------------------------------------------
  // The invariant

  function ClaimCount(claims: seq<(string, string)>, id: string): nat {
    if claims == [] then 0
    else ClaimCount(claims[..|claims| - 1], id) + if claims[|claims| - 1].0 == id then 1 else 0
  }

  /** The worker of the latest claim of an item. */
  function LastClaimant(claims: seq<(string, string)>, id: string): Option<string> {
    if claims == [] then None
    else if claims[|claims| - 1].0 == id then Some(claims[|claims| - 1].1)
    else LastClaimant(claims[..|claims| - 1], id)
  }

  ghost predicate ItemOk(sys: System, id: string)
    requires id in sys.queue.items
  {
    var item := sys.queue.items[id];
    && id != "" && item.id == id
    && item.attempts == ClaimCount(sys.claims, id) <= item.maximumAttempts
    && (item.status == Leased ==> item.expiresAt.Some? && item.owner.Some? && item.owner == LastClaimant(sys.claims, id))
  }

  ghost predicate ClaimOk(sys: System, w: string)
    requires w in sys.handling
  {
    var claim := sys.handling[w];
    && claim.item in sys.queue.items
    && var item := sys.queue.items[claim.item];
       && claim.number <= item.attempts
       && (item.status == Leased ==> (claim.number == item.attempts <==> item.owner == Some(w)))
       && (Owned(sys.queue, claim.item, w) ==> item.expiresAt == Some(claim.expiresAt))
       && (claim.expiresAt > sys.clock ==> Owned(sys.queue, claim.item, w))
  }

  ghost predicate Inv(sys: System) {
    && Indexed(sys.queue)
    && (forall id :: id in sys.queue.items ==> ItemOk(sys, id))
    && (forall w :: w in sys.handling ==> ClaimOk(sys, w))
    && (forall i :: 0 <= i < |sys.claims| ==> sys.claims[i].0 in sys.queue.items)
    && (forall k :: k in sys.queue.known ==>
          sys.queue.items[sys.queue.known[k]].tenant == k.0 && sys.queue.items[sys.queue.known[k]].key == k.1)
  }

  lemma ClaimsAppend(claims: seq<(string, string)>, c: (string, string), id: string)
    ensures ClaimCount(claims + [c], id) == ClaimCount(claims, id) + if c.0 == id then 1 else 0
    ensures LastClaimant(claims + [c], id) == if c.0 == id then Some(c.1) else LastClaimant(claims, id)
  {
    assert (claims + [c])[..|claims|] == claims;
  }

  lemma {:induction false} UnclaimedCount(claims: seq<(string, string)>, id: string)
    requires forall i :: 0 <= i < |claims| ==> claims[i].0 != id
    ensures ClaimCount(claims, id) == 0
  {
    if claims == [] {
    } else {
      UnclaimedCount(claims[..|claims| - 1], id);
    }
  }

  lemma EnqueueKeepsInv(sys: System, item: WorkItem)
    requires Inv(sys) && Enabled(sys, Enqueue(item))
    ensures Inv(Apply(sys, Enqueue(item)))
  {
    var next := Apply(sys, Enqueue(item));
    if Existing(sys.queue, item).None? {
      UnclaimedCount(sys.claims, item.id);
      forall id | id in next.queue.items ensures ItemOk(next, id) {
        assert id != item.id ==> ItemOk(sys, id);
      }
      forall w | w in next.handling ensures ClaimOk(next, w) {
        assert ClaimOk(sys, w);
      }
    }
  }

  lemma ClaimedIsOk(sys: System, next: System, id: string, claimed: string, worker: string)
    requires id in sys.queue.items && ItemOk(sys, id) && id in next.queue.items
    requires next.claims == sys.claims + [(claimed, worker)]
    requires if id != claimed then next.queue.items[id] == sys.queue.items[id]
             else
               && sys.queue.items[id].attempts < sys.queue.items[id].maximumAttempts
               && exists now, lease :: next.queue.items[id] == Claimed(sys.queue.items[id], worker, now, lease)
    ensures ItemOk(next, id)
  {
    ClaimsAppend(sys.claims, (claimed, worker), id);
  }

  lemma ClaimKeepsItem(sys: System, step: Step, id: string)
    requires step.ClaimItem? && Enabled(sys, step) && id in sys.queue.items && ItemOk(sys, id)
    ensures ItemOk(Apply(sys, step), id)
  {
    ClaimedIsOk(sys, Apply(sys, step), id, step.id, step.worker);
  }

  /** A claim takes an item only from under an expired lease, so no other worker's unexpired claim
      is affected. */
  lemma ClaimKeepsClaims(sys: System, step: Step, w: string)
    requires step.ClaimItem? && Enabled(sys, step) && ItemOk(sys, step.id)
    requires w in sys.handling ==> ClaimOk(sys, w)
    requires w in Apply(sys, step).handling
    ensures ClaimOk(Apply(sys, step), w)
  {
  }

  /** Replacing an item under its own identifier keeps the indexes of the queue. */
  lemma ReplacingKeepsIndexes(q: Queue, item: WorkItem)
    requires Indexed(q) && item.id in q.items
    requires item.tenant == q.items[item.id].tenant && item.key == q.items[item.id].key
    ensures Indexed(Put(q, item))
    ensures forall k :: k in q.known ==>
              && Put(q, item).items[q.known[k]].tenant == q.items[q.known[k]].tenant
              && Put(q, item).items[q.known[k]].key == q.items[q.known[k]].key
  {
  }

  lemma ClaimKeepsClaimants(sys: System, step: Step)
    requires Inv(sys) && step.ClaimItem? && Enabled(sys, step)
    ensures var next := Apply(sys, step);
            forall i :: 0 <= i < |next.claims| ==> next.claims[i].0 in next.queue.items
  {
  }

  lemma ClaimKeepsIndexes(sys: System, step: Step)
    requires Inv(sys) && step.ClaimItem? && Enabled(sys, step)
    ensures var q := Apply(sys, step).queue;
            && Indexed(q)
            && forall k :: k in q.known ==> q.items[q.known[k]].tenant == k.0 && q.items[q.known[k]].key == k.1
  {
    var next := Apply(sys, step);
    ReplacingKeepsIndexes(sys.queue, next.queue.items[step.id]);
    assert next.queue == Put(sys.queue, next.queue.items[step.id]);
  }

  lemma ClaimKeepsInv(sys: System, step: Step)
    requires Inv(sys) && step.ClaimItem? && Enabled(sys, step)
    ensures Inv(Apply(sys, step))
  {
    var next := Apply(sys, step);
    ClaimKeepsIndexes(sys, step);
    ClaimKeepsClaimants(sys, step);
    forall id | id in next.queue.items ensures ItemOk(next, id) {
      assert ItemOk(sys, id);
      ClaimKeepsItem(sys, step, id);
    }
    forall w | w in next.handling ensures ClaimOk(next, w) {
      assert ItemOk(sys, step.id);
      ClaimKeepsClaims(sys, step, w);
    }
  }

  predicate IsLeaseStep(step: Step) {
    step.Renew? || step.Complete? || step.Fail?
  }

  /** Renewing, completing and failing touch one item, and only as its lease owner. */
  lemma LeaseStepKeepsItem(sys: System, step: Step, id: string)
    requires IsLeaseStep(step) && Enabled(sys, step) && ClaimOk(sys, step.worker)
    requires id in sys.queue.items && ItemOk(sys, id)
    ensures Apply(sys, step).queue.items.Keys == sys.queue.items.Keys
    ensures ItemOk(Apply(sys, step), id)
  {
  }

  lemma LeaseStepKeepsClaims(sys: System, step: Step, w: string)
    requires IsLeaseStep(step) && Enabled(sys, step) && ClaimOk(sys, step.worker)
    requires w in Apply(sys, step).handling && ClaimOk(sys, w)
    ensures ClaimOk(Apply(sys, step), w)
  {
  }

  lemma LeaseStepKeepsInv(sys: System, step: Step)
    requires Inv(sys) && IsLeaseStep(step) && Enabled(sys, step)
    ensures Inv(Apply(sys, step))
  {
    var next, id := Apply(sys, step), sys.handling[step.worker].item;
    assert ClaimOk(sys, step.worker) && ItemOk(sys, id);
    LeaseStepKeepsItem(sys, step, id);
    forall id' | id' in next.queue.items ensures ItemOk(next, id') {
      LeaseStepKeepsItem(sys, step, id');
    }
    forall w | w in next.handling ensures ClaimOk(next, w) {
      LeaseStepKeepsClaims(sys, step, w);
    }
    if next.queue != sys.queue {
      ReplacingKeepsIndexes(sys.queue, next.queue.items[id]);
    }
  }

  lemma StepKeepsInv(sys: System, step: Step)
    requires Inv(sys) && Enabled(sys, step)
    ensures Inv(Apply(sys, step))
  {
    match step {
      case Enqueue(item) => EnqueueKeepsInv(sys, item);
      case ClaimItem(_, _, _, _) => ClaimKeepsInv(sys, step);
      case Renew(_, _) => LeaseStepKeepsInv(sys, step);
      case Complete(_, _) => LeaseStepKeepsInv(sys, step);
      case Fail(_, _, _) => LeaseStepKeepsInv(sys, step);
      case _ =>
        var next := Apply(sys, step);
        forall id | id in next.queue.items ensures ItemOk(next, id) {
          assert ItemOk(sys, id);
        }
        forall w | w in next.handling ensures ClaimOk(next, w) {
          assert ClaimOk(sys, w);
        }
    }
  }

  // ---------------------------------------------------------------------------------------------
  // Whole executions

  ghost predicate Execution(systems: seq<System>, steps: seq<Step>) {
    && |systems| == |steps| + 1
    && systems[0] == Initial(systems[0].clock)
    && forall i :: 0 <= i < |steps| ==> Enabled(systems[i], steps[i]) && systems[i + 1] == Apply(systems[i], steps[i])
  }

  lemma {:induction false} ExecutionKeepsInv(systems: seq<System>, steps: seq<Step>, i: nat)
    requires Execution(systems, steps) && i < |systems|
    ensures Inv(systems[i])
  {
    if i == 0 {
    } else {
      ExecutionKeepsInv(systems, steps, i - 1);
      StepKeepsInv(systems[i - 1], steps[i - 1]);
    }
  }

  /** A worker's completion or failure report is accepted only for the latest claim of its item:
      nobody, itself included, has claimed the item since the claim it is handling. */
  lemma {:induction false} OnlyTheLatestClaimReports(systems: seq<System>, steps: seq<Step>, i: nat, w: string)
    requires Execution(systems, steps) && i < |systems| && w in systems[i].handling
    requires Owned(systems[i].queue, systems[i].handling[w].item, w)
    ensures var sys := systems[i];
            var claim := sys.handling[w];
            && claim.number == ClaimCount(sys.claims, claim.item)
            && LastClaimant(sys.claims, claim.item) == Some(w)
  {
    ExecutionKeepsInv(systems, steps, i);
    assert ClaimOk(systems[i], w);
    assert ItemOk(systems[i], systems[i].handling[w].item);
  }

  /** Two workers never hold unexpired leases on one item, and an unexpired lease is honoured: its
      holder can still complete the item. */
  lemma {:induction false} LeasesAreExclusive(systems: seq<System>, steps: seq<Step>, i: nat, w: string, v: string)
    requires Execution(systems, steps) && i < |systems|
    requires w in systems[i].handling && systems[i].handling[w].expiresAt > systems[i].clock
    ensures Owned(systems[i].queue, systems[i].handling[w].item, w)
    ensures v in systems[i].handling && systems[i].handling[v].expiresAt > systems[i].clock && v != w ==>
              systems[i].handling[v].item != systems[i].handling[w].item
  {
    ExecutionKeepsInv(systems, steps, i);
    assert ClaimOk(systems[i], w);
    if v in systems[i].handling {
      assert ClaimOk(systems[i], v);
    }
  }

  /** No item is claimed more often than its maximum. */
  lemma {:induction false} ClaimsAreBounded(systems: seq<System>, steps: seq<Step>, i: nat, id: string)
    requires Execution(systems, steps) && i < |systems| && id in systems[i].queue.items
    ensures ClaimCount(systems[i].claims, id) == systems[i].queue.items[id].attempts
    ensures ClaimCount(systems[i].claims, id) <= systems[i].queue.items[id].maximumAttempts
  {
    ExecutionKeepsInv(systems, steps, i);
    assert ItemOk(systems[i], id);
  }

  lemma StepKeepsFinished(sys: System, step: Step, id: string)
    requires Enabled(sys, step)
    requires id in sys.queue.items && sys.queue.items[id].status in {Completed, Failed}
    ensures id in Apply(sys, step).queue.items && Apply(sys, step).queue.items[id] == sys.queue.items[id]
  {
  }

  lemma KnownItemsAreNamed(sys: System)
    requires Inv(sys)
    ensures forall k :: k in sys.queue.known ==> sys.queue.known[k] != ""
  {
    forall k | k in sys.queue.known ensures sys.queue.known[k] != "" {
      assert ItemOk(sys, sys.queue.known[k]);
    }
  }

  lemma StepKeepsKnown(sys: System, step: Step, k: (string, string))
    requires Inv(sys) && Enabled(sys, step) && k in sys.queue.known
    ensures k in Apply(sys, step).queue.known && Apply(sys, step).queue.known[k] == sys.queue.known[k]
  {
    KnownItemsAreNamed(sys);
  }

  /** Completed and failed items stay exactly as they are. */
  lemma {:induction false} FinishedItemsAreFinal(systems: seq<System>, steps: seq<Step>, i: nat, j: nat, id: string)
    requires Execution(systems, steps) && i <= j < |systems|
    requires id in systems[i].queue.items && systems[i].queue.items[id].status in {Completed, Failed}
    ensures id in systems[j].queue.items && systems[j].queue.items[id] == systems[i].queue.items[id]
  {
    if i == j {
    } else {
      FinishedItemsAreFinal(systems, steps, i, j - 1, id);
      StepKeepsFinished(systems[j - 1], steps[j - 1], id);
    }
  }

  lemma {:induction false} KnownKeysStay(systems: seq<System>, steps: seq<Step>, i: nat, j: nat, k: (string, string))
    requires Execution(systems, steps) && i <= j < |systems| && k in systems[i].queue.known
    ensures k in systems[j].queue.known && systems[j].queue.known[k] == systems[i].queue.known[k]
  {
    if i == j {
    } else {
      KnownKeysStay(systems, steps, i, j - 1, k);
      ExecutionKeepsInv(systems, steps, j - 1);
      StepKeepsKnown(systems[j - 1], steps[j - 1], k);
    }
  }

  /** A deduplication key names one item for ever: every later item with the same tenant and key is
      answered with that one and not enqueued. */
  lemma {:induction false} DeduplicationIsForever(systems: seq<System>, steps: seq<Step>, i: nat, j: nat, item: WorkItem)
    requires Execution(systems, steps) && i <= j < |systems|
    requires (item.tenant, item.key) in systems[i].queue.known
    ensures var id, q := systems[i].queue.known[(item.tenant, item.key)], systems[j].queue;
            && Existing(q, item) == Some(id) && Enqueued(q, item) == q
            && id in q.items && q.items[id].tenant == item.tenant && q.items[id].key == item.key
  {
    KnownKeysStay(systems, steps, i, j, (item.tenant, item.key));
    ExecutionKeepsInv(systems, steps, j);
    KnownItemsAreNamed(systems[j]);
  }

  /** Why identifiers must not be empty: once `first` is enqueued, an item with the same tenant and
      key is turned away exactly when the identifier of `first` is not the empty string. */
  lemma DeduplicationNeedsAnIdentifier(q: Queue, first: WorkItem, second: WorkItem)
    requires Existing(q, first).None? && first.tenant == second.tenant && first.key == second.key
    ensures Existing(Enqueued(q, first), second) == Some(first.id) <==> first.id != ""
    ensures Enqueued(Enqueued(q, first), second).known[(first.tenant, first.key)] ==
              if first.id != "" then first.id else second.id
  {
    assert Enqueued(q, first).known[(first.tenant, first.key)] == first.id;
  }
}
