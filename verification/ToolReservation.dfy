/** Tool executions: the idempotency-key store, the executor that retries, and every interleaving
    of concurrent executions, cancellations and crashes over one durable store. */
module ToolReservation {
  import opened Wrappers

  type Key = string
  type Result = int

  datatype SideEffect = NoEffect | Read | Write | External | Destructive

  datatype Idempotency = Idempotent | Keyed | NonIdempotent

  datatype Tool = Tool(sideEffect: SideEffect, idempotency: Idempotency, maxAttempts: nat)

  predicate SideEffecting(tool: Tool) {
    tool.sideEffect !in {NoEffect, Read}
  }

  lemma EffectsOfOneKind(tool: Tool)
    ensures SideEffecting(tool) <==> tool.sideEffect in {Write, External, Destructive}
  {
    match tool.sideEffect
    case NoEffect =>
    case Read =>
    case _ =>
  }

  predicate Cacheable(cacheOn: bool, tool: Tool) {
    cacheOn && !SideEffecting(tool) && tool.idempotency == Idempotent
  }

  /** How often one reservation may invoke the handler. */
  function Attempts(tool: Tool): nat {
    if tool.idempotency != NonIdempotent then tool.maxAttempts else 1
  }

  datatype Status = Started | Completed | Failed | Indeterminate

  /** A failure keeps the result of the record it replaces, as the source's copy-with-update does. */
  datatype Record = Record(status: Status, result: Option<Result>)

  // ---------------------------------------------------------------------------------------------
  // The store

  function Begun(records: map<Key, Record>, key: Key): (map<Key, Record>, bool) {
    if key in records && records[key].status != Failed then (records, false)
    else (records[key := Record(Started, None)], true)
  }

  function WithResult(records: map<Key, Record>, key: Key, r: Result): map<Key, Record> {
    records[key := Record(Completed, Some(r))]
  }

  function WithFailure(records: map<Key, Record>, key: Key, indeterminate: bool): map<Key, Record>
    requires key in records
  {
    records[key := records[key].(status := if indeterminate then Indeterminate else Failed)]
  }

  class InMemoryToolExecutionStore {
    var records: map<Key, Record>

    constructor ()
      ensures records == map[]
    {
      records := map[];
    }

    method Begin(key: Key) returns (record: Record, reserved: bool)
      modifies this
      ensures (records, reserved) == Begun(old(records), key)
      ensures key in records && record == records[key]
    {
      if key in records && records[key].status != Failed {
        return records[key], false;
      }
      records := records[key := Record(Started, None)];
      return records[key], true;
    }

    method Complete(key: Key, r: Result)
      requires key in records
      modifies this
      ensures records == WithResult(old(records), key, r)
    {
      records := records[key := records[key].(status := Completed, result := Some(r))];
    }

    method Fail(key: Key, indeterminate: bool)
      requires key in records
      modifies this
      ensures records == WithFailure(old(records), key, indeterminate)
    {
      records := records[key := records[key].(status := if indeterminate then Indeterminate else Failed)];
    }
  }

  // ---------------------------------------------------------------------------------------------
  // One execution, start to end

  datatype Outcome = Returned(r: Result) | Raised

  /** What a single handler invocation does. */
  datatype Reply = Value(r: Result) | RetryableError | FinalError

  predicate Unavailable(records: map<Key, Record>, key: Key) {
    key in records && records[key].status != Failed
  }

  /** What a caller who could not reserve gets: the result, if there is one. */
  function Stored(record: Record): Outcome {
    if record.status == Completed && record.result.Some? then Returned(record.result.value) else Raised
  }

  /** The record agrees with what the call came to. A result without an invocation is from the cache. An
      error leaves no result behind, except one that was completed and then interrupted in its cache
      write; without an invocation the record is still started. */
  predicate Tells(record: Record, outcome: Outcome, invocations: nat, tool: Tool, cacheOn: bool) {
    var cacheable := cacheOn && tool.sideEffect in {NoEffect, Read} && tool.idempotency == Idempotent;
    match outcome
    case Returned(r) => record == Record(Completed, Some(r)) && (invocations == 0 ==> cacheable)
    case Raised =>
      if invocations == 0 then record == Record(Started, None)
      else
        && record.status == (if tool.sideEffect in {NoEffect, Read} then Failed else Indeterminate)
        && (record.result.Some? ==> cacheable)
  }

  class ToolExecutor {
    const store: InMemoryToolExecutionStore

    constructor (store: InMemoryToolExecutionStore)
      ensures this.store == store
    {
      this.store := store;
    }

    /** The retry loop: at most `Attempts(tool)` invocations, and another one only after a retryable
        error. A cancellation during an invocation is its final error; one during the pause after a
        retryable error ends the loop with attempts left. */
    method InvokeWithRetries(tool: Tool)
      returns (outcome: Outcome, invocations: nat, ghost replies: seq<Reply>, ghost cancelled: bool)
      requires tool.maxAttempts >= 1
      ensures 1 <= invocations <= Attempts(tool) && |replies| == invocations
      ensures tool.idempotency == NonIdempotent ==> invocations == 1
      ensures forall i :: 0 <= i < invocations - 1 ==> replies[i] == RetryableError
      ensures outcome.Returned? <==> replies[invocations - 1].Value?
      ensures outcome.Returned? ==> replies[invocations - 1].r == outcome.r
      ensures outcome.Raised? && replies[invocations - 1] != FinalError && !cancelled ==>
                invocations == if tool.idempotency == NonIdempotent then 1 else tool.maxAttempts
      ensures cancelled ==> replies[invocations - 1] == RetryableError && invocations < tool.maxAttempts
    {
      invocations, replies, cancelled := 0, [], false;
      while true
        invariant invocations == |replies| < Attempts(tool) && !cancelled
        invariant forall i :: 0 <= i < invocations ==> replies[i] == RetryableError
        decreases Attempts(tool) - invocations
      {
        var reply: Reply := *;
        invocations, replies := invocations + 1, replies + [reply];
        if reply.Value? {
          return Returned(reply.r), invocations, replies, false;
        }
        if reply.FinalError? || invocations == Attempts(tool) {
          return Raised, invocations, replies, false;
        }
        var interrupted: bool := *;
        if interrupted {
          return Raised, invocations, replies, true;
        }
      }
    }

    /** The handler and everything after it. */
    method RunHandler(key: Key, tool: Tool, cacheOn: bool) returns (outcome: Outcome, invocations: nat)
      requires tool.maxAttempts >= 1 && key in store.records && store.records[key] == Record(Started, None)
      modifies store
      ensures key in store.records && store.records == old(store.records)[key := store.records[key]]
      ensures 1 <= invocations <= Attempts(tool)
      ensures Tells(store.records[key], outcome, invocations, tool, cacheOn)
    {
      ghost var replies, cancelledAsleep;
      outcome, invocations, replies, cancelledAsleep := InvokeWithRetries(tool);
      var refused: bool := *;     // output schema, output policy, size limit
      if outcome.Raised? || refused {
        store.Fail(key, SideEffecting(tool));
        return Raised, invocations;
      }
      var transformed: Result := *;     // the output policy may replace the value
      store.Complete(key, transformed);
      var cancelled: bool := *;
      if Cacheable(cacheOn, tool) && cancelled {
        store.Fail(key, SideEffecting(tool));
        return Raised, invocations;
      }
      return Returned(transformed), invocations;
    }

    /** `execute` by one caller, nobody else using the key meanwhile. `admitted` tells that permissions,
        input schema and the policy before the tool let it pass. A stored result is returned without
        invoking the handler and an unfinished record refuses; otherwise the record ends telling the
        outcome, except that a cancellation before the handler leaves it started. */
    method Execute(key: Key, tool: Tool, cacheOn: bool, admitted: bool) returns (outcome: Outcome, invocations: nat)
      requires tool.maxAttempts >= 1
      modifies store
      ensures !admitted ==> outcome.Raised? && invocations == 0 && store.records == old(store.records)
      ensures admitted && Unavailable(old(store.records), key) ==>
                invocations == 0 && store.records == old(store.records) && outcome == Stored(old(store.records)[key])
      ensures admitted && key in old(store.records) && old(store.records)[key].status == Completed ==>
                && invocations == 0
                && outcome == if old(store.records)[key].result.Some? then Returned(old(store.records)[key].result.value)
                              else Raised
      ensures admitted && key in old(store.records) && old(store.records)[key].status in {Started, Indeterminate} ==>
                invocations == 0 && outcome == Raised
      ensures admitted && !Unavailable(old(store.records), key) ==>
                && key in store.records && store.records == old(store.records)[key := store.records[key]]
                && invocations <= Attempts(tool)
                && Tells(store.records[key], outcome, invocations, tool, cacheOn)
    {
      if !admitted {
        return Raised, 0;
      }
      var record, reserved := store.Begin(key);
      if !reserved {
        return if record.status == Completed && record.result.Some? then Returned(record.result.value) else Raised, 0;
      }
      var interrupted: bool := *;     // looking into the cache, or waiting for the semaphore
      if interrupted {
        return Raised, 0;
      }
      var cached: Option<Result> := *;
      if Cacheable(cacheOn, tool) && cached.Some? {
        store.Complete(key, cached.value);
        return Returned(cached.value), 0;
      }
      outcome, invocations := RunHandler(key, tool, cacheOn);
    }
  }

  // ---------------------------------------------------------------------------------------------
  // Concurrent executions

  /** Where a reserved execution stands between two suspension points. */
  datatype Phase =
    | Reserved                    // looking into the cache, or waiting for the semaphore
    | Invoking(attempt: nat)      // inside the handler, or asleep after that attempt
    | Checking(r: Result)         // the handler returned
    | Storing(r: Result)          // recorded as completed, writing the cache
    | Failing                     // an exception is about to be recorded

  datatype Call = Call(key: Key, tool: Tool)

  /** `next` numbers the reservations; `calls` and `invoked` remember all of them for ever. */
  datatype System = System(
    cacheOn: bool, records: map<Key, Record>, running: map<nat, Phase>,
    next: nat, calls: map<nat, Call>, invoked: map<nat, nat>)

  datatype Step =
    | Begin(call: Call)                 // reserve, or be turned away
    | CacheHit(e: nat, r: Result)
    | Invoke(e: nat)                    // first or next attempt
    | Reply(e: nat, r: Result)
    | Transform(e: nat, r: Result)      // the output policy
    | Finish(e: nat)                    // record the result
    | CacheWritten(e: nat)
    | Raise(e: nat)                     // handler error, refused output, cancellation
    | RecordFailure(e: nat)
    | Vanish(e: nat)                    // crash, or cancellation where no handler catches it

  function Initial(cacheOn: bool): System {
    System(cacheOn, map[], map[], 0, map[], map[])
  }

  predicate WellFormed(sys: System) {
    && sys.running.Keys <= sys.calls.Keys && sys.invoked.Keys == sys.calls.Keys
    && (forall e :: e in sys.running ==> sys.calls[e].key in sys.records)
  }

  predicate Enabled(sys: System, step: Step)
    requires WellFormed(sys)
  {
    match step
    case Begin(_) => true
    case CacheHit(e, _) => e in sys.running && sys.running[e].Reserved? && Cacheable(sys.cacheOn, sys.calls[e].tool)
    case Invoke(e) =>
      e in sys.running && (sys.running[e].Reserved? || sys.running[e].Invoking?)
      && sys.invoked[e] < Attempts(sys.calls[e].tool)
    case Reply(e, _) => e in sys.running && sys.running[e].Invoking?
    case Transform(e, _) => e in sys.running && sys.running[e].Checking?
    case Finish(e) => e in sys.running && sys.running[e].Checking?
    case CacheWritten(e) => e in sys.running && sys.running[e].Storing?
    case Raise(e) => e in sys.running && !sys.running[e].Reserved?
    case RecordFailure(e) => e in sys.running && sys.running[e].Failing?
    case Vanish(e) => e in sys.running
  }

  function Apply(sys: System, step: Step): System
    requires WellFormed(sys) && Enabled(sys, step)
  {
    match step
    case Begin(call) =>
      var (records, reserved) := Begun(sys.records, call.key);
      if reserved then
        sys.(records := records, running := sys.running[sys.next := Reserved], next := sys.next + 1,
             calls := sys.calls[sys.next := call], invoked := sys.invoked[sys.next := 0])
      else sys
    case CacheHit(e, r) =>
      sys.(records := WithResult(sys.records, sys.calls[e].key, r), running := sys.running - {e})
    case Invoke(e) =>
      sys.(running := sys.running[e := Invoking(sys.invoked[e] + 1)], invoked := sys.invoked[e := sys.invoked[e] + 1])
    case Reply(e, r) => sys.(running := sys.running[e := Checking(r)])
    case Transform(e, r) => sys.(running := sys.running[e := Checking(r)])
    case Finish(e) =>
      var r := sys.running[e].r;
      sys.(records := WithResult(sys.records, sys.calls[e].key, r),
           running := if Cacheable(sys.cacheOn, sys.calls[e].tool) then sys.running[e := Storing(r)] else sys.running - {e})
    case CacheWritten(e) => sys.(running := sys.running - {e})
    case Raise(e) => sys.(running := sys.running[e := Failing])
    case RecordFailure(e) =>
      sys.(records := WithFailure(sys.records, sys.calls[e].key, SideEffecting(sys.calls[e].tool)),
           running := sys.running - {e})
    case Vanish(e) => sys.(running := sys.running - {e})
  }

  // ---------------------------------------------------------------------------------------------
  // The invariant

  /** A running execution is the latest, and so the only running one, on its key, and its phase matches the record. */
  ghost predicate RunningOk(sys: System, e: nat)
    requires WellFormed(sys) && e in sys.running
  {
    var call, phase := sys.calls[e], sys.running[e];
    var record := sys.records[call.key];
    && (forall e' :: e' in sys.calls && sys.calls[e'].key == call.key ==> e' <= e)
    && (phase.Storing? ==> record == Record(Completed, Some(phase.r)) && Cacheable(sys.cacheOn, call.tool))
    && (phase.Failing? ==> record.status == Started || (record.status == Completed && Cacheable(sys.cacheOn, call.tool)))
    && (!phase.Storing? && !phase.Failing? ==> record.status == Started)
  }

  /** After a side-effecting reservation its key is never available again. */
  ghost predicate ReservationOk(sys: System, e: nat)
    requires WellFormed(sys) && e in sys.calls
  {
    var call := sys.calls[e];
    && e < sys.next
    && call.key in sys.records
    && sys.invoked[e] <= Attempts(call.tool)
    && (SideEffecting(call.tool) ==>
          && sys.records[call.key].status != Failed
          && forall e' :: e' in sys.calls && sys.calls[e'].key == call.key ==> e' <= e)
  }

  /** A completed record has its result. */
  ghost predicate ResultsAreThere(records: map<Key, Record>) {
    forall key :: key in records && records[key].status == Completed ==> records[key].result.Some?
  }

  ghost predicate Inv(sys: System) {
    && WellFormed(sys)
    && (forall e :: e in sys.running ==> RunningOk(sys, e))
    && (forall e :: e in sys.calls ==> ReservationOk(sys, e))
    && ResultsAreThere(sys.records)
  }

  /** A reservation in force keeps its key from being reserved again. */
  lemma BeginSparesRunning(sys: System, call: Call, e: nat)
    requires WellFormed(sys) && WellFormed(Apply(sys, Begin(call)))
    requires e in sys.running && e != sys.next && RunningOk(sys, e) && ReservationOk(sys, e)
    ensures RunningOk(Apply(sys, Begin(call)), e)
  {
    assert sys.calls[e].key == call.key ==> Apply(sys, Begin(call)) == sys;
  }

  lemma BeginSparesReservation(sys: System, call: Call, e: nat)
    requires WellFormed(sys) && WellFormed(Apply(sys, Begin(call)))
    requires e in sys.calls && e != sys.next && ReservationOk(sys, e)
    ensures ReservationOk(Apply(sys, Begin(call)), e)
  {
    if sys.calls[e].key == call.key && SideEffecting(sys.calls[e].tool) {
      assert Apply(sys, Begin(call)) == sys;
    }
  }

  lemma NewReservationIsOk(sys: System, call: Call)
    requires Inv(sys) && Begun(sys.records, call.key).1
    ensures var next := Apply(sys, Begin(call));
            WellFormed(next) && RunningOk(next, sys.next) && ReservationOk(next, sys.next)
  {
    forall e | e in sys.calls ensures e < sys.next {
      assert ReservationOk(sys, e);
    }
  }

  lemma BeginKeepsInv(sys: System, call: Call)
    requires Inv(sys)
    ensures Inv(Apply(sys, Begin(call)))
  {
    if Begun(sys.records, call.key).1 {
      var next := Apply(sys, Begin(call));
      NewReservationIsOk(sys, call);
      forall e | e in next.running ensures RunningOk(next, e) {
        if e != sys.next {
          BeginSparesRunning(sys, call, e);
        }
      }
      forall e | e in next.calls ensures ReservationOk(next, e) {
        if e != sys.next {
          BeginSparesReservation(sys, call, e);
        }
      }
    }
  }

  lemma OwnStepIsWellFormed(sys: System, step: Step)
    requires WellFormed(sys) && Enabled(sys, step) && !step.Begin?
    ensures WellFormed(Apply(sys, step))
  {
  }

  lemma OtherReservationStays(sys: System, step: Step, e: nat)
    requires WellFormed(sys) && Enabled(sys, step) && !step.Begin? && WellFormed(Apply(sys, step))
    requires step.e in sys.running && e in sys.calls && e != step.e && sys.calls[e].key != sys.calls[step.e].key
    requires ReservationOk(sys, e)
    ensures ReservationOk(Apply(sys, step), e)
  {
    assert Apply(sys, step).calls == sys.calls && Apply(sys, step).invoked[e] == sys.invoked[e];
  }

  lemma SharedReservationStays(sys: System, step: Step, e: nat)
    requires WellFormed(sys) && Enabled(sys, step) && !step.Begin? && WellFormed(Apply(sys, step))
    requires step.e in sys.running && RunningOk(sys, step.e) && ReservationOk(sys, step.e)
    requires e in sys.calls && sys.calls[e].key == sys.calls[step.e].key && ReservationOk(sys, e)
    ensures ReservationOk(Apply(sys, step), e)
  {
    assert Apply(sys, step).calls == sys.calls;
    assert SideEffecting(sys.calls[e].tool) ==> e == step.e;
  }

  lemma OwnStepKeepsReservations(sys: System, step: Step)
    requires Inv(sys) && Enabled(sys, step) && !step.Begin?
    ensures WellFormed(Apply(sys, step))
    ensures forall e :: e in sys.calls ==> ReservationOk(Apply(sys, step), e)
  {
    OwnStepIsWellFormed(sys, step);
    forall e | e in sys.calls ensures ReservationOk(Apply(sys, step), e) {
      if sys.calls[e].key == sys.calls[step.e].key {
        SharedReservationStays(sys, step, e);
      } else {
        OtherReservationStays(sys, step, e);
      }
    }
  }

  lemma OtherStaysOk(sys: System, step: Step, e: nat)
    requires WellFormed(sys) && Enabled(sys, step) && !step.Begin? && WellFormed(Apply(sys, step))
    requires step.e in sys.running && RunningOk(sys, step.e)
    requires e in sys.running && e != step.e && RunningOk(sys, e)
    ensures RunningOk(Apply(sys, step), e)
  {
    assert sys.calls[e].key != sys.calls[step.e].key;
  }

  lemma OwnIsOk(sys: System, step: Step)
    requires WellFormed(sys) && Enabled(sys, step) && !step.Begin? && WellFormed(Apply(sys, step))
    requires step.e in sys.running && RunningOk(sys, step.e) && step.e in Apply(sys, step).running
    ensures RunningOk(Apply(sys, step), step.e)
  {
  }

  lemma OwnStepKeepsInv(sys: System, step: Step)
    requires Inv(sys) && Enabled(sys, step) && !step.Begin?
    ensures Inv(Apply(sys, step))
  {
    var next := Apply(sys, step);
    OwnStepKeepsReservations(sys, step);
    forall e | e in next.running ensures RunningOk(next, e) {
      if e == step.e {
        OwnIsOk(sys, step);
      } else {
        OtherStaysOk(sys, step, e);
      }
    }
  }

  // ---------------------------------------------------------------------------------------------
  // Whole executions

  ghost predicate Steps(systems: seq<System>, steps: seq<Step>) {
    && |systems| == |steps| + 1
    && forall i :: 0 <= i < |steps| ==>
         WellFormed(systems[i]) && Enabled(systems[i], steps[i]) && systems[i + 1] == Apply(systems[i], steps[i])
  }

  ghost predicate Execution(cacheOn: bool, systems: seq<System>, steps: seq<Step>) {
    Steps(systems, steps) && systems[0] == Initial(cacheOn)
  }

  lemma {:induction false} ExecutionKeepsInv(cacheOn: bool, systems: seq<System>, steps: seq<Step>, i: nat)
    requires Execution(cacheOn, systems, steps) && i < |systems|
    ensures Inv(systems[i]) && systems[i].cacheOn == cacheOn
  {
    if i == 0 {
    } else {
      ExecutionKeepsInv(cacheOn, systems, steps, i - 1);
      if steps[i - 1].Begin? {
        BeginKeepsInv(systems[i - 1], steps[i - 1].call);
      } else {
        OwnStepKeepsInv(systems[i - 1], steps[i - 1]);
      }
    }
  }

  /** At most once: whatever was retried, run concurrently, cancelled or crashed, the handlers of
      side-effecting calls with one idempotency key were invoked under a single reservation, and
      only once if the tool is not idempotent. */
  lemma {:induction false} SideEffectsUnderOneReservation(
      cacheOn: bool, systems: seq<System>, steps: seq<Step>, i: nat, e: nat, e': nat)
    requires Execution(cacheOn, systems, steps) && i < |systems|
    requires var sys := systems[i];
             && e in sys.calls && e' in sys.calls && e in sys.invoked && e' in sys.invoked
             && sys.calls[e].key == sys.calls[e'].key
             && sys.calls[e].tool.sideEffect in {Write, External, Destructive}
             && sys.calls[e'].tool.sideEffect in {Write, External, Destructive}
    ensures e == e'
    ensures systems[i].invoked[e] <=
            if systems[i].calls[e].tool.idempotency == NonIdempotent then 1 else systems[i].calls[e].tool.maxAttempts
  {
    ExecutionKeepsInv(cacheOn, systems, steps, i);
    assert ReservationOk(systems[i], e) && ReservationOk(systems[i], e');
  }

  /** Settled: completed, and the call that completed it has returned. */
  ghost predicate Settled(sys: System, key: Key)
    requires WellFormed(sys)
  {
    && key in sys.records && sys.records[key].status == Completed
    && forall e :: e in sys.running ==> sys.calls[e].key != key
  }

  /** `next` did nothing to a settled key. */
  ghost predicate Undisturbed(sys: System, next: System, key: Key)
    requires WellFormed(sys) && Settled(sys, key)
  {
    && WellFormed(next) && Settled(next, key) && next.records[key] == sys.records[key]
    && forall e :: e in next.calls && next.calls[e].key == key ==>
         e in sys.calls && next.invoked[e] == sys.invoked[e] && next.calls[e] == sys.calls[e]
  }

  lemma SettledBegin(sys: System, call: Call, key: Key)
    requires Inv(sys) && Settled(sys, key)
    ensures Undisturbed(sys, Apply(sys, Begin(call)), key)
  {
    BeginKeepsInv(sys, call);
    assert forall e :: e in sys.calls ==> ReservationOk(sys, e);
    if call.key == key {
      assert Apply(sys, Begin(call)) == sys;
    }
  }

  lemma SettledStep(sys: System, step: Step, key: Key)
    requires Inv(sys) && Settled(sys, key) && Enabled(sys, step)
    ensures Undisturbed(sys, Apply(sys, step), key)
  {
    if step.Begin? {
      SettledBegin(sys, step.call, key);
    } else {
      OwnStepKeepsInv(sys, step);
      assert sys.calls[step.e].key != key;
    }
  }

  /** Once settled, a key keeps its result: it is never reserved or invoked again, and whoever asks
      is turned away with that result. */
  lemma {:induction false} SettledIsFinal(cacheOn: bool, systems: seq<System>, steps: seq<Step>, i: nat, j: nat, key: Key)
    requires Execution(cacheOn, systems, steps) && i <= j < |systems|
    requires WellFormed(systems[i]) && Settled(systems[i], key)
    ensures WellFormed(systems[j]) && Settled(systems[j], key)
    ensures systems[j].records[key] == systems[i].records[key]
    ensures Begun(systems[j].records, key) == (systems[j].records, false)
    ensures systems[i].records[key].result.Some?
    ensures Stored(systems[j].records[key]) == Returned(systems[i].records[key].result.value)
    ensures forall e :: e in systems[j].calls && systems[j].calls[e].key == key ==>
              && e in systems[i].calls && e in systems[j].invoked && e in systems[i].invoked
              && systems[j].invoked[e] == systems[i].invoked[e]
  {
    ExecutionKeepsInv(cacheOn, systems, steps, i);
    if i < j {
      SettledIsFinal(cacheOn, systems, steps, i, j - 1, key);
      ExecutionKeepsInv(cacheOn, systems, steps, j - 1);
      SettledStep(systems[j - 1], steps[j - 1], key);
    }
  }

  /** The result is there to be returned. */
  lemma {:induction false} CompletedCallsHoldTheirResult(
      cacheOn: bool, systems: seq<System>, steps: seq<Step>, i: nat, key: Key)
    requires Execution(cacheOn, systems, steps) && i < |systems| && key in systems[i].records
    ensures systems[i].records[key].status == Completed ==> systems[i].records[key].result.Some?
  {
    ExecutionKeepsInv(cacheOn, systems, steps, i);
  }

  // ---------------------------------------------------------------------------------------------
  // When exactly completion is permanent

  predicate OnlyCalls(steps: seq<Step>, tool: Tool) {
    forall k :: 0 <= k < |steps| && steps[k].Begin? ==> steps[k].call.tool == tool
  }

  predicate StillCompleted(sys: System, key: Key) {
    key in sys.records && sys.records[key].status == Completed
  }

  /** In every execution in which only `tool` is called, a completed record stays completed. */
  ghost predicate CompletionIsPermanent(cacheOn: bool, tool: Tool) {
    forall systems: seq<System>, steps: seq<Step>, i: nat, j: nat, key: Key ::
      && Execution(cacheOn, systems, steps) && i <= j < |systems|
      && OnlyCalls(steps, tool) && StillCompleted(systems[i], key)
      ==> StillCompleted(systems[j], key)
  }

  lemma {:induction false} CallsUseTheTool(
      cacheOn: bool, systems: seq<System>, steps: seq<Step>, i: nat, tool: Tool)
    requires Execution(cacheOn, systems, steps) && i < |systems| && OnlyCalls(steps, tool)
    ensures forall e :: e in systems[i].calls ==> systems[i].calls[e].tool == tool
  {
    if i == 0 {
    } else {
      CallsUseTheTool(cacheOn, systems, steps, i - 1, tool);
      assert steps[i - 1].Begin? ==> steps[i - 1].call.tool == tool;
      assert systems[i] == Apply(systems[i - 1], steps[i - 1]);
    }
  }

  /** A cacheable call is still running while it writes the cache after recording its result; a
      cancellation there records a failure over the result. */
  function LosingSteps(tool: Tool): seq<Step> {
    [Begin(Call("run:call", tool)), Invoke(0), Reply(0, 7), Finish(0), Raise(0), RecordFailure(0)]
  }

  function LosingSystem(tool: Tool, n: nat): System {
    var calls := map[0 := Call("run:call", tool)];
    var started := map["run:call" := Record(Started, None)];
    var done := map["run:call" := Record(Completed, Some(7))];
    if n == 0 then Initial(true)
    else if n == 1 then System(true, started, map[0 := Reserved], 1, calls, map[0 := 0])
    else if n == 2 then System(true, started, map[0 := Invoking(1)], 1, calls, map[0 := 1])
    else if n == 3 then System(true, started, map[0 := Checking(7)], 1, calls, map[0 := 1])
    else if n == 4 then System(true, done, map[0 := Storing(7)], 1, calls, map[0 := 1])
    else if n == 5 then System(true, done, map[0 := Failing], 1, calls, map[0 := 1])
    else System(true, map["run:call" := Record(Failed, Some(7))], map[], 1, calls, map[0 := 1])
  }

  ghost predicate LosesAt(tool: Tool, n: nat)
    requires n < 6
  {
    && WellFormed(LosingSystem(tool, n)) && Enabled(LosingSystem(tool, n), LosingSteps(tool)[n])
    && LosingSystem(tool, n + 1) == Apply(LosingSystem(tool, n), LosingSteps(tool)[n])
  }

  lemma LosingBegin(tool: Tool)
    requires Cacheable(true, tool) && tool.maxAttempts >= 1
    ensures LosesAt(tool, 0)
  {
  }

  lemma LosingInvoke(tool: Tool)
    requires Cacheable(true, tool) && tool.maxAttempts >= 1
    ensures LosesAt(tool, 1)
  {
  }

  lemma LosingReply(tool: Tool)
    requires Cacheable(true, tool) && tool.maxAttempts >= 1
    ensures LosesAt(tool, 2)
  {
  }

  lemma LosingFinish(tool: Tool)
    requires Cacheable(true, tool) && tool.maxAttempts >= 1
    ensures LosesAt(tool, 3)
  {
  }

  lemma LosingCancel(tool: Tool)
    requires Cacheable(true, tool) && tool.maxAttempts >= 1
    ensures LosesAt(tool, 4)
  {
  }

  lemma LosingRecord(tool: Tool)
    requires Cacheable(true, tool) && tool.maxAttempts >= 1
    ensures LosesAt(tool, 5)
  {
  }

  lemma LosingStep(tool: Tool, n: nat)
    requires Cacheable(true, tool) && tool.maxAttempts >= 1 && n < 6
    ensures LosesAt(tool, n)
  {
    if n == 0 {
      LosingBegin(tool);
    } else if n == 1 {
      LosingInvoke(tool);
    } else if n == 2 {
      LosingReply(tool);
    } else if n == 3 {
      LosingFinish(tool);
    } else if n == 4 {
      LosingCancel(tool);
    } else {
      LosingRecord(tool);
    }
  }

  lemma CancelledCacheWriteLosesCompletion(tool: Tool)
    returns (systems: seq<System>, steps: seq<Step>)
    requires Cacheable(true, tool) && tool.maxAttempts >= 1
    ensures Execution(true, systems, steps) && OnlyCalls(steps, tool) && |systems| == 7
    ensures StillCompleted(systems[4], "run:call") && !StillCompleted(systems[6], "run:call")
    ensures Begun(systems[6].records, "run:call").1
  {
    steps := LosingSteps(tool);
    systems := seq(7, n requires 0 <= n < 7 => LosingSystem(tool, n));
    forall n | 0 <= n < |steps|
      ensures WellFormed(systems[n]) && Enabled(systems[n], steps[n]) && systems[n + 1] == Apply(systems[n], steps[n])
    {
      LosingStep(tool, n);
    }
  }

  lemma {:induction false} UncacheableCompletionIsPermanent(
      cacheOn: bool, tool: Tool, systems: seq<System>, steps: seq<Step>, i: nat, j: nat, key: Key)
    requires !Cacheable(cacheOn, tool)
    requires Execution(cacheOn, systems, steps) && OnlyCalls(steps, tool) && i <= j < |systems|
    requires StillCompleted(systems[i], key)
    ensures StillCompleted(systems[j], key)
  {
    ExecutionKeepsInv(cacheOn, systems, steps, i);
    CallsUseTheTool(cacheOn, systems, steps, i, tool);
    assert Settled(systems[i], key) by {
      forall e | e in systems[i].running ensures systems[i].calls[e].key != key {
        assert RunningOk(systems[i], e);
      }
    }
    SettledIsFinal(cacheOn, systems, steps, i, j, key);
  }

  /** Completion is permanent exactly for the calls whose result is not written to the cache. */
  lemma {:induction false} CompletionIsPermanentIffUncacheable(cacheOn: bool, tool: Tool)
    requires tool.maxAttempts >= 1
    ensures CompletionIsPermanent(cacheOn, tool) <==>
            !cacheOn || tool.sideEffect in {Write, External, Destructive} || tool.idempotency != Idempotent
  {
    EffectsOfOneKind(tool);
    if Cacheable(cacheOn, tool) {
      var systems, steps := CancelledCacheWriteLosesCompletion(tool);
      assert !StillCompleted(systems[6], "run:call");
    } else {
      forall systems: seq<System>, steps: seq<Step>, i: nat, j: nat, key: Key |
        && Execution(cacheOn, systems, steps) && i <= j < |systems|
        && OnlyCalls(steps, tool) && StillCompleted(systems[i], key)
        ensures StillCompleted(systems[j], key)
      {
        UncacheableCompletionIsPermanent(cacheOn, tool, systems, steps, i, j, key);
      }
    }
  }
}
