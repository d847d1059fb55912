/** Single-flight loading above the cache: concurrent misses on one key share one loader run.

    `InflightTable` holds the map of futures in flight, changed in place. The state machine runs any
    number of concurrent `get_or_set_json` calls over it; a step is what one call does between two
    suspension points. The steps that settle a future and drop its entry are kept apart, so a call
    may also join a future that is settled and not yet dropped. */
module SingleFlight {
  import opened Wrappers

  /** A JSON value; a cached null reads as a miss. */
  datatype Value = Null | Json(text: string)

  /** Raised stands for any exception, a cancellation among them. */
  datatype Outcome = Returned(value: Value) | Raised(error: string)

  datatype Future = Future(key: string, owner: nat, outcome: Option<Outcome>)

  datatype Table = Table(inflight: map<string, nat>, futures: seq<Future>)

  // ---------------------------------------------------------------------------------------------
  // The table of futures

  ghost predicate Indexed(t: Table) {
    forall k :: k in t.inflight ==> t.inflight[k] < |t.futures| && t.futures[t.inflight[k]].key == k
  }

  function Joined(t: Table, key: string, caller: nat): Table {
    if key in t.inflight then t
    else Table(t.inflight[key := |t.futures|], t.futures + [Future(key, caller, None)])
  }

  /** A future that is done keeps the outcome it has. */
  function Settled(t: Table, f: nat, outcome: Outcome): Table
    requires f < |t.futures|
  {
    if t.futures[f].outcome.Some? then t
    else t.(futures := t.futures[f := t.futures[f].(outcome := Some(outcome))])
  }

  function Released(t: Table, key: string): Table {
    t.(inflight := t.inflight - {key})
  }

  class InflightTable {
    var inflight: map<string, nat>
    var futures: seq<Future>

    function Contents(): Table
      reads this
    {
      Table(inflight, futures)
    }

    constructor ()
      ensures Contents() == Table(map[], []) && Indexed(Contents())
    {
      inflight, futures := map[], [];
    }

    /** The locked section: the call becomes the owner of a new future exactly when its key has no
        future in flight. */
    method Join(key: string, caller: nat) returns (future: nat, owner: bool)
      requires Indexed(Contents())
      modifies this
      ensures Indexed(Contents()) && Contents() == Joined(old(Contents()), key, caller)
      ensures owner <==> key !in old(inflight)
      ensures future < |futures| && inflight == old(inflight)[key := future]
      ensures owner ==> future == |old(futures)| && futures[future] == Future(key, caller, None)
    {
      owner := false;
      if key in inflight {
        future := inflight[key];
      } else {
        future := |futures|;
        futures := futures + [Future(key, caller, None)];
        inflight := inflight[key := future];
        owner := true;
      }
    }

    method Settle(future: nat, outcome: Outcome)
      requires Indexed(Contents()) && future < |futures|
      modifies this`futures
      ensures Indexed(Contents()) && Contents() == Settled(old(Contents()), future, outcome)
      ensures futures[future].outcome ==
              if old(futures[future].outcome).Some? then old(futures[future].outcome) else Some(outcome)
    {
      if futures[future].outcome.None? {
        futures := futures[future := futures[future].(outcome := Some(outcome))];
      }
    }

    method Release(key: string)
      requires Indexed(Contents())
      modifies this`inflight
      ensures Indexed(Contents()) && Contents() == Released(old(Contents()), key)
      ensures key !in inflight && forall k :: k != key ==> (k in inflight <==> k in old(inflight))
    {
      inflight := inflight - {key};
    }
  }

  // ---------------------------------------------------------------------------------------------
  // Concurrent calls

  /** How a finished call came by its outcome. */
  datatype Via = Cache | Own(future: nat) | Shared(future: nat) | Cancelled

  datatype Phase =
    | Looking
    | Missed
    | Loading(future: nat)
    | Storing(future: nat, value: Value)
    | Leaving(future: nat, outcome: Outcome)
    | Following(future: nat)
    | Done(outcome: Outcome, via: Via)

  datatype Caller = Caller(key: string, phase: Phase)

  /** `loaded` records what loader runs have returned, by key. */
  datatype System = System(table: Table, callers: map<nat, Caller>, store: map<string, Value>, loaded: set<(string, Value)>)

  /** Interrupted: encoding failed or the call was cancelled, before or after the store took the
      value. Any other trouble in the store is swallowed. */
  datatype Storage = Stored | Skipped | Interrupted(error: string, stored: bool)

  datatype Step =
    | Call(c: nat, key: string)
    | Look(c: nat, failed: bool)
    | Join(c: nat)
    | Load(c: nat, outcome: Outcome)
    | Store(c: nat, storage: Storage)
    | Leave(c: nat)
    | Receive(c: nat)
    | Cancel(c: nat, error: string)
    | Evict(key: string)

  function Initial(): System {
    System(Table(map[], []), map[], map[], {})
  }

  predicate Enabled(sys: System, step: Step) {
    match step
    case Call(c, _) => c !in sys.callers
    case Look(c, _) => c in sys.callers && sys.callers[c].phase.Looking?
    case Join(c) => c in sys.callers && sys.callers[c].phase.Missed?
    case Load(c, _) => c in sys.callers && sys.callers[c].phase.Loading?
    case Store(c, _) => c in sys.callers && sys.callers[c].phase.Storing?
    case Leave(c) => c in sys.callers && sys.callers[c].phase.Leaving?
    case Receive(c) =>
      && c in sys.callers && sys.callers[c].phase.Following?
      && var f := sys.callers[c].phase.future; f < |sys.table.futures| && sys.table.futures[f].outcome.Some?
    case Cancel(c, _) =>
      && c in sys.callers
      && (sys.callers[c].phase.Looking? || sys.callers[c].phase.Missed? || sys.callers[c].phase.Following?)
    case Evict(_) => true
  }

  function Move(sys: System, c: nat, phase: Phase): System
    requires c in sys.callers
  {
    sys.(callers := sys.callers[c := sys.callers[c].(phase := phase)])
  }

  function Cached(sys: System, key: string): Option<Value> {
    if key in sys.store && sys.store[key] != Null then Some(sys.store[key]) else None
  }

  /** The owner settles its future with what it is about to return or raise. */
  function Settle(sys: System, c: nat, f: nat, outcome: Outcome): System
    requires c in sys.callers
  {
    if f < |sys.table.futures| then
      Move(sys, c, Leaving(f, outcome)).(table := Settled(sys.table, f, outcome))
    else Move(sys, c, Leaving(f, outcome))
  }

  function AfterLoad(sys: System, c: nat, outcome: Outcome): System
    requires Enabled(sys, Load(c, outcome))
  {
    var f := sys.callers[c].phase.future;
    match outcome
    case Returned(value) =>
      Move(sys, c, Storing(f, value)).(loaded := sys.loaded + {(sys.callers[c].key, value)})
    case Raised(_) => Settle(sys, c, f, outcome)
  }

  function AfterStore(sys: System, c: nat, storage: Storage): System
    requires Enabled(sys, Store(c, storage))
  {
    var Storing(f, value) := sys.callers[c].phase;
    var put := sys.(store := sys.store[sys.callers[c].key := value]);
    match storage
    case Stored => Settle(put, c, f, Returned(value))
    case Skipped => Settle(sys, c, f, Returned(value))
    case Interrupted(error, stored) => Settle(if stored then put else sys, c, f, Raised(error))
  }

  function Apply(sys: System, step: Step): System
    requires Enabled(sys, step)
  {
    match step
    case Call(c, key) => sys.(callers := sys.callers[c := Caller(key, Looking)])
    case Look(c, failed) =>
      var hit := Cached(sys, sys.callers[c].key);
      Move(sys, c, if failed || hit.None? then Missed else Done(Returned(hit.value), Cache))
    case Join(c) =>
      var key := sys.callers[c].key;
      if key in sys.table.inflight then Move(sys, c, Following(sys.table.inflight[key]))
      else Move(sys, c, Loading(|sys.table.futures|)).(table := Joined(sys.table, key, c))
    case Load(c, outcome) => AfterLoad(sys, c, outcome)
    case Store(c, storage) => AfterStore(sys, c, storage)
    case Leave(c) =>
      Move(sys, c, Done(sys.callers[c].phase.outcome, Own(sys.callers[c].phase.future)))
      .(table := Released(sys.table, sys.callers[c].key))
    case Receive(c) =>
      var f := sys.callers[c].phase.future;
      Move(sys, c, Done(sys.table.futures[f].outcome.value, Shared(f)))
    case Cancel(c, error) => Move(sys, c, Done(Raised(error), Cancelled))
    case Evict(key) => sys.(store := sys.store - {key})
  }

  // ---------------------------------------------------------------------------------------------
  // The invariant

  /** The call is running the loader, storing its value, or about to drop its future. */
  predicate Owns(phase: Phase, f: nat) {
    (phase.Loading? || phase.Storing? || phase.Leaving?) && phase.future == f
  }

  ghost predicate Produced(sys: System, key: string, outcome: Outcome) {
    outcome.Returned? ==> (key, outcome.value) in sys.loaded
  }

  /** A future is unsettled exactly while its owner has yet to settle it; once settled it holds what
      the owner returned or raised. */
  ghost predicate FutureOk(sys: System, f: nat)
    requires f < |sys.table.futures|
  {
    var future := sys.table.futures[f];
    && future.owner in sys.callers && sys.callers[future.owner].key == future.key
    && var phase := sys.callers[future.owner].phase;
       match future.outcome
       case None => (phase.Loading? || phase.Storing?) && phase.future == f
       case Some(o) => (phase == Leaving(f, o) || phase == Done(o, Own(f))) && Produced(sys, future.key, o)
  }

  ghost predicate Refers(sys: System, key: string, f: nat) {
    f < |sys.table.futures| && sys.table.futures[f].key == key
  }

  /** The future `c` owns is the one in flight for its key. */
  ghost predicate InFlight(sys: System, c: nat, f: nat)
    requires c in sys.callers
  {
    var key := sys.callers[c].key;
    && Refers(sys, key, f) && sys.table.futures[f].owner == c
    && key in sys.table.inflight && sys.table.inflight[key] == f
  }

  ghost predicate CallerOk(sys: System, c: nat)
    requires c in sys.callers
  {
    var Caller(key, phase) := sys.callers[c];
    match phase
    case Looking => true
    case Missed => true
    case Loading(f) => InFlight(sys, c, f)
    case Storing(f, value) => InFlight(sys, c, f) && (key, value) in sys.loaded
    case Leaving(f, _) => InFlight(sys, c, f)
    case Following(f) => Refers(sys, key, f)
    case Done(o, via) =>
      if via.Own? || via.Shared? then Refers(sys, key, via.future) && sys.table.futures[via.future].outcome == Some(o)
      else Produced(sys, key, o)
  }

  ghost predicate EntryOk(sys: System, k: string)
    requires k in sys.table.inflight
  {
    var f := sys.table.inflight[k];
    && Refers(sys, k, f) && sys.table.futures[f].owner in sys.callers
    && Owns(sys.callers[sys.table.futures[f].owner].phase, f)
  }

  ghost predicate Inv(sys: System) {
    && (forall f :: 0 <= f < |sys.table.futures| ==> FutureOk(sys, f))
    && (forall c :: c in sys.callers ==> CallerOk(sys, c))
    && (forall k :: k in sys.table.inflight ==> EntryOk(sys, k))
    && (forall k :: k in sys.store ==> (k, sys.store[k]) in sys.loaded)
  }

  /** Futures keep their key, their owner and any outcome they have. */
  ghost predicate Grows(a: System, b: System) {
    && a.loaded <= b.loaded && |a.table.futures| <= |b.table.futures|
    && forall f :: 0 <= f < |a.table.futures| ==>
         && b.table.futures[f].key == a.table.futures[f].key && b.table.futures[f].owner == a.table.futures[f].owner
         && (a.table.futures[f].outcome.Some? ==> b.table.futures[f].outcome == a.table.futures[f].outcome)
  }

  lemma CallerStaysOk(a: System, b: System, c: nat)
    requires c in a.callers && CallerOk(a, c) && Grows(a, b)
    requires c in b.callers && b.callers[c] == a.callers[c]
    requires forall f :: Owns(a.callers[c].phase, f) ==> InFlight(b, c, f)
    ensures CallerOk(b, c)
  {
    var phase := a.callers[c].phase;
    if phase.Loading? || phase.Storing? || phase.Leaving? {
      assert Owns(phase, phase.future);
    }
  }

  lemma SettleKeepsInv(sys: System, c: nat, f: nat, outcome: Outcome)
    requires Inv(sys) && c in sys.callers && InFlight(sys, c, f)
    requires sys.callers[c].phase.Loading? || sys.callers[c].phase.Storing?
    requires sys.callers[c].phase.future == f && Produced(sys, sys.callers[c].key, outcome)
    ensures Inv(Settle(sys, c, f, outcome))
  {
    var next := Settle(sys, c, f, outcome);
    assert FutureOk(sys, f) && sys.table.futures[f].outcome.None?;
    forall g | 0 <= g < |next.table.futures| ensures FutureOk(next, g) {
      assert FutureOk(sys, g);
    }
    forall d | d in next.callers ensures CallerOk(next, d) {
      assert CallerOk(sys, d);
      if d != c { CallerStaysOk(sys, next, d); }
    }
    forall k | k in next.table.inflight ensures EntryOk(next, k) {
      assert EntryOk(sys, k);
    }
  }

  /** A step that neither settles a future nor touches the table. */
  lemma MoveKeepsInv(sys: System, c: nat, phase: Phase)
    requires Inv(sys) && c in sys.callers && CallerOk(Move(sys, c, phase), c)
    requires forall f :: Owns(sys.callers[c].phase, f) ==> phase.Storing? && phase.future == f && sys.callers[c].phase.Loading?
    requires !sys.callers[c].phase.Done?
    ensures Inv(Move(sys, c, phase))
  {
    var next := Move(sys, c, phase);
    forall f | 0 <= f < |next.table.futures| ensures FutureOk(next, f) {
      assert FutureOk(sys, f);
    }
    forall d | d in next.callers ensures CallerOk(next, d) {
      assert CallerOk(sys, d);
    }
    forall k | k in next.table.inflight ensures EntryOk(next, k) {
      assert EntryOk(sys, k);
    }
  }

  lemma JoinKeepsInv(sys: System, c: nat)
    requires Inv(sys) && Enabled(sys, Join(c))
    ensures Inv(Apply(sys, Join(c)))
  {
    var key := sys.callers[c].key;
    if key in sys.table.inflight {
      assert EntryOk(sys, key);
      MoveKeepsInv(sys, c, Following(sys.table.inflight[key]));
    } else {
      var next := Apply(sys, Join(c));
      forall f | 0 <= f < |next.table.futures| ensures FutureOk(next, f) {
        assert f < |sys.table.futures| ==> FutureOk(sys, f);
      }
      forall d | d in next.callers ensures CallerOk(next, d) {
        assert CallerOk(sys, d);
      }
      forall k | k in next.table.inflight ensures EntryOk(next, k) {
        assert k != key ==> EntryOk(sys, k);
      }
    }
  }

  /** The entry dropped for a key is always the leaving call's own. */
  lemma LeaveKeepsInv(sys: System, c: nat)
    requires Inv(sys) && Enabled(sys, Leave(c))
    ensures Inv(Apply(sys, Leave(c)))
  {
    var next := Apply(sys, Leave(c));
    assert CallerOk(sys, c) && FutureOk(sys, sys.callers[c].phase.future);
    forall f | 0 <= f < |next.table.futures| ensures FutureOk(next, f) {
      assert FutureOk(sys, f);
    }
    forall d | d in next.callers ensures CallerOk(next, d) {
      assert CallerOk(sys, d);
    }
    forall k | k in next.table.inflight ensures EntryOk(next, k) {
      assert EntryOk(sys, k);
    }
  }

  /** More values loaded, and a store that holds loaded values, break nothing. */
  lemma StorageKeepsInv(sys: System, store: map<string, Value>, loaded: set<(string, Value)>)
    requires Inv(sys) && sys.loaded <= loaded
    requires forall k :: k in store ==> (k, store[k]) in loaded
    ensures Inv(sys.(store := store, loaded := loaded))
  {
    var next := sys.(store := store, loaded := loaded);
    forall f | 0 <= f < |next.table.futures| ensures FutureOk(next, f) {
      assert FutureOk(sys, f);
    }
    forall d | d in next.callers ensures CallerOk(next, d) {
      assert CallerOk(sys, d);
    }
    forall k | k in next.table.inflight ensures EntryOk(next, k) {
      assert EntryOk(sys, k);
    }
  }

  lemma LoadKeepsInv(sys: System, c: nat, outcome: Outcome)
    requires Inv(sys) && Enabled(sys, Load(c, outcome))
    ensures Inv(Apply(sys, Load(c, outcome)))
  {
    assert CallerOk(sys, c);
    var f := sys.callers[c].phase.future;
    match outcome
    case Returned(value) =>
      var loaded := sys.loaded + {(sys.callers[c].key, value)};
      StorageKeepsInv(sys, sys.store, loaded);
      var wider := sys.(loaded := loaded);
      MoveKeepsInv(wider, c, Storing(f, value));
      assert Apply(sys, Load(c, outcome)) == Move(wider, c, Storing(f, value));
    case Raised(_) => SettleKeepsInv(sys, c, f, outcome);
  }

  lemma StoreKeepsInv(sys: System, c: nat, storage: Storage)
    requires Inv(sys) && Enabled(sys, Store(c, storage))
    ensures Inv(Apply(sys, Store(c, storage)))
  {
    assert CallerOk(sys, c);
    var Storing(f, value) := sys.callers[c].phase;
    var put := sys.(store := sys.store[sys.callers[c].key := value]);
    StorageKeepsInv(sys, put.store, sys.loaded);
    match storage
    case Stored => SettleKeepsInv(put, c, f, Returned(value));
    case Skipped => SettleKeepsInv(sys, c, f, Returned(value));
    case Interrupted(error, stored) => SettleKeepsInv(if stored then put else sys, c, f, Raised(error));
  }

  lemma CallKeepsInv(sys: System, c: nat, key: string)
    requires Inv(sys) && Enabled(sys, Call(c, key))
    ensures Inv(Apply(sys, Call(c, key)))
  {
    var next := Apply(sys, Call(c, key));
    forall f | 0 <= f < |next.table.futures| ensures FutureOk(next, f) {
      assert FutureOk(sys, f);
    }
    forall d | d in next.callers ensures CallerOk(next, d) {
      assert d != c ==> CallerOk(sys, d);
    }
    forall k | k in next.table.inflight ensures EntryOk(next, k) {
      assert EntryOk(sys, k);
    }
  }

  lemma StepKeepsInv(sys: System, step: Step)
    requires Inv(sys) && Enabled(sys, step)
    ensures Inv(Apply(sys, step))
  {
    match step
    case Call(c, key) => CallKeepsInv(sys, c, key);
    case Look(c, _) => MoveKeepsInv(sys, c, Apply(sys, step).callers[c].phase);
    case Join(c) => JoinKeepsInv(sys, c);
    case Load(c, outcome) => LoadKeepsInv(sys, c, outcome);
    case Store(c, storage) => StoreKeepsInv(sys, c, storage);
    case Leave(c) => LeaveKeepsInv(sys, c);
    case Receive(c) =>
      assert CallerOk(sys, c);
      MoveKeepsInv(sys, c, Apply(sys, step).callers[c].phase);
    case Cancel(c, error) => MoveKeepsInv(sys, c, Done(Raised(error), Cancelled));
    case Evict(key) => StorageKeepsInv(sys, sys.store - {key}, sys.loaded);
  }

  // ---------------------------------------------------------------------------------------------
  // Every execution

  ghost predicate Execution(states: seq<System>, steps: seq<Step>) {
    && |states| == |steps| + 1 && states[0] == Initial()
    && forall i :: 0 <= i < |steps| ==> Enabled(states[i], steps[i]) && states[i + 1] == Apply(states[i], steps[i])
  }

  lemma {:induction false} ExecutionKeepsInv(states: seq<System>, steps: seq<Step>, n: nat)
    requires Execution(states, steps) && n < |states|
    ensures Inv(states[n])
  {
    if n == 0 {
    } else {
      ExecutionKeepsInv(states, steps, n - 1);
      StepKeepsInv(states[n - 1], steps[n - 1]);
    }
  }

  /** At every moment at most one call per key runs its loader or stores what it loaded. */
  lemma OneLoaderPerKey(states: seq<System>, steps: seq<Step>, n: nat, c: nat, d: nat)
    requires Execution(states, steps) && n < |states|
    requires c in states[n].callers && d in states[n].callers
    requires states[n].callers[c].key == states[n].callers[d].key
    requires states[n].callers[c].phase.Loading? || states[n].callers[c].phase.Storing?
    requires states[n].callers[d].phase.Loading? || states[n].callers[d].phase.Storing?
    ensures c == d
  {
    ExecutionKeepsInv(states, steps, n);
    assert CallerOk(states[n], c) && CallerOk(states[n], d);
  }

  /** A call that shared a future ends as that future's owner ends, on the same key. */
  lemma FollowersShareTheOwnersOutcome(states: seq<System>, steps: seq<Step>, n: nat, c: nat)
    requires Execution(states, steps) && n < |states| && c in states[n].callers
    requires states[n].callers[c].phase.Done? && states[n].callers[c].phase.via.Shared?
    ensures var sys := states[n];
            var Done(outcome, via) := sys.callers[c].phase;
            && via.future < |sys.table.futures|
            && var owner := sys.table.futures[via.future].owner;
               && owner in sys.callers && sys.callers[owner].key == sys.callers[c].key
               && (|| sys.callers[owner].phase == Leaving(via.future, outcome)
                   || sys.callers[owner].phase == Done(outcome, Own(via.future)))
  {
    ExecutionKeepsInv(states, steps, n);
    assert CallerOk(states[n], c);
    assert FutureOk(states[n], states[n].callers[c].phase.via.future);
  }

  /** An entry in flight and an unsettled future both have an owner still at work on them. */
  lemma NothingOutlivesItsOwner(states: seq<System>, steps: seq<Step>, n: nat)
    requires Execution(states, steps) && n < |states|
    ensures forall k :: k in states[n].table.inflight ==>
              exists c :: && c in states[n].callers && states[n].callers[c].key == k
                          && Owns(states[n].callers[c].phase, states[n].table.inflight[k])
    ensures forall f :: 0 <= f < |states[n].table.futures| && states[n].table.futures[f].outcome.None? ==>
              exists c :: c in states[n].callers && Owns(states[n].callers[c].phase, f)
    ensures (forall c :: c in states[n].callers ==> states[n].callers[c].phase.Done?) ==> states[n].table.inflight == map[]
  {
    ExecutionKeepsInv(states, steps, n);
    var sys := states[n];
    forall k | k in sys.table.inflight
      ensures exists c :: && c in sys.callers && sys.callers[c].key == k
                          && Owns(sys.callers[c].phase, sys.table.inflight[k])
    {
      assert EntryOk(sys, k) && FutureOk(sys, sys.table.inflight[k]);
      assert Owns(sys.callers[sys.table.futures[sys.table.inflight[k]].owner].phase, sys.table.inflight[k]);
    }
    forall f | 0 <= f < |sys.table.futures| && sys.table.futures[f].outcome.None?
      ensures exists c :: c in sys.callers && Owns(sys.callers[c].phase, f)
    {
      assert FutureOk(sys, f);
      assert Owns(sys.callers[sys.table.futures[f].owner].phase, f);
    }
  }

  /** No call waits in vain: a follower's outcome is there, or the owner it waits for is still
      loading or storing. */
  lemma FollowersAreServed(states: seq<System>, steps: seq<Step>, n: nat, c: nat)
    requires Execution(states, steps) && n < |states|
    requires c in states[n].callers && states[n].callers[c].phase.Following?
    ensures || Enabled(states[n], Receive(c))
            || exists d ::
                 && d in states[n].callers && Owns(states[n].callers[d].phase, states[n].callers[c].phase.future)
                 && (Enabled(states[n], Load(d, Returned(Null))) || Enabled(states[n], Store(d, Skipped)))
  {
    ExecutionKeepsInv(states, steps, n);
    var sys, f := states[n], states[n].callers[c].phase.future;
    assert CallerOk(sys, c) && FutureOk(sys, f);
    if sys.table.futures[f].outcome.None? {
      var d := sys.table.futures[f].owner;
      assert Owns(sys.callers[d].phase, f);
      assert Enabled(sys, Load(d, Returned(Null))) || Enabled(sys, Store(d, Skipped));
    }
  }

  lemma {:induction false} LoadedByARun(states: seq<System>, steps: seq<Step>, n: nat, key: string, value: Value)
    requires Execution(states, steps) && n < |states| && (key, value) in states[n].loaded
    ensures exists i, d ::
              && 0 <= i < n && d in states[i].callers && states[i].callers[d].key == key
              && steps[i] == Load(d, Returned(value))
  {
    var prev, step := states[n - 1], steps[n - 1];
    if (key, value) in prev.loaded {
      LoadedByARun(states, steps, n - 1, key, value);
    } else {
      assert step.Load? && step.c in prev.callers && steps[n - 1] == Load(step.c, Returned(value));
    }
  }

  /** Whatever way a call came by its value, a loader run for the same key returned that value. */
  lemma ReturnedValuesWereLoaded(states: seq<System>, steps: seq<Step>, n: nat, c: nat)
    requires Execution(states, steps) && n < |states| && c in states[n].callers
    requires states[n].callers[c].phase.Done? && states[n].callers[c].phase.outcome.Returned?
    ensures exists i, d ::
              && 0 <= i < n && d in states[i].callers && states[i].callers[d].key == states[n].callers[c].key
              && steps[i] == Load(d, states[n].callers[c].phase.outcome)
  {
    ExecutionKeepsInv(states, steps, n);
    var sys := states[n];
    var Caller(key, Done(o, via)) := sys.callers[c];
    assert CallerOk(sys, c);
    assert (key, o.value) in sys.loaded by {
      if via.Shared? || via.Own? { assert FutureOk(sys, via.future); }
    }
    LoadedByARun(states, steps, n, key, o.value);
  }

  // ---------------------------------------------------------------------------------------------
  // What a call ends with

  ghost predicate Loaded(steps: seq<Step>, n: nat, c: nat, outcome: Outcome)
    requires n <= |steps|
  {
    exists i :: 0 <= i < n && steps[i] == Load(c, outcome)
  }

  /** The loader of the call returned the value, and then the call stored it in this way. */
  ghost predicate LoadedAndStored(steps: seq<Step>, n: nat, c: nat, value: Value, storage: Storage)
    requires n <= |steps|
  {
    exists i, j :: 0 <= i < j < n && steps[i] == Load(c, Returned(value)) && steps[j] == Store(c, storage)
  }

  /** The call ran its loader: an error is its outcome, and so is a value unless storing it was interrupted. */
  ghost predicate EndsOwn(steps: seq<Step>, n: nat, c: nat, outcome: Outcome)
    requires n <= |steps|
  {
    || (outcome.Raised? && Loaded(steps, n, c, outcome))
    || (outcome.Raised? && exists value, stored ::
          LoadedAndStored(steps, n, c, value, Interrupted(outcome.error, stored)))
    || (outcome.Returned? && exists storage: Storage ::
          !storage.Interrupted? && LoadedAndStored(steps, n, c, outcome.value, storage))
  }

  /** The call found the value in the cache. */
  ghost predicate EndsHit(states: seq<System>, steps: seq<Step>, n: nat, c: nat, outcome: Outcome)
    requires n <= |steps| < |states|
  {
    exists i ::
      && 0 <= i < n && steps[i] == Look(c, false) && c in states[i].callers && outcome.Returned? && outcome.value != Null
      && states[i].callers[c].key in states[i].store && states[i].store[states[i].callers[c].key] == outcome.value
  }

  ghost predicate EndsCancelled(steps: seq<Step>, n: nat, c: nat, outcome: Outcome)
    requires n <= |steps|
  {
    outcome.Raised? && exists i :: 0 <= i < n && steps[i] == Cancel(c, outcome.error)
  }

  /** What the steps of a call say about its phase. */
  ghost predicate Explained(states: seq<System>, steps: seq<Step>, n: nat, c: nat, phase: Phase)
    requires n <= |steps| < |states|
  {
    match phase
    case Storing(_, value) => Loaded(steps, n, c, Returned(value))
    case Leaving(_, outcome) => EndsOwn(steps, n, c, outcome)
    case Done(outcome, via) =>
      (match via
       case Own(_) => EndsOwn(steps, n, c, outcome)
       case Cache => EndsHit(states, steps, n, c, outcome)
       case Cancelled => EndsCancelled(steps, n, c, outcome)
       case Shared(_) => true)
    case _ => true
  }

  lemma EndsOwnStays(steps: seq<Step>, n: nat, c: nat, outcome: Outcome)
    requires n < |steps| && EndsOwn(steps, n, c, outcome)
    ensures EndsOwn(steps, n + 1, c, outcome)
  {
    if outcome.Returned? {
      var storage: Storage :| !storage.Interrupted? && LoadedAndStored(steps, n, c, outcome.value, storage);
      assert LoadedAndStored(steps, n + 1, c, outcome.value, storage);
    } else if !Loaded(steps, n, c, outcome) {
      var value, stored :| LoadedAndStored(steps, n, c, value, Interrupted(outcome.error, stored));
      assert LoadedAndStored(steps, n + 1, c, value, Interrupted(outcome.error, stored));
    }
  }

  lemma ExplainedStays(states: seq<System>, steps: seq<Step>, n: nat, c: nat, phase: Phase)
    requires n < |steps| < |states| && Explained(states, steps, n, c, phase)
    ensures Explained(states, steps, n + 1, c, phase)
  {
    if phase.Leaving? || (phase.Done? && phase.via.Own?) {
      EndsOwnStays(steps, n, c, phase.outcome);
    }
  }

  lemma StoreExplains(steps: seq<Step>, n: nat, c: nat, value: Value, storage: Storage)
    requires n < |steps| && steps[n] == Store(c, storage) && Loaded(steps, n, c, Returned(value))
    ensures EndsOwn(steps, n + 1, c, if storage.Interrupted? then Raised(storage.error) else Returned(value))
  {
    var i :| 0 <= i < n && steps[i] == Load(c, Returned(value));
    assert LoadedAndStored(steps, n + 1, c, value, storage);
    if storage.Interrupted? {
      assert storage == Interrupted(storage.error, storage.stored);
    }
  }

  lemma StepExplains(states: seq<System>, steps: seq<Step>, n: nat, c: nat)
    requires Execution(states, steps) && n < |steps| && c in states[n].callers && c in states[n + 1].callers
    requires Explained(states, steps, n, c, states[n].callers[c].phase)
    ensures Explained(states, steps, n + 1, c, states[n + 1].callers[c].phase)
  {
    var sys, step, phase := states[n], steps[n], states[n].callers[c].phase;
    if states[n + 1].callers[c].phase == phase {
      ExplainedStays(states, steps, n, c, phase);
    } else {
      match step
      case Load(_, outcome) => assert step == Load(c, outcome) && Loaded(steps, n + 1, c, outcome);
      case Store(_, storage) => StoreExplains(steps, n, c, phase.value, storage);
      case Leave(_) => EndsOwnStays(steps, n, c, phase.outcome);
      case Look(_, failed) => assert step == Look(c, failed);
      case Cancel(_, error) => assert step == Cancel(c, error);
      case _ =>
    }
  }

  lemma {:induction false} PhasesAreExplained(states: seq<System>, steps: seq<Step>, n: nat, c: nat)
    requires Execution(states, steps) && n < |states| && c in states[n].callers
    ensures Explained(states, steps, n, c, states[n].callers[c].phase)
  {
    if n == 0 {
    } else if c in states[n - 1].callers {
      PhasesAreExplained(states, steps, n - 1, c);
      StepExplains(states, steps, n - 1, c);
    }
  }

  /** A call that ran the loader ends with what the loader came to: its error, or its value, unless storing
      the value was interrupted by an error, which is then the outcome. */
  lemma OwnersEndWithWhatTheyLoaded(states: seq<System>, steps: seq<Step>, n: nat, c: nat)
    requires Execution(states, steps) && n < |states| && c in states[n].callers
    requires states[n].callers[c].phase.Done? && states[n].callers[c].phase.via.Own?
    ensures EndsOwn(steps, n, c, states[n].callers[c].phase.outcome)
  {
    PhasesAreExplained(states, steps, n, c);
  }

  /** How far a call has come. */
  function Stage(phase: Phase): nat {
    match phase
    case Looking => 0
    case Missed => 1
    case Loading(_) => 2
    case Following(_) => 2
    case Storing(_, _) => 3
    case Leaving(_, _) => 4
    case Done(_, _) => 5
  }

  lemma StepAdvances(sys: System, step: Step, c: nat)
    requires Enabled(sys, step) && c in sys.callers
    ensures c in Apply(sys, step).callers
    ensures || Apply(sys, step).callers[c].phase == sys.callers[c].phase
            || Stage(Apply(sys, step).callers[c].phase) > Stage(sys.callers[c].phase)
    ensures step.Load? && step.c == c ==> Stage(Apply(sys, step).callers[c].phase) > Stage(sys.callers[c].phase) == 2
  {
  }

  lemma {:induction false} StagesGrow(states: seq<System>, steps: seq<Step>, m: nat, n: nat, c: nat)
    requires Execution(states, steps) && m <= n < |states| && c in states[m].callers
    ensures c in states[n].callers && Stage(states[n].callers[c].phase) >= Stage(states[m].callers[c].phase)
  {
    if m == n {
    } else {
      StagesGrow(states, steps, m, n - 1, c);
      StepAdvances(states[n - 1], steps[n - 1], c);
    }
  }

  /** A call runs its loader at most once. */
  lemma EachCallLoadsOnce(states: seq<System>, steps: seq<Step>, i: nat, j: nat, c: nat, first: Outcome, second: Outcome)
    requires Execution(states, steps) && i < |steps| && j < |steps|
    requires steps[i] == Load(c, first) && steps[j] == Load(c, second)
    ensures i == j
  {
    var low, high := if i < j then i else j, if i < j then j else i;
    if low < high {
      StepAdvances(states[low], steps[low], c);
      StagesGrow(states, steps, low + 1, high, c);
      StepAdvances(states[high], steps[high], c);
    }
  }

  /** Every other call ends with the value it found in the cache, with the outcome of the owner it followed,
      or cancelled. */
  lemma OthersEndAsTheyMust(states: seq<System>, steps: seq<Step>, n: nat, c: nat)
    requires Execution(states, steps) && n < |states| && c in states[n].callers && states[n].callers[c].phase.Done?
    ensures var Done(outcome, via) := states[n].callers[c].phase;
            match via
            case Own(_) => true
            case Cache => EndsHit(states, steps, n, c, outcome)
            case Cancelled => EndsCancelled(steps, n, c, outcome)
            case Shared(_) =>
              exists d :: d in states[n].callers && states[n].callers[d].key == states[n].callers[c].key
                          && EndsOwn(steps, n, d, outcome)
  {
    PhasesAreExplained(states, steps, n, c);
    var via := states[n].callers[c].phase.via;
    if via.Shared? {
      FollowersShareTheOwnersOutcome(states, steps, n, c);
      PhasesAreExplained(states, steps, n, states[n].table.futures[via.future].owner);
    }
  }

  /** Whatever is in the cache, a call that loaded it put it there. */
  lemma {:induction false} StoredValuesWereStored(states: seq<System>, steps: seq<Step>, n: nat, key: string)
    requires Execution(states, steps) && n < |states| && key in states[n].store
    ensures exists i, c, storage ::
              && 0 <= i < n && steps[i] == Store(c, storage)
              && (storage.Stored? || (storage.Interrupted? && storage.stored))
              && c in states[i].callers && states[i].callers[c].key == key && states[i].callers[c].phase.Storing?
              && states[i].callers[c].phase.value == states[n].store[key]
  {
    var prev, step := states[n - 1], steps[n - 1];
    if key in prev.store && prev.store[key] == states[n].store[key] {
      StoredValuesWereStored(states, steps, n - 1, key);
    } else {
      assert step == Store(step.c, step.storage);
    }
  }

  predicate Replaces(sys: System, step: Step, key: string) {
    match step
    case Evict(k) => k == key
    case Store(c, _) => c in sys.callers && sys.callers[c].key == key
    case _ => false
  }

  lemma StoreIsKept(sys: System, step: Step, key: string)
    requires Enabled(sys, step) && !Replaces(sys, step, key)
    ensures Cached(Apply(sys, step), key) == Cached(sys, key)
  {
  }

  lemma {:induction false} CachedStays(states: seq<System>, steps: seq<Step>, m: nat, n: nat, key: string)
    requires Execution(states, steps) && m <= n < |states|
    requires forall i :: m <= i < n ==> !Replaces(states[i], steps[i], key)
    ensures Cached(states[n], key) == Cached(states[m], key)
  {
    if m == n {
    } else {
      CachedStays(states, steps, m, n - 1, key);
      StoreIsKept(states[n - 1], steps[n - 1], key);
    }
  }

  /** A value an owner stored answers every later lookup that does not fail, without another load, until
      the key is stored again or evicted. */
  lemma StoredValuesAreHits(states: seq<System>, steps: seq<Step>, m: nat, n: nat, c: nat, d: nat)
    requires Execution(states, steps) && m < n < |steps|
    requires Enabled(states[m], Store(c, Stored)) && steps[m] == Store(c, Stored) && states[m].callers[c].phase.value != Null
    requires Enabled(states[n], Look(d, false)) && steps[n] == Look(d, false)
    requires states[n].callers[d].key == states[m].callers[c].key
    requires forall i :: m < i < n ==> !Replaces(states[i], steps[i], states[m].callers[c].key)
    ensures d in states[n + 1].callers
    ensures states[n + 1].callers[d].phase == Done(Returned(states[m].callers[c].phase.value), Cache)
  {
    var key := states[m].callers[c].key;
    assert Cached(states[m + 1], key) == Some(states[m].callers[c].phase.value);
    CachedStays(states, steps, m + 1, n, key);
  }

  /** Settled futures and finished calls of one state are there, unchanged, in another. */
  ghost predicate Keeps(sys: System, next: System) {
    && |sys.table.futures| <= |next.table.futures|
    && (forall f :: 0 <= f < |sys.table.futures| && sys.table.futures[f].outcome.Some? ==>
          next.table.futures[f] == sys.table.futures[f])
    && (forall c :: c in sys.callers && sys.callers[c].phase.Done? ==>
          c in next.callers && next.callers[c] == sys.callers[c])
  }

  lemma StepKeepsOutcomes(sys: System, step: Step)
    requires Enabled(sys, step)
    ensures Keeps(sys, Apply(sys, step))
  {
  }

  lemma {:induction false} KeptThroughout(states: seq<System>, m: nat, n: nat)
    requires m <= n < |states| && forall i :: 0 <= i < |states| - 1 ==> Keeps(states[i], states[i + 1])
    ensures Keeps(states[m], states[n])
  {
    if m == n {
    } else {
      KeptThroughout(states, m, n - 1);
      assert Keeps(states[n - 1], states[n - 1 + 1]);
    }
  }

  /** A settled future and a finished call never change again. */
  lemma OutcomesAreFinal(states: seq<System>, steps: seq<Step>, m: nat, n: nat)
    requires Execution(states, steps) && m <= n < |states|
    ensures Keeps(states[m], states[n])
  {
    forall i | 0 <= i < |steps| ensures Keeps(states[i], states[i + 1]) {
      StepKeepsOutcomes(states[i], steps[i]);
    }
    KeptThroughout(states, m, n);
  }
}
