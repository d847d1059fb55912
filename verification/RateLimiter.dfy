/** The sliding-window rate limiter. Time is real; what the clock reads never decreases.

    `SlidingWindowRateLimiter` is the object with its queue of timestamps. The state machine runs any
    number of callers over it: every attempt, by whichever caller, is one atomic step, and a caller that
    is told to wait attempts again later. */
module RateLimiter {
  /** What one attempt comes to. A limit below 1 leaves no oldest timestamp to wait for, and the source
      then fails on the empty queue. */
  datatype Attempt = Granted | Wait(delay: real) | Failure

  // ---------------------------------------------------------------------------------------------
  // One attempt

  /** The timestamps left after the oldest ones up to the cutoff are dropped. */
  function Unexpired(ts: seq<real>, cutoff: real): seq<real> {
    if ts != [] && ts[0] <= cutoff then Unexpired(ts[1..], cutoff) else ts
  }

  function Decide(ts: seq<real>, limit: int, window: real, now: real): Attempt {
    if |ts| < limit then Granted
    else if ts == [] then Failure
    else Wait(ts[0] + window - now)
  }

  function Pause(delay: real): (pause: real)
    ensures pause >= delay && pause >= 0.001 && pause in {delay, 0.001}
  {
    if delay < 0.001 then 0.001 else delay
  }

  class SlidingWindowRateLimiter {
    const limit: int
    const window: real
    var timestamps: seq<real>

    constructor (limit: int, window: real)
      ensures this.limit == limit && this.window == window && timestamps == []
    {
      this.limit, this.window := limit, window;
      timestamps := [];
    }

    /** The locked section of `acquire`. */
    method TryAcquire(now: real) returns (r: Attempt)
      modifies this`timestamps
      ensures r == Decide(Unexpired(old(timestamps), now - window), limit, window, now)
      ensures timestamps == Unexpired(old(timestamps), now - window) + if r.Granted? then [now] else []
    {
      while timestamps != [] && timestamps[0] <= now - window
        invariant Unexpired(timestamps, now - window) == Unexpired(old(timestamps), now - window)
        decreases |timestamps|
      {
        timestamps := timestamps[1..];
      }
      if |timestamps| < limit {
        timestamps := timestamps + [now];
        return Granted;
      }
      if timestamps == [] {
        return Failure;
      }
      return Wait(timestamps[0] + window - now);
    }
  }

  // ---------------------------------------------------------------------------------------------
  // Every execution

  /** `clock` is when the last attempt was made and `grants` is when every grant was made. */
  datatype System = System(limit: int, window: real, timestamps: seq<real>, clock: real, grants: seq<real>)

  function Result(sys: System, now: real): Attempt {
    Decide(Unexpired(sys.timestamps, now - sys.window), sys.limit, sys.window, now)
  }

  function Try(sys: System, now: real): System {
    var added := if Result(sys, now).Granted? then [now] else [];
    sys.(timestamps := Unexpired(sys.timestamps, now - sys.window) + added, clock := now, grants := sys.grants + added)
  }

  /** Attempts at clock readings that never decrease. */
  ghost predicate Execution(states: seq<System>, readings: seq<real>) {
    && |states| == |readings| + 1 && states[0].timestamps == [] && states[0].grants == []
    && forall i :: 0 <= i < |readings| ==> states[i].clock <= readings[i] && states[i + 1] == Try(states[i], readings[i])
  }

  ghost predicate Ascending(ts: seq<real>) {
    forall i, j :: 0 <= i < j < |ts| ==> ts[i] <= ts[j]
  }

  /** Times that are `limit` apart are at least a window apart. */
  ghost predicate Spread(ts: seq<real>, limit: int, window: real) {
    forall i, j :: 0 <= i < j < |ts| && j == i + limit ==> ts[j] - ts[i] >= window
  }

  ghost predicate UpTo(ts: seq<real>, n: int, bound: real) {
    forall i :: 0 <= i < n && i < |ts| ==> ts[i] <= bound
  }

  /** The queue holds the latest grants; those it no longer holds are a window old or older. */
  ghost predicate Inv(sys: System) {
    && Ascending(sys.grants) && Spread(sys.grants, sys.limit, sys.window) && UpTo(sys.grants, |sys.grants|, sys.clock)
    && |sys.timestamps| <= |sys.grants|
    && sys.timestamps == sys.grants[|sys.grants| - |sys.timestamps|..]
    && UpTo(sys.grants, |sys.grants| - |sys.timestamps|, sys.clock - sys.window)
    && (if sys.limit <= 0 then sys.grants == [] else |sys.timestamps| <= sys.limit)
  }

  /** What is left of the latest grants after expiry: from `k` on, exactly those after the cutoff. */
  lemma {:induction false} Expiry(grants: seq<real>, gone: nat, cutoff: real) returns (k: nat)
    requires Ascending(grants) && gone <= |grants| && UpTo(grants, gone, cutoff)
    ensures gone <= k <= |grants| && Unexpired(grants[gone..], cutoff) == grants[k..]
    ensures UpTo(grants, k, cutoff) && (k < |grants| ==> grants[k] > cutoff)
    decreases |grants| - gone
  {
    if gone < |grants| && grants[gone] <= cutoff {
      k := Expiry(grants, gone + 1, cutoff);
      assert grants[gone..][1..] == grants[gone + 1..];
    } else {
      k := gone;
    }
  }

  lemma Appended(grants: seq<real>, now: real, limit: int, window: real, k: nat)
    requires Ascending(grants) && Spread(grants, limit, window) && UpTo(grants, |grants|, now)
    requires k <= |grants| && UpTo(grants, k, now - window) && |grants| - k < limit
    ensures Ascending(grants + [now]) && Spread(grants + [now], limit, window) && UpTo(grants + [now], |grants| + 1, now)
    ensures UpTo(grants + [now], k, now - window) && (grants + [now])[k..] == grants[k..] + [now]
  {
    var all := grants + [now];
    forall i, j | 0 <= i < j < |all| && j == i + limit ensures all[j] - all[i] >= window {
      if j == |grants| { assert i < k; }
    }
  }

  lemma Weaker(ts: seq<real>, n: int, low: real, high: real)
    requires UpTo(ts, n, low) && low <= high
    ensures UpTo(ts, n, high)
  {
  }

  lemma GrantKeepsInv(sys: System, now: real, k: nat)
    requires Inv(sys) && sys.clock <= now && k <= |sys.grants|
    requires UpTo(sys.grants, k, now - sys.window) && |sys.grants| - k < sys.limit
    ensures Inv(sys.(timestamps := sys.grants[k..] + [now], clock := now, grants := sys.grants + [now]))
  {
    Weaker(sys.grants, |sys.grants|, sys.clock, now);
    Appended(sys.grants, now, sys.limit, sys.window, k);
  }

  lemma RefusalKeepsInv(sys: System, now: real, k: nat)
    requires Inv(sys) && sys.clock <= now && |sys.grants| - |sys.timestamps| <= k <= |sys.grants|
    requires UpTo(sys.grants, k, now - sys.window)
    ensures Inv(sys.(timestamps := sys.grants[k..], clock := now))
  {
    Weaker(sys.grants, |sys.grants|, sys.clock, now);
  }

  lemma TryIs(sys: System, now: real, k: nat)
    requires k <= |sys.grants| && Unexpired(sys.timestamps, now - sys.window) == sys.grants[k..]
    ensures Result(sys, now).Granted? <==> |sys.grants| - k < sys.limit
    ensures Result(sys, now).Granted? ==>
              Try(sys, now) == sys.(timestamps := sys.grants[k..] + [now], clock := now, grants := sys.grants + [now])
    ensures !Result(sys, now).Granted? ==> Try(sys, now) == sys.(timestamps := sys.grants[k..], clock := now)
  {
  }

  lemma TryKeepsInv(sys: System, now: real)
    requires Inv(sys) && sys.clock <= now
    ensures Inv(Try(sys, now))
  {
    var gone := |sys.grants| - |sys.timestamps|;
    Weaker(sys.grants, gone, sys.clock - sys.window, now - sys.window);
    var k := Expiry(sys.grants, gone, now - sys.window);
    TryIs(sys, now, k);
    if Result(sys, now).Granted? {
      GrantKeepsInv(sys, now, k);
    } else {
      RefusalKeepsInv(sys, now, k);
    }
  }

  lemma {:induction false} ExecutionKeepsInv(states: seq<System>, readings: seq<real>, n: nat)
    requires Execution(states, readings) && n < |states|
    ensures Inv(states[n]) && states[n].limit == states[0].limit && states[n].window == states[0].window
  {
    if n == 0 {
    } else {
      ExecutionKeepsInv(states, readings, n - 1);
      TryKeepsInv(states[n - 1], readings[n - 1]);
    }
  }

  /** How many of the times lie in the half-open interval. */
  function Within(ts: seq<real>, from: real, to: real): nat {
    if ts == [] then 0
    else Within(ts[..|ts| - 1], from, to) + if from <= ts[|ts| - 1] < to then 1 else 0
  }

  /** When a later time is in the interval, the run reaches to the end. */
  lemma {:induction false} LastOfTheRun(ts: seq<real>, from: real, to: real, later: real)
    requires Ascending(ts) && later < to && (forall i :: 0 <= i < |ts| ==> ts[i] <= later) && Within(ts, from, to) > 0
    ensures Within(ts, from, to) <= |ts| && from <= ts[|ts| - Within(ts, from, to)]
  {
    var init, last := ts[..|ts| - 1], ts[|ts| - 1];
    if Within(init, from, to) > 0 {
      LastOfTheRun(init, from, to, later);
      assert init[|init| - Within(init, from, to)] <= last;
    }
  }

  /** Times that ascend and lie in the interval lie next to each other. */
  lemma {:induction false} WithinIsARun(ts: seq<real>, from: real, to: real)
    requires Ascending(ts)
    ensures Within(ts, from, to) > 0 ==>
              exists i, j :: 0 <= i <= j < |ts| && j - i + 1 == Within(ts, from, to) && from <= ts[i] && ts[j] < to
  {
    if ts == [] {
    } else {
      var init, last := ts[..|ts| - 1], ts[|ts| - 1];
      WithinIsARun(init, from, to);
      if from <= last < to {
        if Within(init, from, to) == 0 {
          assert 0 <= |ts| - 1 <= |ts| - 1 < |ts|;
        } else {
          LastOfTheRun(init, from, to, last);
          var i := |init| - Within(init, from, to);
          assert init[i] == ts[i];
          assert 0 <= i <= |ts| - 1 < |ts| && |ts| - 1 - i + 1 == Within(ts, from, to);
        }
      } else if Within(init, from, to) > 0 {
        var i, j :| 0 <= i <= j < |init| && j - i + 1 == Within(init, from, to) && from <= init[i] && init[j] < to;
        assert init[i] == ts[i] && init[j] == ts[j];
      }
    }
  }

  lemma FarApart(ts: seq<real>, limit: int, window: real, i: nat, j: nat)
    requires Ascending(ts) && Spread(ts, limit, window) && 0 < limit <= j - i && j < |ts|
    ensures ts[j] - ts[i] >= window
  {
    var m := i + limit;
    assert ts[m] - ts[i] >= window;
    if m < j { assert ts[m] <= ts[j]; }
  }

  /** No half-open interval of the window's length holds more than `limit` grants. */
  lemma AtMostLimitPerWindow(states: seq<System>, readings: seq<real>, n: nat, from: real)
    requires Execution(states, readings) && n < |states| && 0 < states[n].limit
    ensures Within(states[n].grants, from, from + states[n].window) <= states[n].limit
  {
    ExecutionKeepsInv(states, readings, n);
    var sys := states[n];
    var count := Within(sys.grants, from, from + sys.window);
    if count > 0 {
      WithinIsARun(sys.grants, from, from + sys.window);
      var i, j :| 0 <= i <= j < |sys.grants| && j - i + 1 == count && from <= sys.grants[i] && sys.grants[j] < from + sys.window;
      if j - i >= sys.limit { FarApart(sys.grants, sys.limit, sys.window, i, j); }
    }
  }

  lemma RoomDecides(sys: System, now: real)
    requires Inv(sys) && sys.clock <= now && 0 < sys.limit
    ensures Result(sys, now).Granted? <==>
            |sys.grants| < sys.limit || sys.grants[|sys.grants| - sys.limit] <= now - sys.window
    ensures Result(sys, now).Wait? ==>
              |sys.grants| >= sys.limit && Result(sys, now).delay == sys.grants[|sys.grants| - sys.limit] + sys.window - now
  {
    var k := Expiry(sys.grants, |sys.grants| - |sys.timestamps|, now - sys.window);
  }

  lemma FailsNever(sys: System, now: real)
    requires Inv(sys) && sys.clock <= now && 0 < sys.limit
    ensures Result(sys, now) != Failure
  {
  }

  /** An attempt is granted exactly when fewer than `limit` grants are younger than the window. */
  lemma GrantedIffRoom(states: seq<System>, readings: seq<real>, n: nat, now: real)
    requires Execution(states, readings) && n < |states| && states[n].clock <= now && 0 < states[n].limit
    ensures var sys := states[n];
            Result(sys, now).Granted? <==>
            |sys.grants| < sys.limit || sys.grants[|sys.grants| - sys.limit] <= now - sys.window
  {
    ExecutionKeepsInv(states, readings, n);
    RoomDecides(states[n], now);
  }

  /** A caller told to wait is granted its next attempt after the pause if nobody was granted in between. */
  lemma WaitingIsEnough(states: seq<System>, readings: seq<real>, m: nat, n: nat, later: real)
    requires Execution(states, readings) && m < n < |states| && 0 < states[m].limit && Result(states[m], readings[m]).Wait?
    requires states[n].grants == states[m].grants && states[n].clock <= later
    requires later >= readings[m] + Pause(Result(states[m], readings[m]).delay)
    ensures Result(states[n], later).Granted?
  {
    ExecutionKeepsInv(states, readings, m);
    ExecutionKeepsInv(states, readings, n);
    RoomDecides(states[m], readings[m]);
    RoomDecides(states[n], later);
  }

  /** And it is not granted earlier than the delay it was told, if nobody was granted in between. */
  lemma WaitingIsNeeded(states: seq<System>, readings: seq<real>, m: nat, n: nat, sooner: real)
    requires Execution(states, readings) && m < n < |states| && 0 < states[m].limit && Result(states[m], readings[m]).Wait?
    requires states[n].grants == states[m].grants && states[n].clock <= sooner
    requires sooner < readings[m] + Result(states[m], readings[m]).delay
    ensures Result(states[n], sooner).Wait?
  {
    ExecutionKeepsInv(states, readings, m);
    ExecutionKeepsInv(states, readings, n);
    RoomDecides(states[m], readings[m]);
    RoomDecides(states[n], sooner);
    FailsNever(states[n], sooner);
  }

  /** An attempt fails on the empty queue exactly when the limit is below 1: then every attempt does. */
  lemma FailsIffNonPositiveLimit(states: seq<System>, readings: seq<real>, n: nat)
    requires Execution(states, readings) && n < |readings|
    ensures Result(states[n], readings[n]) == Failure <==> states[0].limit <= 0
  {
    ExecutionKeepsInv(states, readings, n);
  }
}
