/** The drive loop of one agent run: planning, the actions it dispatches to, model retries and
    budget accounting.

    The driver owns its copy of the run.  Everything outside it answers freely: policies and other
    services may refuse at any boundary, the planner may plan anything a planner can, providers
    reply or fail as they like, verification passes or not.  The response cache is off.

    The journal of a driver records its saves with what they were for, so that they can be compared
    with the steps of the state machine of runs. */
module DriveLoop {
  import opened DriverSaves
  import opened RunLifecycle
  import opened RunPromises
  import opened Wrappers

  datatype Agent = Agent(
    maxSteps: nat, maxAttempts: nat, maxRepairs: nat,
    maxTokens: int, maxOutputTokens: int, maxCost: real)

  datatype Error = BudgetExceeded | RejectedTransition | ProviderError | VerificationFailed | Refused

  datatype Finish = Finished | Length | ContentFilter

  /** What a provider call comes to. */
  datatype Reply =
    | Completion(tokens: int, cost: real, finish: Finish, blank: bool, calls: seq<CallId>)
    | Failure(retryable: bool, reportsCutOff: bool)

  datatype Verdict = Accepted | TooLong | Blocked | Empty

  /** The check of a completion against its request. */
  function Validate(reply: Reply, schema: bool): Verdict
    requires reply.Completion?
  {
    if reply.finish == Length then TooLong
    else if reply.finish == ContentFilter then Blocked
    else if schema && reply.blank then Empty
    else Accepted
  }

  /** A completion the run can use. */
  predicate Usable(reply: Reply, schema: bool) {
    reply.Completion? && reply.finish == Finished && !(schema && reply.blank)
  }

  /** Another request would not help: the provider says so, or its content filter stepped in. */
  predicate Hopeless(reply: Reply) {
    if reply.Failure? then !reply.retryable else reply.finish == ContentFilter
  }

  /** The answer did not fit in the output limit. */
  predicate CutOff(reply: Reply) {
    if reply.Failure? then reply.reportsCutOff else reply.finish == Length
  }

  datatype Action = CallModel | CallTool(call: CallId) | Clarify | Finalize | GiveUp | Unsupported

  datatype Strategy = Direct | ReAct | RuleBased | Custom

  /** A model request as it is issued: its output limit (0 when absent), what the run had been
      charged before it, and whether it retries a completion cut off at the previous limit. */
  datatype Request = Request(limit: int, tokens: int, cost: real, afterCutOff: bool)

  ghost predicate AllCompletions(completions: seq<Reply>) {
    forall i :: 0 <= i < |completions| ==> completions[i].Completion?
  }

  ghost function Tokens(completions: seq<Reply>): int
    requires AllCompletions(completions)
  {
    if completions == [] then 0
    else Tokens(completions[..|completions| - 1]) + completions[|completions| - 1].tokens
  }

  ghost function Cost(completions: seq<Reply>): real
    requires AllCompletions(completions)
  {
    if completions == [] then 0.0
    else Cost(completions[..|completions| - 1]) + completions[|completions| - 1].cost
  }

  /** What a run has been charged. */
  datatype Usage = Usage(tokens: int, cost: real, calls: int)

  function Plus(usage: Usage, reply: Reply): Usage {
    if reply.Completion? then Usage(usage.tokens + reply.tokens, usage.cost + reply.cost, usage.calls + 1) else usage
  }

  /** A usage with some completions charged on top. */
  ghost function Charged(usage: Usage, completions: seq<Reply>): Usage {
    if completions == [] then usage
    else Plus(Charged(usage, completions[..|completions| - 1]), completions[|completions| - 1])
  }

  /** Charging one by one charges the sums and the count. */
  lemma {:induction false} ChargedIsTheSum(usage: Usage, completions: seq<Reply>)
    requires AllCompletions(completions)
    ensures Charged(usage, completions) ==
            Usage(usage.tokens + Tokens(completions), usage.cost + Cost(completions), usage.calls + |completions|)
  {
    if completions == [] {
    } else {
      ChargedIsTheSum(usage, completions[..|completions| - 1]);
    }
  }

  lemma ChargedAppends(usage: Usage, completions: seq<Reply>, reply: Reply)
    ensures Charged(usage, completions + [reply]) == Plus(Charged(usage, completions), reply)
  {
    assert (completions + [reply])[..|completions|] == completions;
  }

  /** Every request was issued strictly within budget. */
  ghost predicate WithinBudget(agent: Agent, requests: seq<Request>) {
    forall i :: 0 <= i < |requests| ==> requests[i].tokens < agent.maxTokens && requests[i].cost < agent.maxCost
  }

  function EffectiveLimit(agent: Agent, limit: int): int {
    if limit == 0 then agent.maxOutputTokens else limit
  }

  /** Each retry after a cut-off raises the limit, within the tokens the run has left. */
  ghost predicate CutOffsRaiseLimit(agent: Agent, requests: seq<Request>) {
    forall i, j :: 0 <= i < |requests| && j == i + 1 < |requests| && requests[j].afterCutOff ==>
      && requests[j].limit > EffectiveLimit(agent, requests[i].limit)
      && requests[j].limit <= agent.maxTokens - requests[j].tokens
  }

  ghost predicate Lawful(agent: Agent, requests: seq<Request>) {
    && WithinBudget(agent, requests) && CutOffsRaiseLimit(agent, requests)
    && (requests != [] ==> !requests[0].afterCutOff)
  }

  lemma RequestKeepsLawful(agent: Agent, requests: seq<Request>, r: Request)
    requires Lawful(agent, requests) && r.tokens < agent.maxTokens && r.cost < agent.maxCost
    requires r.afterCutOff ==>
               && requests != [] && r.limit > EffectiveLimit(agent, requests[|requests| - 1].limit)
               && r.limit <= agent.maxTokens - r.tokens
    ensures Lawful(agent, requests + [r])
  {
  }

  /** One more request, with this limit. */
  ghost predicate Asked(before: seq<Request>, after: seq<Request>, limit: int) {
    before <= after && |after| == |before| + 1 && after[|before|].limit == limit
  }

  /** The statuses in which `start`, `resume` and `recover` leave a run they schedule. */
  predicate Scheduled(s: Status) {
    s in {Received, BuildingContext, Planning}
  }

  /** Recovery leads every unfinished, unpaused run to a status the drive loop starts from, and from a
      pause the table leads nowhere else but to the end of the run. */
  lemma SchedulersLeaveScheduledRuns(s: Status)
    ensures !Terminal(s) && !Paused(s) ==> Scheduled(RecoveryStatus(s))
    ensures Paused(s) ==> forall t :: t in Allowed(s) ==> Scheduled(t) || Terminal(t)
    ensures forall b, actor, call, decision, t :: MayAct(b, actor, Decide(call, decision), t) && t != Failed ==>
              Scheduled(t)
  {
  }

  /** The statuses seen at the head of the drive loop. */
  predicate LoopHead(s: Status) {
    s in {BuildingContext, Planning} || Paused(s) || Terminal(s)
  }

  /** Where an action leads if nothing fails, and which tool calls are then completed. */
  ghost predicate LeadsWhere(action: Action, status: Status, before: set<CallId>, after: set<CallId>, approved: set<CallId>)
  {
    match action
    case Clarify => status == AwaitingClarification && after == before
    case CallModel => status == Planning && after == before
    case CallTool(call) =>
      if status == AwaitingApproval then call !in approved && after == before
      else status == BuildingContext && after == before + {call}
    case Finalize => status in {Completed, Planning} && after == before
    case GiveUp => status == Failed && after == before
    case Unsupported => false
  }

  /** What a driver has saved: all saves, the copy the last one left, and the usage it carried. */
  datatype Journal = Journal(saves: seq<Save>, copy: Actor, stored: Usage)

  /** One more save, for this cause. */
  ghost predicate Appended(before: seq<Save>, after: seq<Save>, cause: Cause, target: Status) {
    && before <= after && |after| == |before| + 1
    && after[|before|].cause == cause && after[|before|].target == target
  }

  /** More saves, the first one for this cause. */
  ghost predicate StartsWith(before: seq<Save>, after: seq<Save>, cause: Cause) {
    |before| < |after| && after[|before|].cause == cause
  }

  /** Two more saves, through `middle` to `target`. */
  ghost predicate AppendedTwo(before: seq<Save>, after: seq<Save>, middle: Status, target: Status) {
    && before <= after && |after| == |before| + 2
    && after[|before|].target == middle && after[|before| + 1].target == target
  }

  lemma AppendingTwice(before: seq<Save>, between: seq<Save>, after: seq<Save>, middle: Status, target: Status)
    requires Appended(before, between, Move, middle) && Appended(between, after, Move, target)
    ensures AppendedTwo(before, after, middle, target)
  {
    assert after[|before|] == between[|before|];
  }

  datatype Next = Return | Stop(error: Error) | Retry(limit: int, cutOff: bool)

  class Driver {
    const agent: Agent
    const strategy: Strategy
    const schema: bool          // the request carries a response schema
    const override: int         // requested output limit, 0 when absent

    var status: Status
    var stepCount: nat
    var attemptCount: nat
    var output: bool            // some output text is available
    var pending: seq<CallId>
    var completed: set<CallId>
    var approved: set<CallId>
    var used: Usage

    ghost const checkedOut: Actor   // the copy as it was loaded
    ghost const loaded: Usage       // and its usage
    ghost var journal: Journal
    ghost var requests: seq<Request>
    ghost var completions: seq<Reply>

    predicate BuiltIn() {
      strategy != Custom
    }

    ghost predicate Valid()
      reads this`journal, this`status, this`requests, this`completions
    {
      && Chain(BuiltIn(), checkedOut, journal.saves, journal.copy) && journal.copy.run.status == status
      && Lawful(agent, requests) && AllCompletions(completions)
    }

    /** Apart from pending calls and charges, nothing is waiting to be saved. */
    ghost predicate InStep()
      reads this`journal, this`completed, this`approved
    {
      journal.copy.run.completed == completed && journal.copy.run.approved == approved
    }

    /** The last save was made for this cause. */
    ghost predicate AtWork(cause: Cause)
      reads this`journal, this`pending
    {
      journal.copy.run.pending == pending && journal.copy.tool == if cause.EnterTool? then Some(cause.call) else None
    }

    /** The save to come; a completed call leaves the pending ones with its own edits. */
    ghost function NextSave(cause: Cause, target: Status): Save
      reads this`journal, this`pending
    {
      Save(journal.copy, if cause.FinishTool? then journal.copy.run.pending else pending, cause, target)
    }

    /** The fields are what the next save makes of the last one, and the save is one a driver may make. */
    ghost predicate MaySave(cause: Cause, target: Status)
      reads this`journal, this`pending, this`completed, this`approved
    {
      var next := CopyAfter(NextSave(cause, target)).run;
      && next.pending == pending && next.completed == completed && next.approved == approved
      && DriverMay(BuiltIn(), NextSave(cause, target))
    }

    /** The first pending call that is not completed yet. */
    ghost predicate FirstOpen(call: CallId)
      reads this`pending, this`completed
    {
      exists i :: 0 <= i < |pending| && pending[i] == call && call !in completed
        && forall j :: 0 <= j < i ==> pending[j] in completed
    }

    lemma MayMove(target: Status)
      requires InStep() && target in Allowed(journal.copy.run.status) && target !in {InvokingTool, AwaitingApproval}
      requires journal.copy.run.status !in {InvokingTool, AwaitingApproval}
      ensures MaySave(Move, target)
    {
    }

    lemma MayEnter(call: CallId, needsApproval: bool)
      requires InStep() && journal.copy.run.status == Planning && (BuiltIn() ==> FirstOpen(call))
      requires needsApproval ==> call in approved
      ensures MaySave(EnterTool(call, needsApproval), InvokingTool)
    {
    }

    lemma MayFinish(call: CallId, before: seq<CallId>, done: set<CallId>)
      requires journal.copy.tool == Some(call) && journal.copy.run.status == InvokingTool
      requires journal.copy.run.pending == before && journal.copy.run.completed == done
      requires pending == Without(before, call) && completed == done + {call} && approved == journal.copy.run.approved
      ensures MaySave(FinishTool(call), BuildingContext)
    {
    }

    /** The charged usage is the loaded one plus every completion received since. */
    ghost predicate Accounted()
      reads this`used, this`completions
    {
      used == Charged(loaded, completions)
    }

    /** The stored run carries everything charged so far. */
    ghost predicate Saved()
      reads this`used, this`journal
    {
      journal.stored == used
    }

    /** The stored run carries exactly the first `n` completions since it was loaded. */
    ghost predicate StoredUpTo(n: nat)
      reads this`journal, this`completions
    {
      n <= |completions| && journal.stored == Charged(loaded, completions[..n])
    }

    /** The stored run carries every completion since it was loaded, or all but the last. */
    ghost predicate MissesAtMostTheLast()
      reads this`journal, this`completions
    {
      StoredUpTo(|completions|) || (completions != [] && StoredUpTo(|completions| - 1))
    }

    constructor (agent: Agent, strategy: Strategy, schema: bool, override: int,
                 status: Status, stepCount: nat, attemptCount: nat, output: bool,
                 pending: seq<CallId>, completed: set<CallId>, approved: set<CallId>,
                 used: Usage, ghost version: nat, ghost pausedCall: Option<CallId>)
      ensures Valid() && InStep() && Accounted() && Saved()
      ensures this.agent == agent && this.status == status && this.stepCount == stepCount
      ensures this.completed == completed && this.approved == approved && this.used == used
      ensures requests == [] && completions == [] && journal.saves == []
      ensures checkedOut == Actor(Run(status, version, pending, completed, approved, pausedCall), None)
    {
      this.agent, this.strategy, this.schema, this.override := agent, strategy, schema, override;
      this.status, this.stepCount, this.attemptCount, this.output := status, stepCount, attemptCount, output;
      this.pending, this.completed, this.approved := pending, completed, approved;
      this.used, this.loaded := used, used;
      this.checkedOut := Actor(Run(status, version, pending, completed, approved, pausedCall), None);
      this.journal := Journal([], Actor(Run(status, version, pending, completed, approved, pausedCall), None), used);
      this.requests, this.completions := [], [];
    }

    /** `_transition`, for the only driver of the run. */
    method Transition(target: Status, ghost cause: Cause) returns (error: Option<Error>)
      requires Valid() && (target in Allowed(status) ==> MaySave(cause, target))
      modifies this`status, this`journal
      ensures Valid()
      ensures error == if target in Allowed(old(status)) then None else Some(RejectedTransition)
      ensures status == if error.None? then target else old(status)
      ensures error.None? ==> Saved() && InStep() && AtWork(cause)
      ensures error.None? ==> Appended(old(journal.saves), journal.saves, cause, target)
      ensures error.Some? ==> journal == old(journal)
    {
      if target !in Allowed(status) {
        return Some(RejectedTransition);
      }
      ChainGrows(BuiltIn(), checkedOut, journal.saves, NextSave(cause, target));
      status := target;
      journal := Journal(journal.saves + [NextSave(cause, target)], CopyAfter(NextSave(cause, target)), used);
      return None;
    }

    /** A policy, event, audit or service boundary: it lets the driver pass, or raises. */
    method Boundary() returns (error: Option<Error>)
      ensures error in {None, Some(Refused)}
    {
      var passes: bool := *;
      return if passes then None else Some(Refused);
    }

    /** Boundaries on the way to a transition that the table allows. */
    method Proceed(target: Status, ghost cause: Cause) returns (error: Option<Error>)
      requires Valid() && MaySave(cause, target)
      modifies this`status, this`journal
      ensures Valid() && error in {None, Some(Refused)}
      ensures status == if error.None? then target else old(status)
      ensures error.None? ==> Saved() && InStep() && AtWork(cause)
      ensures error.None? ==> Appended(old(journal.saves), journal.saves, cause, target)
      ensures error.Some? ==> journal == old(journal)
    {
      error := Boundary();
      if error.None? {
        error := Transition(target, cause);
      }
    }

    predicate Exhausted()
      reads this`used
    {
      used.tokens >= agent.maxTokens || used.cost >= agent.maxCost
    }

    /** Usage lags behind the completions by one reply that is not charged yet. */
    ghost predicate Owes(reply: Reply)
      reads this`used, this`completions
    {
      && reply.Completion? && completions != [] && completions[|completions| - 1] == reply
      && Plus(used, reply) == Charged(loaded, completions)
    }

    /** Charges a completion, accepted or rejected. */
    method Charge(reply: Reply)
      requires Owes(reply)
      modifies this`used
      ensures Accounted() && used == Plus(old(used), reply)
    {
      used := Usage(used.tokens + reply.tokens, used.cost + reply.cost, used.calls + 1);
    }

    ghost method Receive(reply: Reply)
      requires Accounted() && Saved() && AllCompletions(completions) && reply.Completion?
      modifies this`completions
      ensures AllCompletions(completions) && completions == old(completions) + [reply]
      ensures Owes(reply) && StoredUpTo(|completions| - 1) && !StoredUpTo(|completions|)
    {
      ChargedAppends(loaded, completions, reply);
      var before := completions;
      completions := completions + [reply];
      assert completions[..|completions| - 1] == before && completions[..|completions|] == completions;
    }

    /** A completion is owed, and the stored run lacks exactly that one; after a failure nothing is. */
    ghost predicate Answered(reply: Reply)
      reads this`used, this`completions, this`journal
    {
      if reply.Completion? then Owes(reply) && StoredUpTo(|completions| - 1) && !StoredUpTo(|completions|)
      else Accounted() && Saved()
    }

    /** One request to the router. */
    method Generate(limit: int, ghost afterCutOff: bool) returns (reply: Reply)
      requires Valid() && Accounted() && Saved() && !Exhausted()
      requires afterCutOff ==>
                 && requests != [] && limit > EffectiveLimit(agent, requests[|requests| - 1].limit)
                 && limit <= agent.maxTokens - used.tokens
      modifies this`requests, this`completions
      ensures Valid()
      ensures requests == old(requests) + [Request(limit, used.tokens, used.cost, afterCutOff)]
      ensures Asked(old(requests), requests, limit)
      ensures Answered(reply)
      ensures completions == if reply.Completion? then old(completions) + [reply] else old(completions)
    {
      RequestKeepsLawful(agent, requests, Request(limit, used.tokens, used.cost, afterCutOff));
      requests := requests + [Request(limit, used.tokens, used.cost, afterCutOff)];
      reply := *;
      if reply.Completion? {
        Receive(reply);
      }
    }

    /** The tokens left do not allow a larger limit. */
    predicate NoRoom(limit: int)
      reads this`used
    {
      (if limit == 0 then agent.maxOutputTokens else limit) >= agent.maxTokens - used.tokens
    }

    /** The limit of the next attempt after a cut-off, or none when it would not grow. */
    method RaiseLimit(limit: int) returns (next: Option<int>)
      requires !Exhausted()
      ensures next.Some? ==> next.value > EffectiveLimit(agent, limit) && next.value <= agent.maxTokens - used.tokens
      ensures next.None? <==> NoRoom(limit)
      ensures next.Some? ==>
                next.value == Min(agent.maxTokens - used.tokens,
                                  (if limit == 0 then agent.maxOutputTokens + Max(256, agent.maxOutputTokens)
                                   else limit + Max(256, limit)))
    {
      var current := EffectiveLimit(agent, limit);
      var remaining := Max(1, agent.maxTokens - used.tokens);
      var grown := Min(Max(current + 256, current * 2), remaining);
      return if grown <= current then None else Some(grown);
    }

    ghost predicate MayRaise(limit: int, cutOff: bool)
      reads this`requests, this`used
    {
      cutOff ==>
        && requests != [] && limit > EffectiveLimit(agent, requests[|requests| - 1].limit)
        && limit <= agent.maxTokens - used.tokens
    }

    lemma AllIsStored()
      requires Accounted() && Saved()
      ensures StoredUpTo(|completions|)
    {
      assert completions[..|completions|] == completions;
    }

    /** What follows a failed request or a rejected completion. */
    method AfterRejection(reply: Reply, limit: int, isLast: bool) returns (next: Next)
      requires !Usable(reply, schema) && requests != [] && requests[|requests| - 1].limit == limit
      ensures next.Stop? || next.Retry?
      ensures next.Stop? ==> next.error in {ProviderError, BudgetExceeded, Refused}
      ensures next == Stop(ProviderError) ==> isLast || Hopeless(reply) || (CutOff(reply) && NoRoom(limit))
      ensures next == Stop(BudgetExceeded) ==> Exhausted()
      ensures next.Retry? ==> !isLast && !Exhausted() && MayRaise(next.limit, next.cutOff)
      ensures next.Retry? ==> !Hopeless(reply) && (next.cutOff <==> CutOff(reply))
      ensures next.Retry? && !next.cutOff ==> next.limit == limit
    {
      var retryable, cut;
      if reply.Failure? {
        retryable, cut := reply.retryable, reply.reportsCutOff;
      } else {
        var verdict := Validate(reply, schema);
        retryable, cut := verdict != Blocked, verdict == TooLong;
      }
      if !retryable || isLast {
        return Stop(ProviderError);
      }
      if Exhausted() {
        return Stop(BudgetExceeded);
      }
      if !cut {
        return Retry(limit, false);
      }
      var raised := RaiseLimit(limit);
      if raised.None? {
        return Stop(ProviderError);
      }
      var audited := Boundary();
      return if audited.Some? then Stop(audited.value) else Retry(raised.value, true);
    }

    /** Everything is charged, and the stored run lacks the completion if there was one. */
    ghost predicate Rejected(reply: Reply)
      reads this`used, this`completions, this`journal
    {
      Accounted() && MissesAtMostTheLast() && (StoredUpTo(|completions|) <==> reply.Failure?)
    }

    /** A rejected completion is charged; the stored run then lacks it. */
    method Reject(reply: Reply)
      requires Answered(reply)
      modifies this`used
      ensures Rejected(reply)
    {
      if reply.Failure? {
        AllIsStored();
      } else {
        Charge(reply);
      }
    }

    method Recover(reply: Reply, limit: int, isLast: bool) returns (next: Next)
      requires Answered(reply) && !Usable(reply, schema) && requests != [] && requests[|requests| - 1].limit == limit
      modifies this`used
      ensures Rejected(reply) && (next.Stop? || next.Retry?)
      ensures next.Stop? ==> next.error in {ProviderError, BudgetExceeded, Refused}
      ensures next == Stop(ProviderError) ==> isLast || Hopeless(reply) || (CutOff(reply) && NoRoom(limit))
      ensures next == Stop(BudgetExceeded) ==> Exhausted()
      ensures next.Retry? ==> !isLast && !Exhausted() && MayRaise(next.limit, next.cutOff)
      ensures next.Retry? ==> !Hopeless(reply) && (next.cutOff <==> CutOff(reply))
      ensures next.Retry? && !next.cutOff ==> next.limit == limit
    {
      Reject(reply);
      next := AfterRejection(reply, limit, isLast);
    }

    /** One attempt up to the decision to return, stop or retry with a new limit. */
    method Attempt(limit: int, cutOff: bool, isLast: bool) returns (reply: Reply, next: Next)
      requires Valid() && Accounted() && Saved() && !Exhausted() && MayRaise(limit, cutOff)
      modifies this`requests, this`completions, this`used
      ensures Valid() && Asked(old(requests), requests, limit)
      ensures next.Return? <==> Usable(reply, schema)
      ensures next.Return? ==> Answered(reply)
      ensures !next.Return? ==> Rejected(reply)
      ensures next.Stop? ==> next.error in {ProviderError, BudgetExceeded, Refused}
      ensures next == Stop(ProviderError) ==> isLast || Hopeless(reply) || (CutOff(reply) && NoRoom(limit))
      ensures next == Stop(BudgetExceeded) ==> Exhausted()
      ensures next.Retry? ==> !isLast && !Exhausted() && MayRaise(next.limit, next.cutOff)
      ensures next.Retry? ==> !Hopeless(reply) && (next.cutOff <==> CutOff(reply))
      ensures next.Retry? && !next.cutOff ==> next.limit == limit
    {
      reply := Generate(limit, cutOff);
      if reply.Completion? && Validate(reply, schema) == Accepted {
        return reply, Return;
      }
      next := Recover(reply, limit, isLast);
    }

    /** Counts a retry and goes through `retrying` to `target`. */
    method RetryAt(target: Status)
      requires Valid() && InStep() && status in {InvokingModel, Verifying} && target in {InvokingModel, Planning}
      modifies this`status, this`journal, this`attemptCount
      ensures Valid() && InStep() && Saved() && status == target
      ensures attemptCount == old(attemptCount) + 1
      ensures AppendedTwo(old(journal.saves), journal.saves, Retrying, target)
    {
      attemptCount := attemptCount + 1;
      MayMove(Retrying);
      var error := Transition(Retrying, Move);
      ghost var between := journal.saves;
      MayMove(target);
      error := Transition(target, Move);
      AppendingTwice(old(journal.saves), between, journal.saves, Retrying, target);
    }

    /** `_model_with_retry`: a returned completion is the only one not yet charged; on an error
        every completion received was rejected and has been charged. */
    method ModelWithRetry(first: int) returns (error: Option<Error>, reply: Reply)
      requires Valid() && InStep() && Accounted() && Saved() && !Exhausted() && status == InvokingModel
      requires agent.maxAttempts >= 1
      modifies this`status, this`journal, this`requests, this`completions, this`attemptCount,
               this`used
      ensures Valid() && InStep() && error != Some(RejectedTransition)
      ensures error.None? ==> status == InvokingModel && Owes(reply) && Usable(reply, schema)
      ensures error.None? ==> StoredUpTo(|completions| - 1)
      ensures error.Some? ==> Rejected(reply) && status == InvokingModel
      ensures old(journal.saves) <= journal.saves
      ensures |old(requests)| < |requests| <= |old(requests)| + agent.maxAttempts
      ensures old(requests) <= requests && requests[|old(requests)|].limit == first
      ensures error == Some(ProviderError) ==>
                || |requests| == |old(requests)| + agent.maxAttempts || Hopeless(reply)
                || (CutOff(reply) && NoRoom(requests[|requests| - 1].limit))
      ensures error == Some(BudgetExceeded) ==> Exhausted()
    {
      var next := Retry(first, false);
      var attempt := 0;
      while true
        invariant Valid() && InStep() && Accounted() && Saved() && !Exhausted() && status == InvokingModel
        invariant next.Retry? && MayRaise(next.limit, next.cutOff)
        invariant old(journal.saves) <= journal.saves
        invariant attempt < agent.maxAttempts && |requests| == |old(requests)| + attempt && old(requests) <= requests
        invariant if attempt == 0 then next.limit == first else requests[|old(requests)|].limit == first
        decreases agent.maxAttempts - attempt
      {
        reply, next := Attempt(next.limit, next.cutOff, attempt + 1 == agent.maxAttempts);
        if next.Return? {
          return None, reply;
        }
        if next.Stop? {
          return Some(next.error), reply;
        }
        attempt := attempt + 1;
        RetryAt(InvokingModel);
      }
    }

    /** The limit of the first request; the `before_model` policy may replace the whole request. */
    method RequestLimit() returns (limit: int, ghost replaced: bool)
      requires !Exhausted()
      ensures !replaced ==> limit <= agent.maxTokens - used.tokens && limit <= EffectiveLimit(agent, override)
      ensures !replaced ==> limit in {agent.maxTokens - used.tokens, if override == 0 then agent.maxOutputTokens else override}
    {
      limit := Min(if override != 0 then override else agent.maxOutputTokens, Max(1, agent.maxTokens - used.tokens));
      var byPolicy: bool := *;
      if byPolicy {
        limit := *;
      }
      replaced := byPolicy;
    }

    method TakeReply(reply: Reply) returns (error: Option<Error>)
      requires Valid() && InStep() && Owes(reply) && status == InvokingModel
      modifies this`output, this`pending, this`used, this`status, this`journal
      ensures Valid() && Accounted() && error in {None, Some(Refused)}
      ensures pending == reply.calls && old(journal.saves) <= journal.saves
      ensures status == if error.None? then Planning else InvokingModel
      ensures if error.None? then Saved() && InStep() else journal == old(journal)
    {
      output := *;     // the policy may replace the text
      pending := reply.calls;
      Charge(reply);
      error := Proceed(Planning, Move);
    }

    method AnswerFromModel(limit: int) returns (error: Option<Error>)
      requires Valid() && InStep() && Accounted() && Saved() && !Exhausted() && status == InvokingModel
      requires agent.maxAttempts >= 1
      modifies this`status, this`journal, this`requests, this`completions, this`attemptCount,
               this`used, this`output, this`pending
      ensures Valid() && error != Some(RejectedTransition) && old(journal.saves) <= journal.saves
      ensures error.None? ==> status == Planning && InStep() && Accounted() && Saved()
      ensures error.Some? ==> status == InvokingModel && MissesAtMostTheLast()
      ensures error.Some? ==> Accounted() || exists reply :: Owes(reply)
      ensures error == Some(BudgetExceeded) ==> Exhausted()
      ensures |old(requests)| < |requests| && requests[|old(requests)|].limit == limit
    {
      var reply;
      error, reply := ModelWithRetry(limit);
      if error.Some? {
        return error;
      }
      error := Boundary();
      assert Owes(reply);
      if error.Some? {
        return error;
      }
      error := TakeReply(reply);
    }

    /** `_execute_model`.  A completion that the output policy refuses is the only one that can
        stay uncharged, and then the action raises.  The error handlers record the failure on the
        stored run, so what was charged after its last save, the last completion at most, is lost. */
    method ExecuteModel() returns (error: Option<Error>, ghost replaced: bool)
      requires Valid() && InStep() && Accounted() && Saved() && !Exhausted() && status == Planning
      requires agent.maxAttempts >= 1
      modifies this`status, this`journal, this`requests, this`completions, this`attemptCount,
               this`used, this`output, this`pending
      ensures Valid() && error != Some(RejectedTransition) && old(journal.saves) <= journal.saves
      ensures error.None? ==> status == Planning && InStep() && Accounted() && Saved()
      ensures error.Some? ==> status == InvokingModel && MissesAtMostTheLast()
      ensures error.Some? ==> Accounted() || exists reply :: Owes(reply)
      ensures error == Some(BudgetExceeded) ==> Exhausted()
      ensures error.None? ==> |old(requests)| < |requests|
      ensures |old(requests)| < |requests| && !replaced ==>
                requests[|old(requests)|].limit ==
                Min(if override == 0 then agent.maxOutputTokens else override, agent.maxTokens - old(used.tokens))
    {
      error := Transition(InvokingModel, Move);
      var limit;
      limit, replaced := RequestLimit();
      var refused := Boundary();
      if refused.Some? {
        AllIsStored();
        return refused, replaced;
      }
      error := AnswerFromModel(limit);
    }

    method InvokeTool(call: CallId) returns (error: Option<Error>)
      requires Valid() && InStep() && Accounted() && Saved() && status == InvokingTool
      requires journal.copy.run.pending == pending && journal.copy.tool == Some(call)
      modifies this`status, this`journal, this`output, this`pending, this`completed
      ensures Valid() && Accounted() && Saved() && error in {None, Some(Refused)} && old(journal.saves) <= journal.saves
      ensures error.None? ==>
                && InStep() && status == BuildingContext && completed == old(completed) + {call}
                && pending == Without(old(pending), call) && !output
      ensures error.Some? ==> status == InvokingTool
    {
      error := Boundary();
      if error.Some? {
        return error;
      }
      completed := completed + {call};
      pending := Without(pending, call);
      output := false;
      MayFinish(call, old(pending), old(completed));
      error := Proceed(BuildingContext, FinishTool(call));
    }

    ghost predicate Extends(oldSaves: seq<Save>, oldSteps: nat)
      reads this
    {
      oldSaves <= journal.saves && stepCount == oldSteps
    }

    method WaitForApproval(call: CallId) returns (error: Option<Error>)
      requires Valid() && InStep() && Accounted() && Saved() && status == Planning
      requires call !in approved && (BuiltIn() ==> FirstOpen(call))
      modifies this`status, this`journal
      ensures Valid() && InStep() && Accounted() && Saved() && error in {None, Some(Refused)}
      ensures old(journal.saves) <= journal.saves
      ensures status == AwaitingApproval || (error.Some? && status == Planning)
    {
      error := Proceed(AwaitingApproval, AskApproval(call));
      if error.None? {
        error := Boundary();
      }
    }

    method UseTool(call: CallId, ghost required: bool) returns (error: Option<Error>)
      requires Valid() && InStep() && Accounted() && Saved() && status == Planning
      requires (BuiltIn() ==> FirstOpen(call)) && (required ==> call in approved)
      modifies this`status, this`journal, this`output, this`pending, this`completed
      ensures Valid() && Accounted() && Saved() && error in {None, Some(Refused)}
      ensures old(journal.saves) <= journal.saves
      ensures error.None? ==>
                && InStep() && status == BuildingContext && completed == old(completed) + {call}
                && pending == Without(old(pending), call) && !output
                && StartsWith(old(journal.saves), journal.saves, EnterTool(call, required))
      ensures error.Some? ==> status in {Planning, InvokingTool}
    {
      MayEnter(call, required);
      error := Proceed(InvokingTool, EnterTool(call, required));
      if error.None? {
        ghost var entered := journal.saves;
        error := InvokeTool(call);
        assert journal.saves[|old(journal.saves)|] == entered[|old(journal.saves)|];
      }
    }

    /** `_execute_tool`: the call waits exactly when it needs an approval that it does not have, and otherwise
        completes. */
    method ExecuteTool(call: CallId) returns (error: Option<Error>, ghost required: bool)
      requires Valid() && InStep() && Accounted() && Saved() && status == Planning
      requires BuiltIn() ==> FirstOpen(call)
      modifies this`status, this`journal, this`output, this`pending, this`completed
      ensures Valid() && Accounted() && Saved() && error in {None, Some(Refused)}
      ensures Extends(old(journal.saves), old(stepCount))
      ensures error.None? ==> InStep()
      ensures error.None? && required && call !in approved ==> status == AwaitingApproval && completed == old(completed)
      ensures error.None? && (required ==> call in approved) ==>
                && status == BuildingContext && completed == old(completed) + {call}
                && pending == Without(old(pending), call) && !output
      ensures required && call !in approved ==> status != InvokingTool
      ensures error.None? && (required ==> call in approved) ==>
                StartsWith(old(journal.saves), journal.saves, EnterTool(call, required))
      ensures error.Some? ==> status in {Planning, AwaitingApproval, InvokingTool}
    {
      var approvalRequired: bool := *;
      required := approvalRequired;
      if approvalRequired && call !in approved {
        error := WaitForApproval(call);
        return error, required;
      }
      error := UseTool(call, required);
    }

    method Repair() returns (error: Option<Error>)
      requires Valid() && InStep() && Accounted() && Saved() && status == Verifying
      modifies this`status, this`journal, this`output, this`attemptCount
      ensures Valid() && InStep() && Accounted() && Saved() && error in {None, Some(Refused)}
      ensures old(journal.saves) <= journal.saves
      ensures status == if error.None? then Planning else Verifying
      ensures error.None? ==> attemptCount == old(attemptCount) + 1 && !output
    {
      error := Boundary();
      if error.None? {
        output := false;
        RetryAt(Planning);
      }
    }

    method Compose() returns (error: Option<Error>)
      requires Valid() && InStep() && Accounted() && Saved() && status == Verifying
      modifies this`status, this`journal
      ensures Valid() && InStep() && Accounted() && Saved() && error in {None, Some(Refused)}
      ensures old(journal.saves) <= journal.saves
      ensures error.None? ==> status == Completed
      ensures error.Some? ==> status in {Verifying, Composing, Completed}
    {
      error := Proceed(Composing, Move);
      if error.None? {
        error := Proceed(Completed, Move);
        if error.None? {
          error := Boundary();
        }
      }
    }

    /** `_verify_and_complete`: completed exactly if verification passed, and otherwise sent back for a repair
        until the allowance is used up. */
    method VerifyAndComplete() returns (error: Option<Error>, ghost passed: bool)
      requires Valid() && InStep() && Accounted() && Saved() && status == Planning
      modifies this`status, this`journal, this`output, this`attemptCount
      ensures Valid() && InStep() && Accounted() && Saved() && error in {None, Some(Refused), Some(VerificationFailed)}
      ensures Extends(old(journal.saves), old(stepCount))
      ensures error.None? && passed ==> status == Completed && attemptCount == old(attemptCount)
      ensures error.None? && !passed ==>
                && status == Planning && old(attemptCount) < agent.maxRepairs
                && attemptCount == old(attemptCount) + 1 && !output
      ensures error == Some(VerificationFailed) ==> !passed && attemptCount == old(attemptCount) >= agent.maxRepairs
      ensures !passed ==> status !in {Composing, Completed}
      ensures error.Some? ==> status in {Verifying, Composing, Completed}
    {
      error := Transition(Verifying, Move);
      var allPassed: bool := *;
      passed := allPassed;
      if allPassed {
        error := Compose();
      } else if attemptCount >= agent.maxRepairs {
        error := Some(VerificationFailed);
      } else {
        error := Repair();
      }
    }

    method OpenCall() returns (call: Option<CallId>)
      ensures call.None? <==> forall c :: c in pending ==> c in completed
      ensures call.Some? ==> FirstOpen(call.value)
    {
      for i := 0 to |pending|
        invariant forall j :: 0 <= j < i ==> pending[j] in completed
      {
        if pending[i] !in completed {
          return Some(pending[i]);
        }
      }
      return None;
    }

    ghost predicate PlansReAct(action: Action)
      reads this`output, this`pending, this`completed
    {
      if action.CallTool? then FirstOpen(action.call)
      else (forall c :: c in pending ==> c in completed) && action == if output then Finalize else CallModel
    }

    /** What the planners plan first. */
    ghost predicate Plans(blank: bool, action: Action)
      reads this`output, this`pending, this`completed
    {
      match strategy
      case Direct => action == if output then Finalize else CallModel
      case RuleBased => if blank then action == Clarify else PlansReAct(action)
      case ReAct => PlansReAct(action)
      case Custom => true
    }

    /** The planners; only the first action of a plan is executed.  `blank` tells that the input is
        blank.  Registered planners may plan anything. */
    method Plan(blank: bool) returns (action: Action)
      ensures Plans(blank, action)
    {
      if strategy == Custom {
        action := *;
        return action;
      }
      if strategy == RuleBased && blank {
        return Clarify;
      }
      if strategy != Direct {
        var open := OpenCall();
        if open.Some? {
          return CallTool(open.value);
        }
      }
      return if output then Finalize else CallModel;
    }

    /** A transition followed by its event, which may raise after the status is saved. */
    method Announce(target: Status) returns (error: Option<Error>)
      requires Valid() && Accounted() && MaySave(Move, target)
      modifies this`status, this`journal
      ensures Valid() && InStep() && Accounted() && Saved() && error in {None, Some(Refused)}
      ensures status == target && Appended(old(journal.saves), journal.saves, Move, target)
    {
      error := Transition(target, Move);
      error := Boundary();
    }

    method Dispatch(action: Action) returns (error: Option<Error>)
      requires Valid() && InStep() && Accounted() && Saved() && !Exhausted() && status == Planning
      requires agent.maxAttempts >= 1
      requires BuiltIn() && action.CallTool? ==> FirstOpen(action.call)
      modifies this`status, this`journal, this`requests, this`completions, this`attemptCount,
               this`used, this`output, this`pending, this`completed
      ensures Valid() && error != Some(RejectedTransition) && old(journal.saves) <= journal.saves
      ensures error.None? ==> LeadsWhere(action, status, old(completed), completed, approved)
      ensures error.None? ==> (action.CallModel? <==> |old(requests)| < |requests|)
      ensures error.None? ==> InStep() && Accounted() && Saved()
      ensures error.Some? ==> status != Received && MissesAtMostTheLast()
      ensures error == Some(BudgetExceeded) ==> Exhausted()
    {
      ghost var approvalRequired, passed, replaced;
      match action {
        case Clarify => error := Announce(AwaitingClarification);
        case CallTool(call) => error, approvalRequired := ExecuteTool(call);
        case CallModel => error, replaced := ExecuteModel();
        case Finalize => error, passed := VerifyAndComplete();
        case GiveUp => error := Announce(Failed);
        case Unsupported => error := Some(Refused);
      }
      if !action.CallModel? {
        AllIsStored();
      }
    }

    /** `_execute_action`: exactly one action, and exactly one step. */
    method ExecuteAction(action: Action) returns (error: Option<Error>)
      requires Valid() && InStep() && Accounted() && Saved() && !Exhausted() && status == Planning
      requires agent.maxAttempts >= 1
      requires BuiltIn() && action.CallTool? ==> FirstOpen(action.call)
      modifies this
      ensures Valid() && error != Some(RejectedTransition) && Extends(old(journal.saves), old(stepCount) + 1)
      ensures error.None? ==> LeadsWhere(action, status, old(completed), completed, old(approved))
      ensures error.None? ==> (action.CallModel? <==> |old(requests)| < |requests|)
      ensures error.None? ==> InStep() && Accounted() && Saved() && LoopHead(status)
      ensures error.Some? ==> status != Received && MissesAtMostTheLast()
      ensures error == Some(BudgetExceeded) ==> Exhausted()
    {
      stepCount := stepCount + 1;
      error := Dispatch(action);
    }

    method BuildContext() returns (error: Option<Error>)
      requires Valid() && InStep() && Accounted() && Saved() && status in {BuildingContext, Planning}
      modifies this`status, this`journal
      ensures Valid() && InStep() && Accounted() && Saved() && error in {None, Some(Refused)}
      ensures old(journal.saves) <= journal.saves && status == if error.None? then Planning else old(status)
      ensures journal.stored == old(journal.stored)
    {
      error := None;
      if status == BuildingContext {
        error := Proceed(Planning, Move);
      }
    }

    /** One pass of the loop body, after the ceilings at its head: what the planner plans is what is done. */
    method Iterate() returns (error: Option<Error>, ghost action: Option<Action>, ghost blank: bool)
      requires Valid() && InStep() && Accounted() && Saved() && !Exhausted() && agent.maxAttempts >= 1
      requires status in {BuildingContext, Planning}
      modifies this
      ensures Valid() && error != Some(RejectedTransition) && old(journal.saves) <= journal.saves
      ensures action.Some? ==> old(Plans(blank, action.value))
      ensures error.None? ==>
                action.Some? && LeadsWhere(action.value, status, old(completed), completed, old(approved))
      ensures error.None? ==> stepCount == old(stepCount) + 1 && InStep() && Accounted() && Saved() && LoopHead(status)
      ensures error.Some? ==> stepCount <= old(stepCount) + 1 && status != Received && MissesAtMostTheLast()
      ensures error == Some(BudgetExceeded) ==> Exhausted()
    {
      AllIsStored();
      action, blank := None, false;
      error := BuildContext();
      if error.Some? {
        return error, action, blank;
      }
      var isBlank: bool := *;
      var planned := Plan(isBlank);
      action, blank := Some(planned), isBlank;
      error := Boundary();
      if error.Some? {
        return error, action, blank;
      }
      error := ExecuteAction(planned);
    }

    /** A run that was only received is validated first. */
    method Admit() returns (error: Option<Error>)
      requires Valid() && InStep() && Accounted() && Saved() && Scheduled(status)
      modifies this`status, this`journal
      ensures Valid() && InStep() && Accounted() && Saved() && error in {None, Some(Refused)}
      ensures old(journal.saves) <= journal.saves
      ensures if error.None? then status in {BuildingContext, Planning} else status == Validating
    {
      error := None;
      if status == Received {
        error := Transition(Validating, Move);
        error := Boundary();
        if error.None? {
          error := Transition(BuildingContext, Move);
        }
      }
    }

    /** `_execute`: from any scheduled status, the loop stops within the steps the agent has left.
        It never asks for a transition the table rejects, it accounts for every completion at every
        loop head, and it returns only with the run paused or terminal.  It reports an exceeded budget only
        when a ceiling is reached, and from a ceiling it makes no iteration. */
    method Execute() returns (error: Option<Error>, iterations: nat)
      requires Valid() && InStep() && Accounted() && Saved() && Scheduled(status) && agent.maxAttempts >= 1
      modifies this
      ensures Valid() && old(journal.saves) <= journal.saves
      ensures error != Some(RejectedTransition)
      ensures error.None? ==> (Terminal(status) || Paused(status)) && stepCount == old(stepCount) + iterations
      ensures if error.None? then InStep() && Accounted() && Saved() else MissesAtMostTheLast()
      ensures error.Some? ==> stepCount <= old(stepCount) + iterations
      ensures error.Some? ==> status != Received
      ensures iterations <= (if old(stepCount) <= agent.maxSteps then agent.maxSteps - old(stepCount) else 0)
      ensures error == Some(BudgetExceeded) ==>
                stepCount >= agent.maxSteps || used.tokens >= agent.maxTokens || used.cost >= agent.maxCost
      ensures old(stepCount >= agent.maxSteps || used.tokens >= agent.maxTokens || used.cost >= agent.maxCost) ==>
                iterations == 0 && stepCount == old(stepCount)
      ensures iterations == 0 ==> error in {Some(BudgetExceeded), Some(Refused)}
    {
      iterations := 0;
      error := Admit();
      if error.Some? {
        AllIsStored();
        return error, iterations;
      }
      while !Terminal(status) && !Paused(status)
        invariant Valid() && InStep() && Accounted() && Saved() && LoopHead(status)
        invariant old(journal.saves) <= journal.saves
        invariant stepCount == old(stepCount) + iterations
        invariant iterations <= (if old(stepCount) <= agent.maxSteps then agent.maxSteps - old(stepCount) else 0)
        invariant iterations == 0 ==> used == old(used) && status in {BuildingContext, Planning}
        invariant old(stepCount >= agent.maxSteps || used.tokens >= agent.maxTokens || used.cost >= agent.maxCost) ==>
                    iterations == 0
        decreases agent.maxSteps - stepCount
      {
        AllIsStored();
        if stepCount >= agent.maxSteps || Exhausted() {
          return Some(BudgetExceeded), iterations;
        }
        iterations := iterations + 1;
        ghost var action, blank;
        error, action, blank := Iterate();
        if error.Some? {
          return error, iterations;
        }
      }
      return None, iterations;
    }

    /** A driver takes enabled steps only: wherever its run was checked out, with whatever other actors about,
        its saves so far are steps of the life of the run, and leave it with the copy it holds. */
    lemma TakesEnabledSteps(sys: System, a: nat, decisions: set<Decision>) returns (next: System)
      requires Valid() && sys.builtIn == BuiltIn() && Reachable(sys, decisions) && Holds(sys, a, checkedOut)
      ensures Reachable(next, decisions) && Logged(sys.log, next.log, journal.saves)
      ensures Holds(next, a, journal.copy) && next.actors[a].run.status == status
    {
      next := SavesAreSteps(sys, a, checkedOut, journal.saves, journal.copy, decisions);
    }
  }
}
