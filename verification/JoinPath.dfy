/** The greedy choice of governed joins that connects a base model to the other models of a query. */
module JoinPath {
  import opened Wrappers

  datatype Join = Join(name: string, left: string, right: string, tags: set<string>)

  datatype Outcome =
    | Joined(path: seq<Join>)
    | NoJoin(reached: set<string>, remaining: set<string>)
    | Unauthorized(join: Join, missing: set<string>)

  // ---------------------------------------------------------------------------------------------
  // The greedy choice

  predicate IsAuthorized(j: Join, authorized: set<string>) {
    j.tags - authorized == {}
  }

  function Reach(reached: set<string>, j: Join): set<string> {
    reached + {j.left, j.right}
  }

  function Prefixed(path: seq<Join>, r: Outcome): Outcome {
    if r.Joined? then Joined(path + r.path) else r
  }

  predicate Crosses(j: Join, reached: set<string>, remaining: set<string>) {
    (j.left in reached && j.right in remaining) || (j.right in reached && j.left in remaining)
  }

  /** The join crosses, and none before it in the order of the layer does. */
  ghost predicate FirstCrossing(joins: seq<Join>, j: Join, reached: set<string>, remaining: set<string>) {
    exists i ::
      && 0 <= i < |joins| && joins[i] == j && Crosses(j, reached, remaining)
      && forall k :: 0 <= k < i ==> !Crosses(joins[k], reached, remaining)
  }

  lemma LaterIsFirst(joins: seq<Join>, j: Join, reached: set<string>, remaining: set<string>)
    requires joins != [] && !Crosses(joins[0], reached, remaining)
    requires FirstCrossing(joins[1..], j, reached, remaining)
    ensures FirstCrossing(joins, j, reached, remaining)
  {
    var rest := joins[1..];
    var i :| 0 <= i < |rest| && rest[i] == j && forall k :: 0 <= k < i ==> !Crosses(rest[k], reached, remaining);
    forall k | 0 <= k < i + 1 ensures !Crosses(joins[k], reached, remaining) {
      if k > 0 { assert joins[k] == rest[k - 1]; }
    }
    assert joins[i + 1] == j;
  }

  /** The first join in the order of the layer that leads from a reached model to a remaining one. */
  function Candidate(joins: seq<Join>, reached: set<string>, remaining: set<string>): (c: Option<Join>)
    ensures c.Some? ==> c.value in joins && Crosses(c.value, reached, remaining)
    ensures c.Some? ==> FirstCrossing(joins, c.value, reached, remaining)
    ensures c.None? ==> forall j :: j in joins ==> !Crosses(j, reached, remaining)
  {
    if joins == [] then None
    else if Crosses(joins[0], reached, remaining) then Some(joins[0])
    else
      var c := Candidate(joins[1..], reached, remaining);
      if c.Some? then LaterIsFirst(joins, c.value, reached, remaining); c else c
  }

  /** A candidate takes a model off the remaining ones, also when base and targets overlap. */
  lemma Decreases(j: Join, reached: set<string>, remaining: set<string>)
    requires Crosses(j, reached, remaining)
    ensures |remaining - Reach(reached, j)| < |remaining|
  {
    var m := if j.left in remaining then j.left else j.right;
    assert remaining - Reach(reached, j) <= remaining - {m};
    SubsetSize(remaining - Reach(reached, j), remaining - {m});
  }

  /** What the choice ends in, from models already reached and models still remaining. */
  function Greedy(joins: seq<Join>, authorized: set<string>, reached: set<string>, remaining: set<string>): Outcome
    decreases |remaining|
  {
    if remaining == {} then Joined([])
    else
      var c := Candidate(joins, reached, remaining);
      if c.None? then NoJoin(reached, remaining)
      else if !IsAuthorized(c.value, authorized) then Unauthorized(c.value, c.value.tags - authorized)
      else
        var next := Reach(reached, c.value);
        Decreases(c.value, reached, remaining);
        Prefixed([c.value], Greedy(joins, authorized, next, remaining - next))
  }

  /** The model a candidate adds. */
  function AddedBy(j: Join, reached: set<string>): string {
    if j.left in reached then j.right else j.left
  }

  /** A candidate reaches exactly one more model, one that remained. */
  lemma OneNew(j: Join, reached: set<string>, remaining: set<string>)
    requires Crosses(j, reached, remaining) && reached !! remaining
    ensures var m := AddedBy(j, reached);
            && m in remaining && m !in reached
            && Reach(reached, j) == reached + {m} && remaining - Reach(reached, j) == remaining - {m}
  {
  }

  lemma Shrinks(j: Join, reached: set<string>, remaining: set<string>)
    requires Crosses(j, reached, remaining) && reached !! remaining
    ensures var next := Reach(reached, j);
            && |remaining - next| == |remaining| - 1 && |next| == |reached| + 1 && next !! (remaining - next)
            && next + (remaining - next) == reached + remaining
  {
    OneNew(j, reached, remaining);
  }

  method FirstCandidate(joins: seq<Join>, reached: set<string>, remaining: set<string>) returns (c: Option<Join>)
    ensures c == Candidate(joins, reached, remaining)
  {
    for i := 0 to |joins|
      invariant Candidate(joins, reached, remaining) == Candidate(joins[i..], reached, remaining)
    {
      if Crosses(joins[i], reached, remaining) {
        return Some(joins[i]);
      }
    }
    return None;
  }

  lemma PrefixedTwice(a: seq<Join>, b: seq<Join>, r: Outcome)
    ensures Prefixed(a, Prefixed(b, r)) == Prefixed(a + b, r)
  {
    if r.Joined? { assert a + (b + r.path) == (a + b) + r.path; }
  }

  method FindJoinPath(joins: seq<Join>, authorized: set<string>, base: string, targets: set<string>)
    returns (r: Outcome)
    ensures r == Greedy(joins, authorized, {base}, targets)
  {
    var selected: seq<Join> := [];
    var reached := {base};
    var remaining := targets;
    ghost var whole := Greedy(joins, authorized, {base}, targets);
    while remaining != {}
      invariant whole == Prefixed(selected, Greedy(joins, authorized, reached, remaining))
      decreases |remaining|
    {
      var candidate := FirstCandidate(joins, reached, remaining);
      if candidate.None? {
        return NoJoin(reached, remaining);
      }
      var required := candidate.value.tags - authorized;
      if required != {} {
        return Unauthorized(candidate.value, required);
      }
      Decreases(candidate.value, reached, remaining);
      ghost var rest := Greedy(joins, authorized, Reach(reached, candidate.value), remaining - Reach(reached, candidate.value));
      PrefixedTwice(selected, [candidate.value], rest);
      selected := selected + [candidate.value];
      reached := reached + {candidate.value.left, candidate.value.right};
      remaining := remaining - reached;
    }
    return Joined(selected);
  }

  // ---------------------------------------------------------------------------------------------
  // Connection in the join graph

  predicate Links(j: Join, a: string, b: string) {
    (j.left == a && j.right == b) || (j.left == b && j.right == a)
  }

  ghost predicate Linked(joins: seq<Join>, a: string, b: string) {
    exists j :: j in joins && Links(j, a, b)
  }

  /** A walk along joins that stays within the allowed models. */
  ghost predicate Walk(joins: seq<Join>, allowed: set<string>, walk: seq<string>) {
    && walk != [] && (forall i :: 0 <= i < |walk| ==> walk[i] in allowed)
    && (forall i :: 0 < i < |walk| ==> Linked(joins, walk[i - 1], walk[i]))
  }

  ghost predicate Connected(joins: seq<Join>, allowed: set<string>, base: string, model: string) {
    exists walk :: Walk(joins, allowed, walk) && walk[0] == base && walk[|walk| - 1] == model
  }

  ghost predicate AllConnected(joins: seq<Join>, base: string, targets: set<string>) {
    forall t :: t in targets ==> Connected(joins, targets + {base}, base, t)
  }

  // ---------------------------------------------------------------------------------------------
  // What the path is

  function ModelsOf(base: set<string>, path: seq<Join>): set<string>
    decreases |path|
  {
    if path == [] then base else ModelsOf(Reach(base, path[0]), path[1..])
  }

  /** Every join of the path is the first one of the layer that crosses, is authorized, and adds exactly one
      new model, one of the remaining ones, to those reached before it. */
  ghost predicate Tree(joins: seq<Join>, authorized: set<string>, reached: set<string>, remaining: set<string>, path: seq<Join>)
    decreases path
  {
    if path == [] then remaining == {}
    else
      && FirstCrossing(joins, path[0], reached, remaining) && IsAuthorized(path[0], authorized)
      && var next := Reach(reached, path[0]);
         |next| == |reached| + 1 && Tree(joins, authorized, next, remaining - next, path[1..])
  }

  lemma {:induction false} GreedyBuildsATree(
      joins: seq<Join>, authorized: set<string>, reached: set<string>, remaining: set<string>)
    requires reached !! remaining && Greedy(joins, authorized, reached, remaining).Joined?
    ensures var path := Greedy(joins, authorized, reached, remaining).path;
            && Tree(joins, authorized, reached, remaining, path)
            && |path| == |remaining| && ModelsOf(reached, path) == reached + remaining
    decreases |remaining|
  {
    if remaining == {} {
    } else {
      var j := Candidate(joins, reached, remaining).value;
      var next := Reach(reached, j);
      Shrinks(j, reached, remaining);
      GreedyBuildsATree(joins, authorized, next, remaining - next);
      var path := Greedy(joins, authorized, reached, remaining).path;
      assert path[1..] == Greedy(joins, authorized, next, remaining - next).path;
    }
  }

  // ---------------------------------------------------------------------------------------------
  // A path exists exactly when the models are connected

  lemma Extend(joins: seq<Join>, allowed: set<string>, base: string, a: string, b: string, j: Join)
    requires Connected(joins, allowed, base, a) && j in joins && Links(j, a, b) && b in allowed
    ensures Connected(joins, allowed, base, b)
  {
    var walk :| Walk(joins, allowed, walk) && walk[0] == base && walk[|walk| - 1] == a;
    var longer := walk + [b];
    assert Linked(joins, a, b);
    forall i | 0 < i < |longer| ensures Linked(joins, longer[i - 1], longer[i]) {
      if i < |walk| { assert Linked(joins, walk[i - 1], walk[i]); }
    }
    assert Walk(joins, allowed, longer);
  }

  ghost predicate ReachedConnected(joins: seq<Join>, allowed: set<string>, base: string, reached: set<string>) {
    forall m :: m in reached ==> Connected(joins, allowed, base, m)
  }

  /** A successful choice connects through authorized joins: `open` is any list that has those. */
  lemma {:induction false} JoinedMeansConnected(
      joins: seq<Join>, open: seq<Join>, authorized: set<string>, reached: set<string>, remaining: set<string>,
      base: string, allowed: set<string>)
    requires reached !! remaining && reached + remaining == allowed && ReachedConnected(open, allowed, base, reached)
    requires forall j :: j in joins && IsAuthorized(j, authorized) ==> j in open
    requires Greedy(joins, authorized, reached, remaining).Joined?
    ensures ReachedConnected(open, allowed, base, allowed)
    decreases |remaining|
  {
    if remaining == {} {
      assert reached == allowed;
    } else {
      var j := Candidate(joins, reached, remaining).value;
      var next := Reach(reached, j);
      Shrinks(j, reached, remaining);
      if j.left in reached {
        Extend(open, allowed, base, j.left, j.right, j);
      } else {
        Extend(open, allowed, base, j.right, j.left, j);
      }
      JoinedMeansConnected(joins, open, authorized, next, remaining - next, base, allowed);
    }
  }

  /** A walk from a reached model to a remaining one uses a join that crosses. */
  lemma {:induction false} WalkCrosses(
      joins: seq<Join>, allowed: set<string>, reached: set<string>, remaining: set<string>, walk: seq<string>)
    requires Walk(joins, allowed, walk) && allowed == reached + remaining && reached !! remaining
    requires walk[0] in reached && walk[|walk| - 1] in remaining
    ensures exists j :: j in joins && Crosses(j, reached, remaining)
  {
    if walk[1] in reached {
      var shorter := walk[1..];
      assert forall i :: 0 < i < |shorter| ==> shorter[i - 1] == walk[i] && shorter[i] == walk[i + 1];
      assert Walk(joins, allowed, shorter);
      WalkCrosses(joins, allowed, reached, remaining, shorter);
    } else {
      assert walk[1] in allowed;
      assert Linked(joins, walk[1 - 1], walk[1]);
      var j :| j in joins && Links(j, walk[0], walk[1]);
      assert Crosses(j, reached, remaining);
    }
  }

  lemma {:induction false} ConnectedMeansNoDeadEnd(
      joins: seq<Join>, authorized: set<string>, reached: set<string>, remaining: set<string>, base: string, allowed: set<string>)
    requires reached !! remaining && reached + remaining == allowed && base in reached
    requires ReachedConnected(joins, allowed, base, remaining)
    ensures !Greedy(joins, authorized, reached, remaining).NoJoin?
    decreases |remaining|
  {
    if remaining == {} {
    } else {
      var t :| t in remaining;
      var walk :| Walk(joins, allowed, walk) && walk[0] == base && walk[|walk| - 1] == t;
      WalkCrosses(joins, allowed, reached, remaining, walk);
      var j := Candidate(joins, reached, remaining).value;
      var next := Reach(reached, j);
      Shrinks(j, reached, remaining);
      if IsAuthorized(j, authorized) {
        ConnectedMeansNoDeadEnd(joins, authorized, next, remaining - next, base, allowed);
      }
    }
  }

  /** Only a join within the query's models whose tags are not all granted stops the choice. */
  lemma {:induction false} UnauthorizedJoinIsRelevant(
      joins: seq<Join>, authorized: set<string>, reached: set<string>, remaining: set<string>, allowed: set<string>)
    requires reached !! remaining && reached + remaining == allowed
    requires Greedy(joins, authorized, reached, remaining).Unauthorized?
    ensures var Unauthorized(j, missing) := Greedy(joins, authorized, reached, remaining);
            && j in joins && j.left in allowed && j.right in allowed && missing == j.tags - authorized != {}
    decreases |remaining|
  {
    var j := Candidate(joins, reached, remaining).value;
    var next := Reach(reached, j);
    Shrinks(j, reached, remaining);
    if IsAuthorized(j, authorized) {
      UnauthorizedJoinIsRelevant(joins, authorized, next, remaining - next, allowed);
    }
  }

  /** Without a join that leads further, the error names what was reached and what remains, and no join leads
      from one to the other. */
  lemma {:induction false} NoJoinIsADeadEnd(
      joins: seq<Join>, authorized: set<string>, reached: set<string>, remaining: set<string>)
    requires reached !! remaining && Greedy(joins, authorized, reached, remaining).NoJoin?
    ensures var NoJoin(far, left) := Greedy(joins, authorized, reached, remaining);
            && reached <= far && far !! left && far + left == reached + remaining && left != {}
            && forall j :: j in joins ==> !Crosses(j, far, left)
    decreases |remaining|
  {
    var c := Candidate(joins, reached, remaining);
    if c.Some? {
      var next := Reach(reached, c.value);
      Shrinks(c.value, reached, remaining);
      NoJoinIsADeadEnd(joins, authorized, next, remaining - next);
    }
  }

  lemma BaseIsConnected(joins: seq<Join>, allowed: set<string>, base: string)
    requires base in allowed
    ensures Connected(joins, allowed, base, base)
  {
    assert Walk(joins, allowed, [base]) && [base][0] == base;
  }

  /** With every join among the query's models authorized, the choice succeeds exactly when every target
      is connected to the base within those models; it then takes one join for every target. */
  lemma SucceedsIffConnected(joins: seq<Join>, authorized: set<string>, base: string, targets: set<string>)
    requires base !in targets
    requires forall j :: j in joins && j.left in targets + {base} && j.right in targets + {base} ==> IsAuthorized(j, authorized)
    ensures var r := Greedy(joins, authorized, {base}, targets);
            && (r.Joined? <==> AllConnected(joins, base, targets))
            && (r.Joined? ==> |r.path| == |targets| && Tree(joins, authorized, {base}, targets, r.path)
                              && ModelsOf({base}, r.path) == targets + {base})
  {
    var allowed, r := targets + {base}, Greedy(joins, authorized, {base}, targets);
    BaseIsConnected(joins, allowed, base);
    if r.Joined? {
      GreedyBuildsATree(joins, authorized, {base}, targets);
      JoinedMeansConnected(joins, joins, authorized, {base}, targets, base, allowed);
    } else if AllConnected(joins, base, targets) {
      ConnectedMeansNoDeadEnd(joins, authorized, {base}, targets, base, allowed);
      UnauthorizedJoinIsRelevant(joins, authorized, {base}, targets, allowed);
      assert false;
    }
  }

  // ---------------------------------------------------------------------------------------------
  // Authorization is looked at after the choice

  ghost predicate AllAuthorized(path: seq<Join>, authorized: set<string>) {
    forall i :: 0 <= i < |path| ==> IsAuthorized(path[i], authorized)
  }

  lemma OneMoreAuthorized(j: Join, path: seq<Join>, authorized: set<string>)
    ensures AllAuthorized([j] + path, authorized) <==> IsAuthorized(j, authorized) && AllAuthorized(path, authorized)
  {
    var whole := [j] + path;
    if AllAuthorized(whole, authorized) {
      assert whole[0] == j && forall i :: 0 <= i < |path| ==> whole[i + 1] == path[i];
    }
  }

  /** The choice with these tags succeeds exactly when the choice that ignores tags does and takes only
      authorized joins, and it is then the same choice. */
  lemma {:induction false} AuthorizedIffChosenAreAuthorized(
      joins: seq<Join>, authorized: set<string>, every: set<string>, reached: set<string>, remaining: set<string>)
    requires reached !! remaining && authorized <= every && forall j :: j in joins ==> j.tags <= every
    ensures var free, r := Greedy(joins, every, reached, remaining), Greedy(joins, authorized, reached, remaining);
            && (r.Joined? <==> free.Joined? && AllAuthorized(free.path, authorized))
            && (r.Joined? ==> r == free)
    decreases |remaining|
  {
    if remaining != {} && Candidate(joins, reached, remaining).Some? {
      var j := Candidate(joins, reached, remaining).value;
      var next := Reach(reached, j);
      Shrinks(j, reached, remaining);
      assert IsAuthorized(j, every);
      AuthorizedIffChosenAreAuthorized(joins, authorized, every, next, remaining - next);
      var rest := Greedy(joins, every, next, remaining - next);
      if rest.Joined? {
        OneMoreAuthorized(j, rest.path, authorized);
      }
    }
  }

  function Tags(joins: seq<Join>): (tags: set<string>)
    ensures forall j :: j in joins ==> j.tags <= tags
  {
    if joins == [] then {} else joins[0].tags + Tags(joins[1..])
  }

  /** The joins a caller with these tags may use. */
  function AuthorizedJoins(joins: seq<Join>, authorized: set<string>): (open: seq<Join>)
    ensures forall j :: j in open <==> j in joins && IsAuthorized(j, authorized)
  {
    if joins == [] then []
    else (if IsAuthorized(joins[0], authorized) then [joins[0]] else []) + AuthorizedJoins(joins[1..], authorized)
  }

  lemma MoreJoinsConnect(open: seq<Join>, joins: seq<Join>, base: string, targets: set<string>)
    requires AllConnected(open, base, targets) && forall j :: j in open ==> j in joins
    ensures AllConnected(joins, base, targets)
  {
    var allowed := targets + {base};
    forall t | t in targets ensures Connected(joins, allowed, base, t) {
      var walk :| Walk(open, allowed, walk) && walk[0] == base && walk[|walk| - 1] == t;
      forall i | 0 < i < |walk| ensures Linked(joins, walk[i - 1], walk[i]) {
        assert Linked(open, walk[i - 1], walk[i]);
        var j :| j in open && Links(j, walk[i - 1], walk[i]);
        assert j in joins;
      }
      assert Walk(joins, allowed, walk);
    }
  }

  /** Success always means connection through authorized joins alone. */
  lemma SuccessMeansAuthorizedConnection(joins: seq<Join>, authorized: set<string>, base: string, targets: set<string>)
    requires base !in targets && Greedy(joins, authorized, {base}, targets).Joined?
    ensures AllConnected(AuthorizedJoins(joins, authorized), base, targets)
  {
    var allowed, open := targets + {base}, AuthorizedJoins(joins, authorized);
    BaseIsConnected(open, allowed, base);
    JoinedMeansConnected(joins, open, authorized, {base}, targets, base, allowed);
  }

  /** The converse fails exactly where the choice meets an unauthorized join first: if authorized joins
      alone connect every target, the choice succeeds iff every join it takes when tags are ignored is
      authorized. */
  lemma AuthorizedConnectionSucceedsIff(joins: seq<Join>, authorized: set<string>, base: string, targets: set<string>)
    requires base !in targets && AllConnected(AuthorizedJoins(joins, authorized), base, targets)
    ensures var free := Greedy(joins, authorized + Tags(joins), {base}, targets);
            && free.Joined?
            && (Greedy(joins, authorized, {base}, targets).Joined? <==> AllAuthorized(free.path, authorized))
  {
    var every := authorized + Tags(joins);
    assert forall j :: j in joins ==> IsAuthorized(j, every);
    MoreJoinsConnect(AuthorizedJoins(joins, authorized), joins, base, targets);
    SucceedsIffConnected(joins, every, base, targets);
    AuthorizedIffChosenAreAuthorized(joins, authorized, every, {base}, targets);
  }

  /** So an authorized way around an unauthorized join that comes first is not found. */
  lemma AuthorizedDetourIsNotTried()
    ensures var closed, open := Join("a", "orders", "users", {"secret"}), Join("b", "orders", "users", {});
            && Greedy([closed, open], {}, {"orders"}, {"users"}).Unauthorized?
            && Greedy([open, closed], {}, {"orders"}, {"users"}).Joined?
            && AllConnected(AuthorizedJoins([closed, open], {}), "orders", {"users"})
  {
    var closed, open := Join("a", "orders", "users", {"secret"}), Join("b", "orders", "users", {});
    assert "secret" in closed.tags - {};
    assert Candidate([closed, open], {"orders"}, {"users"}) == Some(closed);
    assert {"users"} != {} by { assert "users" in {"users"}; }
    assert Candidate([open, closed], {"orders"}, {"users"}) == Some(open);
    assert {"users"} - ({"orders"} + {open.left, open.right}) == {};
    var walk := ["orders", "users"];
    assert Links(open, walk[0], walk[1]) && open in [closed, open];
    var authorized := AuthorizedJoins([closed, open], {});
    assert open in authorized;
    assert Linked(authorized, walk[1 - 1], walk[1]);
    assert Walk(authorized, {"users"} + {"orders"}, walk);
    assert Connected(authorized, {"users"} + {"orders"}, "orders", "users");
  }
}
