/** The analytical graph engine: checkpointed, round-based execution of a validated graph.

    The concurrent part is a state machine.  A driver holds a private copy of the graph state and
    the tasks of its current round; each atomic step is the code between two suspension points.
    Any number of drivers may work on the same graph; the store arbitrates with versions, and a
    driver may disappear at any point.  Handlers are a parameter: a pure partial function of the
    node and its resolved inputs, which may also fail for reasons of its own at any time. */
module GraphEngine {
  import opened GraphContracts
  import opened Wrappers

  datatype NodeStatus = Pending | Running | Completed | Failed | Skipped | Cancelled

  datatype GraphStatus = GraphPending | GraphRunning | GraphCompleted | GraphFailed | GraphCancelled

  datatype GraphState = GraphState(
    status: GraphStatus, nodes: map<Id, NodeStatus>, results: map<Id, Value>, version: nat)

  type Inputs = map<string, Value>

  /** What a node computes from its inputs; `None` when it raises, or its result is refused. */
  type Handler = (Node, Inputs) -> Option<Value>

  // ---------------------------------------------------------------------------------------------
  // Input resolution

  /** The member of a value that one part of a path names: a field by its key, an item by its position
      from the front, or by its distance from the back when negative. */
  ghost predicate IsMember(value: Value, part: Segment, member: Value) {
    match value
    case Object(fields) => part.key in fields && fields[part.key] == member
    case Array(items) =>
      && part.index.Some?
      && exists k :: 0 <= k < |items| && items[k] == member && part.index.value in {k, k - |items|}
    case Scalar(_) => false
  }

  /** Lists accept the indices Python does. */
  function Member(value: Value, part: Segment): (member: Option<Value>)
    ensures forall m :: member == Some(m) <==> IsMember(value, part, m)
  {
    match value
    case Object(fields) => if part.key in fields then Some(fields[part.key]) else None
    case Array(items) =>
      if part.index.None? then None
      else
        var i := part.index.value;
        if 0 <= i < |items| then Some(items[i])
        else if -|items| <= i < 0 then Some(items[|items| + i])
        else None
    case Scalar(_) => None
  }

  /** Follows a dotted path. */
  function Traverse(value: Value, path: seq<Segment>): Option<Value>
    decreases |path|
  {
    if path == [] then Some(value)
    else
      var member := Member(value, path[0]);
      if member.None? then None else Traverse(member.value, path[1..])
  }

  /** The values met on the way along a path, each one a member of the one before. */
  ghost predicate Passes(values: seq<Value>, path: seq<Segment>) {
    |values| == |path| + 1 && forall i :: 0 <= i < |path| ==> IsMember(values[i], path[i], values[i + 1])
  }

  ghost predicate LeadsTo(from: Value, path: seq<Segment>, to: Value) {
    exists values :: Passes(values, path) && values[0] == from && values[|path|] == to
  }

  lemma PassesOn(from: Value, part: Segment, values: seq<Value>, path: seq<Segment>)
    requires Passes(values, path) && IsMember(from, part, values[0])
    ensures Passes([from] + values, [part] + path)
  {
    var longer, more := [from] + values, [part] + path;
    forall i | 0 <= i < |more| ensures IsMember(longer[i], more[i], longer[i + 1]) {
      if i > 0 {
        assert IsMember(values[i - 1], path[i - 1], values[i]);
      }
    }
  }

  lemma PassesFrom(values: seq<Value>, path: seq<Segment>)
    requires path != [] && Passes(values, path)
    ensures IsMember(values[0], path[0], values[1]) && Passes(values[1..], path[1..])
  {
    forall i | 0 <= i < |path| - 1 ensures IsMember(values[1..][i], path[1..][i], values[1..][i + 1]) {
      assert IsMember(values[i + 1], path[i + 1], values[i + 2]);
    }
  }

  lemma {:induction false} TraverseLeads(value: Value, path: seq<Segment>, to: Value)
    requires Traverse(value, path) == Some(to)
    ensures LeadsTo(value, path, to)
    decreases |path|
  {
    if path == [] {
      assert Passes([value], path);
    } else {
      var member := Member(value, path[0]).value;
      TraverseLeads(member, path[1..], to);
      var values :| Passes(values, path[1..]) && values[0] == member && values[|path| - 1] == to;
      assert IsMember(value, path[0], member);
      PassesOn(value, path[0], values, path[1..]);
      assert [path[0]] + path[1..] == path;
    }
  }

  lemma {:induction false} TraverseFinds(values: seq<Value>, path: seq<Segment>)
    requires Passes(values, path)
    ensures Traverse(values[0], path) == Some(values[|path|])
    decreases |path|
  {
    if path == [] {
    } else {
      PassesFrom(values, path);
      assert Member(values[0], path[0]) == Some(values[1]);
      TraverseFinds(values[1..], path[1..]);
    }
  }

  /** Following a path reads exactly the value it leads to. */
  lemma TraverseFollows(value: Value, path: seq<Segment>, to: Value)
    ensures Traverse(value, path) == Some(to) <==> LeadsTo(value, path, to)
  {
    if Traverse(value, path) == Some(to) {
      TraverseLeads(value, path, to);
    }
    if values :| Passes(values, path) && values[0] == value && values[|path|] == to {
      TraverseFinds(values, path);
    }
  }

  /** The loop over the parts of one path; `None` stands for the raised lookup error. */
  method Follow(value: Value, path: seq<Segment>) returns (found: Option<Value>)
    ensures found == Traverse(value, path)
    ensures forall v :: found == Some(v) <==> LeadsTo(value, path, v)
  {
    forall v ensures Traverse(value, path) == Some(v) <==> LeadsTo(value, path, v) {
      TraverseFollows(value, path, v);
    }
    var current := value;
    for i := 0 to |path|
      invariant Traverse(current, path[i..]) == Traverse(value, path)
    {
      var member := Member(current, path[i]);
      assert path[i..][1..] == path[i + 1..];
      if member.None? {
        return None;
      }
      current := member.value;
    }
    return Some(current);
  }

  function Reads(reference: ResultReference, results: map<Id, Value>): Option<Value> {
    if reference.nodeId in results then Traverse(results[reference.nodeId], reference.path) else None
  }

  /** All inputs, if none is missing. */
  function Gathered(found: map<string, Option<Value>>): Option<Inputs> {
    if forall name :: name in found ==> found[name].Some?
    then Some(map name | name in found :: found[name].value)
    else None
  }

  /** The inputs of `node` as its references read them, given the results of other nodes. */
  function InputsFrom(node: Node, results: map<Id, Value>): Option<Inputs> {
    Gathered(map name | name in node.inputs :: Reads(node.inputs[name], results))
  }

  /** What a reference reads, if anything: the value its path leads to in the result of its node. */
  ghost predicate ReadsValue(reference: ResultReference, results: map<Id, Value>, value: Value) {
    reference.nodeId in results && LeadsTo(results[reference.nodeId], reference.path, value)
  }

  lemma ReadsFollows(reference: ResultReference, results: map<Id, Value>, value: Value)
    ensures Reads(reference, results) == Some(value) <==> ReadsValue(reference, results, value)
  {
    if reference.nodeId in results {
      TraverseFollows(results[reference.nodeId], reference.path, value);
    }
  }

  /** The inputs are the values the references lead to, or some reference leads nowhere. */
  lemma InputsFromAreRead(node: Node, results: map<Id, Value>)
    ensures var resolved := InputsFrom(node, results);
            && (resolved.Some? ==>
                  && resolved.value.Keys == node.inputs.Keys
                  && forall name :: name in node.inputs ==> ReadsValue(node.inputs[name], results, resolved.value[name]))
            && (resolved.None? ==>
                  exists name :: name in node.inputs && forall value :: !ReadsValue(node.inputs[name], results, value))
  {
    var resolved := InputsFrom(node, results);
    if resolved.Some? {
      forall name | name in node.inputs ensures ReadsValue(node.inputs[name], results, resolved.value[name]) {
        ReadsFollows(node.inputs[name], results, resolved.value[name]);
      }
    } else {
      var name :| name in node.inputs && Reads(node.inputs[name], results).None?;
      forall value ensures !ReadsValue(node.inputs[name], results, value) {
        ReadsFollows(node.inputs[name], results, value);
      }
    }
  }

  method Read(reference: ResultReference, results: map<Id, Value>) returns (read: Option<Value>)
    ensures read == Reads(reference, results)
  {
    if reference.nodeId !in results {
      return None;
    }
    read := Follow(results[reference.nodeId], reference.path);
  }

  /** The loop over the inputs. */
  method ReadEach(results: map<Id, Value>, node: Node) returns (resolved: Option<Inputs>)
    ensures resolved == InputsFrom(node, results)
  {
    ghost var found := map name | name in node.inputs :: Reads(node.inputs[name], results);
    var inputs: Inputs := map[];
    var names := node.inputs.Keys;
    while names != {}
      invariant names <= node.inputs.Keys && inputs.Keys == node.inputs.Keys - names
      invariant forall name :: name in inputs ==> found[name] == Some(inputs[name])
    {
      var name :| name in names;
      var read := Read(node.inputs[name], results);
      assert read == found[name];
      if read.None? {
        return None;
      }
      inputs := inputs[name := read.value];
      names := names - {name};
    }
    assert inputs == map name | name in found :: found[name].value;
    return Some(inputs);
  }

  /** A node's inputs, as its references say; `None` stands for the raised lookup error. */
  method ResolveInputs(results: map<Id, Value>, node: Node) returns (resolved: Option<Inputs>)
    ensures resolved == InputsFrom(node, results)
    ensures resolved.Some? ==>
              && resolved.value.Keys == node.inputs.Keys
              && forall name :: name in node.inputs ==> ReadsValue(node.inputs[name], results, resolved.value[name])
    ensures resolved.None? ==>
              exists name :: name in node.inputs && forall value :: !ReadsValue(node.inputs[name], results, value)
  {
    InputsFromAreRead(node, results);
    resolved := ReadEach(results, node);
  }

  // ---------------------------------------------------------------------------------------------
  // Admitted graphs and their bottom-up meaning

  /** A graph as the engine runs it.  `rank` is not part of the source: it records why the
      recursion over dependencies is well founded, and the meaning does not depend on it. */
  datatype Program = Program(nodes: map<Id, Node>, rank: map<Id, nat>, handler: Handler)

  /** The nodes of a graph that passed validation, with a rank that decreases along dependencies. */
  ghost predicate Admitted(p: Program) {
    && p.rank.Keys == p.nodes.Keys
    && (forall n :: n in p.nodes ==> p.nodes[n].id == n && ValidReferences(p.nodes[n]))
    && (forall n, d :: n in p.nodes && d in p.nodes[n].dependencies ==> d in p.nodes && p.rank[d] < p.rank[n])
  }

  /** Recursive evaluation of a node: first whatever its inputs refer to, then its own handler. */
  ghost function Eval(p: Program, n: Id): Option<Value>
    requires Admitted(p) && n in p.nodes
    decreases p.rank[n]
  {
    var inputs := Gathered(EvalInputs(p, n));
    if inputs.Some? then p.handler(p.nodes[n], inputs.value) else None
  }

  ghost function EvalInputs(p: Program, n: Id): map<string, Option<Value>>
    requires Admitted(p) && n in p.nodes
    decreases p.rank[n], 1
  {
    map name | name in p.nodes[n].inputs :: EvalInput(p, n, name)
  }

  ghost function EvalInput(p: Program, n: Id, name: string): Option<Value>
    requires Admitted(p) && n in p.nodes && name in p.nodes[n].inputs
    decreases p.rank[n], 0
  {
    var reference := p.nodes[n].inputs[name];
    var source := Eval(p, reference.nodeId);
    if source.Some? then Traverse(source.value, reference.path) else None
  }

  lemma {:induction false} InputIgnoresRank(p: Program, q: Program, n: Id, name: string)
    requires Admitted(p) && Admitted(q) && p.nodes == q.nodes && p.handler == q.handler
    requires n in p.nodes && name in p.nodes[n].inputs
    ensures EvalInput(p, n, name) == EvalInput(q, n, name)
    decreases p.rank[n], 0
  {
    EvalIgnoresRank(p, q, p.nodes[n].inputs[name].nodeId);
  }

  /** The meaning of a node does not depend on the ranking used to justify the recursion. */
  lemma {:induction false} EvalIgnoresRank(p: Program, q: Program, n: Id)
    requires Admitted(p) && Admitted(q) && p.nodes == q.nodes && p.handler == q.handler && n in p.nodes
    ensures Eval(p, n) == Eval(q, n)
    decreases p.rank[n], 2
  {
    forall name | name in p.nodes[n].inputs ensures EvalInput(p, n, name) == EvalInput(q, n, name) {
      InputIgnoresRank(p, q, n, name);
    }
    assert EvalInputs(p, n) == EvalInputs(q, n);
  }

  /** Validation provides the ranking: positions in the order in which nodes enter `visited`. */
  lemma AcceptedGraphIsAdmitted(nodes: map<Id, Node>, handler: Handler, deps: Dependencies, order: seq<Id>)
    returns (p: Program)
    requires TopologicalOrder(deps, order) && deps.Keys == nodes.Keys
    requires forall n :: n in nodes ==> nodes[n].id == n && ValidReferences(nodes[n]) && nodes[n].dependencies == deps[n]
    ensures Admitted(p) && p.nodes == nodes && p.handler == handler
  {
    p := Program(nodes, map n | n in nodes :: Position(order, n), handler);
    forall n, d | n in nodes && d in nodes[n].dependencies
      ensures d in nodes && p.rank[d] < p.rank[n]
    {
      assert d in order[..Position(order, n)];
    }
  }

  /** The meaning of a graph: the value of every node that has one. */
  ghost function Meaning(p: Program): (m: map<Id, Value>)
    requires Admitted(p)
    ensures forall n :: n in p.nodes ==> Eval(p, n) == if n in m then Some(m[n]) else None
    ensures m.Keys <= p.nodes.Keys
  {
    map n | n in p.nodes && Eval(p, n).Some? :: Eval(p, n).value
  }

  lemma {:induction false} InputIsEvaluated(p: Program, results: map<Id, Value>, n: Id, name: string)
    requires Admitted(p) && n in p.nodes && name in p.nodes[n].inputs
    requires var source := p.nodes[n].inputs[name].nodeId;
             source in results && Eval(p, source) == Some(results[source])
    ensures EvalInput(p, n, name) == Reads(p.nodes[n].inputs[name], results)
  {
  }

  /** Once the dependencies of a node are completed, its references find their results, and the
      inputs it reads are those of the evaluation. */
  lemma {:induction false} InputsAreEvaluated(p: Program, results: map<Id, Value>, n: Id)
    requires Admitted(p) && n in p.nodes
    requires forall d :: d in p.nodes[n].dependencies ==> d in results && Eval(p, d) == Some(results[d])
    ensures forall name :: name in p.nodes[n].inputs ==> p.nodes[n].inputs[name].nodeId in results
    ensures var inputs := InputsFrom(p.nodes[n], results);
            Eval(p, n) == if inputs.Some? then p.handler(p.nodes[n], inputs.value) else None
  {
    var node := p.nodes[n];
    forall name | name in node.inputs
      ensures node.inputs[name].nodeId in results
      ensures EvalInput(p, n, name) == Reads(node.inputs[name], results)
    {
      InputIsEvaluated(p, results, n, name);
    }
    assert EvalInputs(p, n) == map name | name in node.inputs :: Reads(node.inputs[name], results);
  }

  ghost predicate AgreesOn(m: map<Id, Value>, results: map<Id, Value>, ids: seq<Id>) {
    forall d :: d in ids ==> d in m && d in results && results[d] == m[d]
  }

  /** `m` is a solution of the graph's equations: wherever the dependencies of a node have their
      values in `m`, the handler maps the inputs read from them to the node's own value. */
  ghost predicate Solves(p: Program, m: map<Id, Value>) {
    forall n, results ::
      n in p.nodes && AgreesOn(m, results, p.nodes[n].dependencies) && InputsFrom(p.nodes[n], results).Some?
      ==> p.handler(p.nodes[n], InputsFrom(p.nodes[n], results).value) == if n in m then Some(m[n]) else None
  }

  lemma {:induction false} MeaningSolves(p: Program)
    requires Admitted(p)
    ensures Solves(p, Meaning(p))
  {
    var m := Meaning(p);
    forall n, results |
      n in p.nodes && AgreesOn(m, results, p.nodes[n].dependencies) && InputsFrom(p.nodes[n], results).Some?
      ensures p.handler(p.nodes[n], InputsFrom(p.nodes[n], results).value) == if n in m then Some(m[n]) else None
    {
      InputsAreEvaluated(p, results, n);
    }
  }

  // ---------------------------------------------------------------------------------------------
  // State updates

  predicate Ready(p: Program, s: GraphState, n: Id) {
    && n in p.nodes && n in s.nodes && s.nodes[n] == Pending
    && forall d :: d in p.nodes[n].dependencies ==> d in s.nodes && s.nodes[d] == Completed
  }

  function SetNode(s: GraphState, n: Id, status: NodeStatus): GraphState {
    s.(nodes := s.nodes[n := status])
  }

  function Complete(s: GraphState, n: Id, v: Value): GraphState {
    s.(nodes := s.nodes[n := Completed], results := s.results[n := v])
  }

  /** The graph timeout marks everything unfinished. */
  function TimedOut(s: GraphState): GraphState {
    s.(status := GraphFailed,
       nodes := map n | n in s.nodes :: if s.nodes[n] in {Pending, Running} then Cancelled else s.nodes[n])
  }

  /** What resume, and then drive, do to a loaded checkpoint before scheduling it again. */
  function Recovered(s: GraphState): GraphState {
    s.(status := GraphRunning,
       nodes := map n | n in s.nodes :: if s.nodes[n] == Running then Pending else s.nodes[n])
  }

  function Fresh(p: Program): GraphState {
    GraphState(GraphPending, map n | n in p.nodes :: Pending, map[], 0)
  }

  // ---------------------------------------------------------------------------------------------
  // What every copy of the state satisfies

  ghost predicate AllCompleted(s: GraphState) {
    forall n :: n in s.nodes ==> s.nodes[n] == Completed
  }

  ghost predicate DependenciesDone(p: Program, s: GraphState, n: Id) {
    n in p.nodes && forall d :: d in p.nodes[n].dependencies ==> d in s.nodes && s.nodes[d] == Completed
  }

  /** `m` is the meaning of the graph: every completed node holds its value, and dependencies are
      complete wherever a node runs or has run. */
  ghost predicate Sound(p: Program, m: map<Id, Value>, s: GraphState) {
    && s.nodes.Keys == p.nodes.Keys
    && (forall n :: n in s.results <==> n in s.nodes && s.nodes[n] == Completed)
    && (forall n :: n in s.results ==> n in m && s.results[n] == m[n])
    && (forall n :: n in s.nodes && s.nodes[n] in {Running, Completed} ==> DependenciesDone(p, s, n))
    && (s.status == GraphCompleted ==> AllCompleted(s))
    && (forall n :: n in s.nodes ==> s.nodes[n] != Skipped)
  }

  /** A checkpoint as `resume` hands it over: nothing is running (and nothing is ever skipped). */
  ghost predicate Resting(s: GraphState) {
    forall n :: n in s.nodes ==> s.nodes[n] !in {Running, Skipped}
  }

  lemma StartIsSound(p: Program, m: map<Id, Value>, s: GraphState, n: Id)
    requires Sound(p, m, s) && s.status != GraphCompleted && Ready(p, s, n)
    ensures Sound(p, m, SetNode(s, n, Running))
  {
  }

  lemma FailIsSound(p: Program, m: map<Id, Value>, s: GraphState, n: Id)
    requires Sound(p, m, s) && s.status != GraphCompleted && n in s.nodes && s.nodes[n] == Running
    ensures Sound(p, m, SetNode(s, n, Failed))
  {
  }

  lemma CompleteIsSound(p: Program, m: map<Id, Value>, s: GraphState, n: Id, v: Value)
    requires Sound(p, m, s) && n in s.nodes && s.nodes[n] == Running
    requires n in m && m[n] == v
    ensures Sound(p, m, Complete(s, n, v))
  {
  }

  lemma RelabellingIsSound(p: Program, m: map<Id, Value>, s: GraphState)
    requires Sound(p, m, s)
    ensures Sound(p, m, TimedOut(s)) && Sound(p, m, Recovered(s))
  {
    forall s' | s' in {TimedOut(s), Recovered(s)}
      ensures Sound(p, m, s')
    {
      forall n | n in s'.nodes && s'.nodes[n] in {Running, Completed} ensures DependenciesDone(p, s', n) {
        assert DependenciesDone(p, s, n);
      }
    }
  }

  /** A resume leaves nothing running and turns what was running back to pending; a timeout leaves nothing
      pending or running and cancels what was. Both leave every other node, and every result, alone. */
  lemma RelabellingKeepsTheRest(s: GraphState)
    ensures var r := Recovered(s);
            && r.status == GraphRunning && r.results == s.results && r.nodes.Keys == s.nodes.Keys
            && ((forall n :: n in s.nodes ==> s.nodes[n] != Skipped) <==> Resting(r))
            && forall n :: n in s.nodes ==>
                 if s.nodes[n] == Running then r.nodes[n] == Pending else r.nodes[n] == s.nodes[n]
    ensures var t := TimedOut(s);
            && t.status == GraphFailed && t.results == s.results && t.nodes.Keys == s.nodes.Keys
            && forall n :: n in s.nodes ==>
                 if s.nodes[n] in {Pending, Running} then t.nodes[n] == Cancelled else t.nodes[n] == s.nodes[n]
  {
  }

  /** No node is stuck: while every incomplete node is pending, one of them is ready. */
  lemma {:induction false} SomeNodeIsReady(p: Program, s: GraphState, n: Id) returns (m: Id)
    requires Admitted(p) && s.nodes.Keys == p.nodes.Keys
    requires forall k :: k in s.nodes ==> s.nodes[k] in {Pending, Completed}
    requires n in s.nodes && s.nodes[n] == Pending
    ensures Ready(p, s, m)
    decreases p.rank[n]
  {
    if d :| d in p.nodes[n].dependencies && s.nodes[d] != Completed {
      m := SomeNodeIsReady(p, s, d);
    } else {
      m := n;
    }
  }
}
