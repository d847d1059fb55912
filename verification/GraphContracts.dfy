/** The analytical graph contract: nodes, references, and the validation that admits a graph.

    `ValidateDag` runs the checks of the graph validator in their order.  Its cycle check is the
    depth-first search with the two mutable sets `visiting` and `visited`; the theorem is that the
    search accepts exactly the acyclic graphs, and that the order in which nodes enter `visited`
    is then a topological order. */
module GraphContracts {
  import opened Wrappers

  type Id = string

  /** A JSON-like result value. */
  datatype Value =
    | Scalar(text: string)
    | Array(items: seq<Value>)
    | Object(fields: map<string, Value>)

  /** One dotted part of a result path: its text, and the integer it parses to, if it does. */
  datatype Segment = Segment(key: string, index: Option<int>)

  /** `path` is empty when the reference names the whole result. */
  datatype ResultReference = ResultReference(nodeId: Id, path: seq<Segment>)

  datatype Node = Node(id: Id, dependencies: seq<Id>, inputs: map<string, ResultReference>)

  datatype Graph = Graph(nodes: seq<Node>, maximumNodes: nat)

  /** The per-node validator: inputs refer to declared dependencies, never to the node itself. */
  predicate ValidReferences(node: Node) {
    && (forall name :: name in node.inputs ==> node.inputs[name].nodeId in node.dependencies)
    && node.id !in node.dependencies
  }

  predicate UniqueIds(nodes: seq<Node>) {
    forall i, j :: 0 <= i < j < |nodes| ==> nodes[i].id != nodes[j].id
  }

  predicate HasId(nodes: seq<Node>, id: Id) {
    exists i :: 0 <= i < |nodes| && nodes[i].id == id
  }

  predicate KnownDependencies(nodes: seq<Node>) {
    forall i, d :: 0 <= i < |nodes| && d in nodes[i].dependencies ==> HasId(nodes, d)
  }

  // ---------------------------------------------------------------------------------------------
  // Dependency maps, paths and cycles

  type Dependencies = map<Id, seq<Id>>

  ghost predicate Closed(deps: Dependencies) {
    forall n, d :: n in deps && d in deps[n] ==> d in deps
  }

  /** A walk along dependency edges. */
  ghost predicate IsPath(deps: Dependencies, p: seq<Id>) {
    && (forall i :: 0 <= i < |p| ==> p[i] in deps)
    && (forall i :: 0 <= i < |p| - 1 ==> p[i + 1] in deps[p[i]])
  }

  ghost predicate IsCycle(deps: Dependencies, p: seq<Id>) {
    IsPath(deps, p) && |p| >= 2 && p[0] == p[|p| - 1]
  }

  ghost predicate Acyclic(deps: Dependencies) {
    forall p :: !IsCycle(deps, p)
  }

  /** Every node of `order` comes after all of its dependencies. */
  ghost predicate DependenciesFirst(deps: Dependencies, order: seq<Id>) {
    forall i, d :: 0 <= i < |order| && order[i] in deps && d in deps[order[i]] ==> d in order[..i]
  }

  ghost predicate TopologicalOrder(deps: Dependencies, order: seq<Id>) {
    && NoDuplicates(order)
    && (forall n :: n in order <==> n in deps)
    && DependenciesFirst(deps, order)
  }

  ghost function Position(order: seq<Id>, n: Id): (i: nat)
    requires n in order
    ensures i < |order| && order[i] == n
  {
    var i :| 0 <= i < |order| && order[i] == n;
    i
  }

  /** Along a path, positions in a topological order strictly decrease. */
  lemma {:induction false} PathDescends(deps: Dependencies, order: seq<Id>, p: seq<Id>, k: nat)
    requires TopologicalOrder(deps, order) && IsPath(deps, p) && 0 < k < |p|
    ensures Position(order, p[k]) < Position(order, p[0])
  {
    var before := Position(order, p[k - 1]);
    assert p[k] in deps[p[k - 1]];
    assert p[k] in order[..before];
    if k > 1 {
      PathDescends(deps, order, p, k - 1);
    }
  }

  lemma TopologicalOrderIsAcyclic(deps: Dependencies, order: seq<Id>)
    requires TopologicalOrder(deps, order)
    ensures Acyclic(deps)
  {
    forall p ensures !IsCycle(deps, p) {
      if IsCycle(deps, p) {
        PathDescends(deps, order, p, |p| - 1);
      }
    }
  }

  // ---------------------------------------------------------------------------------------------
  // The depth-first search

  /** A call that returns to a node still on the call stack closes a cycle. */
  lemma BackEdgeIsCycle(deps: Dependencies, stack: seq<Id>, node: Id)
    requires IsPath(deps, stack) && node in stack && node in deps[stack[|stack| - 1]] && node in deps
    ensures !Acyclic(deps)
  {
    var i :| 0 <= i < |stack| && stack[i] == node;
    assert IsCycle(deps, stack[i..] + [node]);
  }

  lemma CompletingKeepsOrder(deps: Dependencies, order: seq<Id>, node: Id)
    requires node in deps && DependenciesFirst(deps, order) && NoDuplicates(order) && node !in order
    requires forall d :: d in deps[node] ==> d in order
    ensures DependenciesFirst(deps, order + [node]) && NoDuplicates(order + [node])
  {
    var longer := order + [node];
    forall i, d | 0 <= i < |longer| && longer[i] in deps && d in deps[longer[i]]
      ensures d in longer[..i]
    {
      assert longer[..i] == order[..i];
      assert order[..|order|] == order;
    }
  }

  class CycleCheck {
    const dependencies: Dependencies
    var visiting: set<Id>
    var visited: set<Id>
    ghost var stack: seq<Id>   // `visiting`, outermost call first
    ghost var order: seq<Id>   // `visited`, in order of entry

    ghost predicate Valid()
      reads this
    {
      && Closed(dependencies)
      && visiting == (set n | n in stack)
      && visited == (set n | n in order)
      && visiting !! visited
      && visited <= dependencies.Keys
      && IsPath(dependencies, stack)
      && NoDuplicates(order)
      && DependenciesFirst(dependencies, order)
    }

    constructor (dependencies: Dependencies)
      requires Closed(dependencies)
      ensures Valid() && this.dependencies == dependencies && stack == [] && order == []
    {
      this.dependencies := dependencies;
      visiting, visited, stack, order := {}, {}, [], [];
    }

    /** The recursive `visit`; false stands for the raised cycle error. */
    method Visit(node: Id) returns (ok: bool)
      requires Valid() && node in dependencies
      requires stack != [] ==> node in dependencies[stack[|stack| - 1]]
      modifies this
      ensures !ok ==> !Acyclic(dependencies)
      ensures ok ==> Valid() && stack == old(stack) && visiting == old(visiting)
      ensures ok ==> old(order) <= order && node in order
      decreases dependencies.Keys - visiting
    {
      if node in visiting {
        BackEdgeIsCycle(dependencies, stack, node);
        return false;
      }
      if node in visited {
        return true;
      }
      visiting := visiting + {node};
      stack := stack + [node];
      label entered:
      var todo := dependencies[node];
      for k := 0 to |todo|
        invariant Valid() && stack == old@entered(stack) && visiting == old@entered(visiting)
        invariant old(order) <= order
        invariant forall i :: 0 <= i < k ==> todo[i] in order
      {
        var sub := Visit(todo[k]);
        if !sub {
          return false;
        }
      }
      visiting := visiting - {node};
      stack := stack[..|stack| - 1];
      assert node !in stack;
      visited := visited + {node};
      CompletingKeepsOrder(dependencies, order, node);
      order := order + [node];
      return true;
    }
  }
  // ---------------------------------------------------------------------------------------------
  // The graph validator

  datatype Verdict = Accepted | TooManyNodes | DuplicateIds | UnknownDependency(node: Id, missing: set<Id>) | DependencyCycle

  /** The dependency table of a graph with unique identifiers. */
  function DependencyMap(nodes: seq<Node>): (deps: Dependencies)
    ensures forall n :: n in deps <==> HasId(nodes, n)
    ensures UniqueIds(nodes) ==>
              forall i :: 0 <= i < |nodes| ==> nodes[i].id in deps && deps[nodes[i].id] == nodes[i].dependencies
  {
    if nodes == [] then map[]
    else
      var last := nodes[|nodes| - 1];
      var rest := DependencyMap(nodes[..|nodes| - 1]);
      assert forall i :: 0 <= i < |nodes| - 1 ==> nodes[..|nodes| - 1][i] == nodes[i];
      rest[last.id := last.dependencies]
  }

  method HasUniqueIds(nodes: seq<Node>) returns (unique: bool, known: set<Id>)
    ensures unique <==> UniqueIds(nodes)
    ensures unique ==> forall n :: n in known <==> HasId(nodes, n)
  {
    known := {};
    for i := 0 to |nodes|
      invariant forall n :: n in known <==> HasId(nodes[..i], n)
      invariant UniqueIds(nodes[..i])
    {
      if nodes[i].id in known {
        var k :| 0 <= k < |nodes[..i]| && nodes[..i][k].id == nodes[i].id;
        assert nodes[k].id == nodes[i].id;
        return false, known;
      }
      forall n ensures n in known + {nodes[i].id} <==> HasId(nodes[..i + 1], n) {
        assert nodes[..i + 1][i].id == nodes[i].id;
        assert HasId(nodes[..i], n) ==> HasId(nodes[..i + 1], n) by {
          if HasId(nodes[..i], n) {
            var k :| 0 <= k < i && nodes[..i][k].id == n;
            assert nodes[..i + 1][k].id == n;
          }
        }
      }
      known := known + {nodes[i].id};
    }
    assert nodes[..|nodes|] == nodes;
    return true, known;
  }

  /** The first node with unknown dependencies, and all of those. */
  ghost predicate FirstUnknown(nodes: seq<Node>, node: Id, missing: set<Id>) {
    exists i ::
      && 0 <= i < |nodes| && nodes[i].id == node && missing != {}
      && (forall d :: d in missing <==> d in nodes[i].dependencies && !HasId(nodes, d))
      && (forall k, d :: 0 <= k < i && d in nodes[k].dependencies ==> HasId(nodes, d))
  }

  method FindUnknownDependency(nodes: seq<Node>, known: set<Id>) returns (found: Option<(Id, set<Id>)>)
    requires forall n :: n in known <==> HasId(nodes, n)
    ensures found.None? <==> KnownDependencies(nodes)
    ensures found.Some? ==> FirstUnknown(nodes, found.value.0, found.value.1)
  {
    for i := 0 to |nodes|
      invariant forall k, d :: 0 <= k < i && d in nodes[k].dependencies ==> HasId(nodes, d)
    {
      var missing := set d | d in nodes[i].dependencies && d !in known;
      if missing != {} {
        ghost var d :| d in missing;
        assert d in nodes[i].dependencies && !HasId(nodes, d);
        assert FirstUnknown(nodes, nodes[i].id, missing);
        return Some((nodes[i].id, missing));
      }
      assert forall d :: d in nodes[i].dependencies ==> d !in missing;
    }
    return None;
  }

  lemma KnownDependenciesAreClosed(nodes: seq<Node>)
    requires UniqueIds(nodes) && KnownDependencies(nodes)
    ensures Closed(DependencyMap(nodes))
  {
    var deps := DependencyMap(nodes);
    forall n, d | n in deps && d in deps[n] ensures d in deps {
      var i :| 0 <= i < |nodes| && nodes[i].id == n;
      assert d in nodes[i].dependencies;
    }
  }

  method SearchForCycles(nodes: seq<Node>) returns (acyclic: bool, ghost order: seq<Id>)
    requires UniqueIds(nodes) && Closed(DependencyMap(nodes))
    ensures acyclic <==> Acyclic(DependencyMap(nodes))
    ensures acyclic ==> TopologicalOrder(DependencyMap(nodes), order)
  {
    var deps := DependencyMap(nodes);
    var search := new CycleCheck(deps);
    for i := 0 to |nodes|
      invariant search.Valid() && search.dependencies == deps && search.stack == []
      invariant forall k :: 0 <= k < i ==> nodes[k].id in search.order
    {
      assert HasId(nodes, nodes[i].id);
      var ok := search.Visit(nodes[i].id);
      if !ok {
        return false, [];
      }
    }
    order := search.order;
    forall n | n in deps ensures n in order {
      var k :| 0 <= k < |nodes| && nodes[k].id == n;
    }
    assert forall n :: n in order ==> n in search.visited;
    TopologicalOrderIsAcyclic(deps, order);
    return true, order;
  }

  /** Accepts exactly the graphs within the size limit whose identifiers are unique, whose
      dependencies are known and which have no dependency cycle; `order` witnesses acceptance. */
  method ValidateDag(graph: Graph) returns (verdict: Verdict, ghost order: seq<Id>)
    ensures verdict == TooManyNodes <==> |graph.nodes| > graph.maximumNodes
    ensures verdict == DuplicateIds <==> |graph.nodes| <= graph.maximumNodes && !UniqueIds(graph.nodes)
    ensures verdict.UnknownDependency? <==>
              && |graph.nodes| <= graph.maximumNodes && UniqueIds(graph.nodes)
              && !KnownDependencies(graph.nodes)
    ensures verdict.UnknownDependency? ==> FirstUnknown(graph.nodes, verdict.node, verdict.missing)
    ensures verdict == DependencyCycle <==>
              && |graph.nodes| <= graph.maximumNodes && UniqueIds(graph.nodes)
              && KnownDependencies(graph.nodes) && !Acyclic(DependencyMap(graph.nodes))
    ensures verdict == Accepted ==> TopologicalOrder(DependencyMap(graph.nodes), order)
  {
    if |graph.nodes| > graph.maximumNodes {
      return TooManyNodes, [];
    }
    var unique, known := HasUniqueIds(graph.nodes);
    if !unique {
      return DuplicateIds, [];
    }
    var unknown := FindUnknownDependency(graph.nodes, known);
    if unknown.Some? {
      return UnknownDependency(unknown.value.0, unknown.value.1), [];
    }
    KnownDependenciesAreClosed(graph.nodes);
    var acyclic;
    acyclic, order := SearchForCycles(graph.nodes);
    return if acyclic then Accepted else DependencyCycle, order;
  }
}
