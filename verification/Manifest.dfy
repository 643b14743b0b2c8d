/** The dbt manifest as a graph: the sources a selection needs, and the relations a run takes as given. */
module Manifest {
  type NodeId = string

  datatype Kind = Model | Seed | SnapshotNode | SourceNode | Test | Other

  datatype Node = Node(kind: Kind, dependsOn: seq<NodeId>, ephemeral: bool)

  /** Arbitrary, possibly cyclic, and with dangling references. */
  type Graph = map<NodeId, Node>

  function Parents(graph: Graph, id: NodeId): seq<NodeId> {
    if id in graph then graph[id].dependsOn else []
  }

  // ---------- the sources of a selection ----------

  predicate IsSource(graph: Graph, id: NodeId) {
    id in graph && graph[id].kind == SourceNode
  }

  /** Each node of the path depends on the next, and a source ends the path. */
  ghost predicate IsPath(graph: Graph, path: seq<NodeId>) {
    && path != []
    && forall i :: 0 <= i < |path| - 1 ==> !IsSource(graph, path[i]) && path[i + 1] in Parents(graph, path[i])
  }

  ghost predicate Reaches(graph: Graph, roots: set<NodeId>, id: NodeId) {
    exists path: seq<NodeId> :: IsPath(graph, path) && path[0] in roots && path[|path| - 1] == id
  }

  lemma ReachesRoot(graph: Graph, roots: set<NodeId>, id: NodeId)
    requires id in roots
    ensures Reaches(graph, roots, id)
  {
    assert IsPath(graph, [id]);
  }

  lemma ReachesParent(graph: Graph, roots: set<NodeId>, id: NodeId, parent: NodeId)
    requires Reaches(graph, roots, id) && !IsSource(graph, id) && parent in Parents(graph, id)
    ensures Reaches(graph, roots, parent)
  {
    var path: seq<NodeId> :| IsPath(graph, path) && path[0] in roots && path[|path| - 1] == id;
    assert IsPath(graph, path + [parent]);
    assert (path + [parent])[0] in roots;
  }

  /** A set that holds the roots and the parents of its members holds whatever is reachable. */
  lemma {:induction false} ClosedHoldsPath(graph: Graph, roots: set<NodeId>, visited: set<NodeId>, path: seq<NodeId>)
    requires roots <= visited
    requires forall v <- visited :: !IsSource(graph, v) ==> forall p <- Parents(graph, v) :: p in visited
    requires IsPath(graph, path) && path[0] in roots
    ensures path[|path| - 1] in visited
    decreases |path|
  {
    if |path| > 1 {
      var shorter := path[..|path| - 1];
      assert IsPath(graph, shorter);
      ClosedHoldsPath(graph, roots, visited, shorter);
      assert path[|path| - 1] in Parents(graph, path[|path| - 2]);
    }
  }

  function Members(ids: seq<NodeId>): set<NodeId> {
    set id <- ids
  }

  function Universe(graph: Graph, roots: set<NodeId>): set<NodeId> {
    roots + graph.Keys + (set id <- graph, p <- graph[id].dependsOn :: p)
  }

  function Reversed(s: seq<NodeId>): (r: seq<NodeId>)
    ensures |r| == |s|
    ensures forall x :: x in r <==> x in s
  {
    if s == [] then []
    else
      assert s == [s[0]] + s[1..];
      Reversed(s[1..]) + [s[0]]
  }

  predicate Seen(id: NodeId, pending: seq<NodeId>, visited: set<NodeId>) {
    id in visited || id in pending
  }

  ghost predicate IsKnown(graph: Graph, roots: set<NodeId>, id: NodeId) {
    id in Universe(graph, roots) && Reaches(graph, roots, id)
  }

  /** What the worklist knows between two iterations. */
  ghost predicate Explored(
    graph: Graph, roots: set<NodeId>, pending: seq<NodeId>, visited: set<NodeId>, sources: set<NodeId>)
  {
    && (forall id :: Seen(id, pending, visited) ==> IsKnown(graph, roots, id))
    && (forall id <- roots :: Seen(id, pending, visited))
    && (forall v <- visited :: !IsSource(graph, v) ==> forall p <- Parents(graph, v) :: Seen(p, pending, visited))
    && (forall id :: id in sources <==> id in visited && IsSource(graph, id))
  }

  lemma ParentsAreKnown(graph: Graph, roots: set<NodeId>, id: NodeId)
    requires IsKnown(graph, roots, id) && id in graph && graph[id].kind != SourceNode
    ensures forall p <- Reversed(graph[id].dependsOn) :: IsKnown(graph, roots, p)
  {
    forall p <- graph[id].dependsOn ensures IsKnown(graph, roots, p) {
      ReachesParent(graph, roots, id, p);
    }
  }

  /** Visiting one node, whose parents, unless it is a source, join the list. */
  lemma ExploredStep(
    graph: Graph, roots: set<NodeId>, rest: seq<NodeId>, id: NodeId, visited: set<NodeId>, sources: set<NodeId>,
    more: seq<NodeId>)
    requires Explored(graph, roots, rest + [id], visited, sources)
    requires more == if id in visited || id !in graph || graph[id].kind == SourceNode then rest
                     else rest + Reversed(graph[id].dependsOn)
    ensures id in Universe(graph, roots)
    ensures Explored(graph, roots, more, visited + {id}, if IsSource(graph, id) then sources + {id} else sources)
  {
    assert Seen(id, rest + [id], visited) && IsKnown(graph, roots, id);
    hide IsKnown;
    var after := visited + {id};
    SeenStays(rest, id, visited, more);
    if id !in visited && id in graph && graph[id].kind != SourceNode {
      ParentsAreKnown(graph, roots, id);
      ReversedSeen(graph[id].dependsOn, rest, more, after);
    }
    ParentsSeen(graph, rest, id, visited, more);
    forall x | Seen(x, more, after) ensures IsKnown(graph, roots, x) {
      NothingElseSeen(graph, rest, id, visited, more, x);
    }
    hide Seen, Parents, Reversed;
  }

  lemma ParentsSeen(graph: Graph, rest: seq<NodeId>, id: NodeId, visited: set<NodeId>, more: seq<NodeId>)
    requires forall v <- visited :: !IsSource(graph, v) ==>
               forall p <- Parents(graph, v) :: Seen(p, rest + [id], visited)
    requires forall x :: Seen(x, rest + [id], visited) ==> Seen(x, more, visited + {id})
    requires id !in visited && id in graph && graph[id].kind != SourceNode ==>
               forall p <- graph[id].dependsOn :: Seen(p, more, visited + {id})
    ensures forall v <- visited + {id} :: !IsSource(graph, v) ==>
              forall p <- Parents(graph, v) :: Seen(p, more, visited + {id})
  {
    hide Seen;
  }

  lemma SeenStays(rest: seq<NodeId>, id: NodeId, visited: set<NodeId>, more: seq<NodeId>)
    requires forall x <- rest :: x in more
    ensures forall x :: Seen(x, rest + [id], visited) ==> Seen(x, more, visited + {id})
  {
  }

  lemma ReversedSeen(parents: seq<NodeId>, rest: seq<NodeId>, more: seq<NodeId>, visited: set<NodeId>)
    requires more == rest + Reversed(parents)
    ensures forall p <- parents :: Seen(p, more, visited)
  {
    hide Reversed;
  }

  lemma NothingElseSeen(
    graph: Graph, rest: seq<NodeId>, id: NodeId, visited: set<NodeId>, more: seq<NodeId>, x: NodeId)
    requires Seen(x, more, visited + {id})
    requires more == if id in visited || id !in graph || graph[id].kind == SourceNode then rest
                     else rest + Reversed(graph[id].dependsOn)
    ensures Seen(x, rest + [id], visited)
            || (id !in visited && id in graph && graph[id].kind != SourceNode && x in Reversed(graph[id].dependsOn))
  {
    hide Reversed;
  }

  lemma SameVisited(
    graph: Graph, roots: set<NodeId>, rest: seq<NodeId>, id: NodeId, visited: set<NodeId>, sources: set<NodeId>)
    requires Explored(graph, roots, rest + [id], visited, sources) && id in visited
    ensures Explored(graph, roots, rest, visited, sources)
  {
    forall x | Seen(x, rest, visited) ensures Seen(x, rest + [id], visited) {
    }
    forall x | Seen(x, rest + [id], visited) ensures Seen(x, rest, visited) {
    }
    hide Seen;
  }

  /**
   `upstream_sources`: exactly the sources reachable from the selection through nodes that are not
   sources. It ends on cyclic manifests because every iteration visits a new node or shortens the list.
   */
  method UpstreamSources(graph: Graph, selected: seq<NodeId>) returns (sources: set<NodeId>)
    ensures forall id :: id in sources <==> IsSource(graph, id) && Reaches(graph, Members(selected), id)
  {
    hide Explored, Universe, Reaches, Members;
    ghost var roots := Members(selected);
    sources := {};
    var visited: set<NodeId> := {};
    var pending := selected;
    ExplorationStarts(graph, selected);
    while pending != []
      invariant Explored(graph, roots, pending, visited, sources)
      decreases Universe(graph, roots) - visited, |pending|
    {
      var id, rest := pending[|pending| - 1], pending[..|pending| - 1];
      assert pending == rest + [id];
      pending := rest;
      if id in visited {
        SameVisited(graph, roots, rest, id, visited, sources);
        continue;
      }
      ExploredStep(graph, roots, rest, id, visited, sources,
                   if id !in graph || graph[id].kind == SourceNode then rest else rest + Reversed(graph[id].dependsOn));
      visited := visited + {id};
      if id !in graph {
        continue;
      }
      if graph[id].kind == SourceNode {
        sources := sources + {id};
        continue;
      }
      pending := pending + Reversed(graph[id].dependsOn);
    }
    ExplorationEnds(graph, roots, visited, sources);
  }

  lemma ExplorationStarts(graph: Graph, selected: seq<NodeId>)
    ensures Explored(graph, Members(selected), selected, {}, {})
  {
    forall id <- selected ensures IsKnown(graph, Members(selected), id) {
      ReachesRoot(graph, Members(selected), id);
    }
  }

  lemma ExplorationEnds(graph: Graph, roots: set<NodeId>, visited: set<NodeId>, sources: set<NodeId>)
    requires Explored(graph, roots, [], visited, sources)
    ensures forall id :: id in sources <==> IsSource(graph, id) && Reaches(graph, roots, id)
  {
    forall id ensures id in visited <==> Reaches(graph, roots, id) {
      if id in visited {
        assert Seen(id, [], visited);
      }
      if Reaches(graph, roots, id) {
        var path: seq<NodeId> :| IsPath(graph, path) && path[0] in roots && path[|path| - 1] == id;
        ClosedHoldsPath(graph, roots, visited, path);
      }
    }
  }

  // ---------- dependency boundaries ----------

  function ScheduledKinds(command: string): set<Kind> {
    if command == "run" then {Model}
    else if command == "build" then {Model, Seed, SnapshotNode, Test}
    else if command == "test" then {Test}
    else {}
  }

  function Scheduled(graph: Graph, selected: seq<NodeId>, command: string): set<NodeId> {
    set id <- selected | id in graph && graph[id].kind in ScheduledKinds(command)
  }

  /** The traversal goes on through a scheduled or ephemeral parent. */
  predicate Follows(graph: Graph, scheduled: set<NodeId>, parent: NodeId) {
    parent in graph && graph[parent].kind != SourceNode && (parent in scheduled || graph[parent].ephemeral)
  }

  /** The traversal stops at a parent that is neither scheduled nor ephemeral, and takes it as given. */
  predicate IsGiven(graph: Graph, scheduled: set<NodeId>, parent: NodeId) {
    && parent in graph
    && !Follows(graph, scheduled, parent)
    && graph[parent].kind in {Model, Seed, SnapshotNode}
  }

  predicate Leads(graph: Graph, scheduled: set<NodeId>, id: NodeId, parent: NodeId) {
    parent in Parents(graph, id) && Follows(graph, scheduled, parent)
  }

  /** A chain of parents from a scheduled node, each scheduled or ephemeral. */
  ghost predicate IsThread(graph: Graph, scheduled: set<NodeId>, path: seq<NodeId>) {
    && path != []
    && path[0] in scheduled
    && forall i :: 0 <= i < |path| - 1 ==> Leads(graph, scheduled, path[i], path[i + 1])
  }

  ghost predicate Touches(graph: Graph, scheduled: set<NodeId>, id: NodeId) {
    exists path: seq<NodeId> :: IsThread(graph, scheduled, path) && path[|path| - 1] == id
  }

  /** A direct parent, taken as given, of a node that the traversal touches. */
  ghost predicate IsBoundary(graph: Graph, scheduled: set<NodeId>, id: NodeId) {
    IsGiven(graph, scheduled, id) && exists n :: Touches(graph, scheduled, n) && id in Parents(graph, n)
  }

  lemma TouchesParent(graph: Graph, scheduled: set<NodeId>, id: NodeId, parent: NodeId)
    requires Touches(graph, scheduled, id) && parent in Parents(graph, id) && Follows(graph, scheduled, parent)
    ensures Touches(graph, scheduled, parent)
  {
    var path: seq<NodeId> :| IsThread(graph, scheduled, path) && path[|path| - 1] == id;
    assert IsThread(graph, scheduled, path + [parent]);
  }

  lemma {:induction false} ClosedHoldsThread(
    graph: Graph, scheduled: set<NodeId>, visited: set<NodeId>, path: seq<NodeId>)
    requires scheduled <= visited
    requires forall v <- visited, p <- Parents(graph, v) :: Follows(graph, scheduled, p) ==> p in visited
    requires IsThread(graph, scheduled, path)
    ensures path[|path| - 1] in visited
    decreases |path|
  {
    if |path| > 1 {
      var shorter := path[..|path| - 1];
      assert IsThread(graph, scheduled, shorter);
      ClosedHoldsThread(graph, scheduled, visited, shorter);
      assert Leads(graph, scheduled, path[|path| - 2], path[|path| - 2 + 1]);
    }
  }

  class BoundaryFinder {
    const graph: Graph
    const scheduled: set<NodeId>
    var visited: set<NodeId>
    /** The boundary found so far, each with a node that needs it. */
    var required: map<NodeId, NodeId>

    constructor (graph: Graph, selected: seq<NodeId>, command: string)
      ensures this.graph == graph && this.scheduled == Scheduled(graph, selected, command)
      ensures visited == {} && required == map[]
    {
      this.graph, this.scheduled := graph, Scheduled(graph, selected, command);
      visited, required := {}, map[];
    }

    /** Everything so far is justified by the graph. */
    ghost predicate Sound()
      reads this
    {
      && visited <= graph.Keys + scheduled
      && (forall v <- visited :: Touches(graph, scheduled, v))
      && (forall p <- required :: NeededBy(p, required[p]))
    }

    ghost predicate NeededBy(p: NodeId, n: NodeId) {
      IsGiven(graph, scheduled, p) && p in Parents(graph, n) && Touches(graph, scheduled, n)
    }

    /** One parent has been dealt with. */
    predicate Handled(p: NodeId)
      reads this
    {
      && (Follows(graph, scheduled, p) ==> p in visited)
      && (IsGiven(graph, scheduled, p) ==> p in required)
    }

    /** All parents of a node have been dealt with. */
    predicate Done(v: NodeId)
      reads this
    {
      forall p <- Parents(graph, v) :: Handled(p)
    }

    /**
     `visit`: everything it visits is done when it returns. Nodes that callers are still working on
     are in `visited` from before, which is what ends the recursion on a cycle.
     */
    method Visit(id: NodeId)
      requires Sound() && Touches(graph, scheduled, id) && id in graph.Keys + scheduled
      modifies this
      ensures Sound()
      ensures id in visited && old(visited) <= visited && old(required.Keys) <= required.Keys
      ensures forall v <- visited :: v !in old(visited) ==> Done(v)
      decreases graph.Keys + scheduled - visited
    {
      if id in visited {
        return;
      }
      visited := visited + {id};
      if id !in graph {
        return;
      }
      var i := 0;
      while i < |graph[id].dependsOn|
        invariant 0 <= i <= |graph[id].dependsOn|
        invariant Sound()
        invariant old(visited) + {id} <= visited && old(required.Keys) <= required.Keys
        invariant forall j :: 0 <= j < i ==> Handled(graph[id].dependsOn[j])
        invariant forall v <- visited :: v !in old(visited) && v != id ==> Done(v)
      {
        hide Touches, IsGiven, Follows, Handled;
        var parent := graph[id].dependsOn[i];
        if parent in graph && graph[parent].kind != SourceNode {
          if parent in scheduled || graph[parent].ephemeral {
            TouchesParent(graph, scheduled, id, parent);
            Visit(parent);
          } else if graph[parent].kind in {Model, Seed, SnapshotNode} {
            required := required[parent := id];
          }
        }
        i := i + 1;
      }
    }

    /**
     `dependency_boundaries`, whatever order the scheduled nodes are visited in: exactly the direct
     parents, taken as given, of the nodes touched from the scheduled ones.
     */
    method FindAll()
      requires visited == {} && required == map[]
      modifies this
      ensures forall id :: id in required <==> IsBoundary(graph, scheduled, id)
      ensures forall p <- required :: NeededBy(p, required[p])
    {
      var todo := scheduled;
      while todo != {}
        invariant todo <= scheduled
        invariant Sound()
        invariant scheduled - todo <= visited
        invariant forall v <- visited :: Done(v)
      {
        var id :| id in todo;
        assert IsThread(graph, scheduled, [id]);
        ghost var before := visited;
        Visit(id);
        todo := todo - {id};
      }
      forall id | IsBoundary(graph, scheduled, id) ensures id in required {
        var n :| Touches(graph, scheduled, n) && id in Parents(graph, n);
        var path: seq<NodeId> :| IsThread(graph, scheduled, path) && path[|path| - 1] == n;
        ClosedHoldsThread(graph, scheduled, visited, path);
        assert Done(n) && Handled(id);
      }
    }
  }
}
