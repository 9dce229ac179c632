/**
 The two graph traversals that sit on the knowledge graph: the mind's depth-limited
 gatherContext (internal/agent/llm_mind.go) and the agent's gatherMissionContext
 (internal/agent/agent.go).
 */
module ContextWalk {
  import opened Basics
  import opened KnowledgeGraph
  import opened Walks

  datatype Subgraph = Subgraph(nodes: seq<Node>, edges: seq<Edge>)

  ghost function StepsOf(g: Graph): Succ {
    (n: string) => set e | e in g.edges && g.edges[e].src == n :: g.edges[e].dst
  }

  /** `part` lists exactly the nodes named in `ids`, each once. */
  ghost predicate ListsNodes(g: Graph, part: seq<Node>, ids: set<Id>) {
    && ids <= g.nodes.Keys
    && NoDup(part) && forall n :: n in part <==> n.id in ids && g.nodes[n.id] == n
  }

  /** `part` lists exactly the edges that satisfy the two end sets, each once. */
  ghost predicate ListsEdges(g: Graph, part: seq<Edge>, sources: set<Id>, targets: set<Id>) {
    && NoDup(part)
    && forall e :: e in part <==> e.id in g.edges && g.edges[e.id] == e && e.src in sources && e.dst in targets
  }

  // --- Depth-limited breadth-first search ------------------------------------------------

  ghost predicate Visits(g: Graph, visited: map<Id, Node>, b: Bfs) {
    && visited.Keys == b.depth.Keys
    && forall v <- visited :: v in g.nodes && visited[v] == g.nodes[v]
  }

  /** Labels and enqueues the unvisited ones among the neighbours of u, which sits at depth d. */
  method VisitNeighbors(neighbors: seq<Node>, u: Id, d: nat, limit: nat, visited0: map<Id, Node>, queue0: seq<(Id, nat)>,
                        ghost g: Graph, ghost succ: Succ, ghost src: Id, ghost b0: Bfs)
    returns (visited: map<Id, Node>, queue: seq<(Id, nat)>, ghost b: Bfs)
    requires forall n <- neighbors :: n.id in succ(u) && n.id in g.nodes && g.nodes[n.id] == n
    requires queue0 == b0.queue && Visits(g, visited0, b0) && Inside(succ, src, limit, b0, u, d)
    ensures queue == b.queue && Visits(g, visited, b) && Inside(succ, src, limit, b, u, d)
    ensures forall n <- neighbors :: n.id in visited
    ensures visited0.Keys <= visited.Keys && (visited.Keys == visited0.Keys ==> queue == queue0)
  {
    hide Inside;
    visited, queue, b := visited0, queue0, b0;
    for k := 0 to |neighbors|
      invariant queue == b.queue && Visits(g, visited, b) && Inside(succ, src, limit, b, u, d)
      invariant visited0.Keys <= visited.Keys && (visited.Keys == visited0.Keys ==> queue == queue0)
      invariant forall j :: 0 <= j < k ==> neighbors[j].id in visited
    {
      var n := neighbors[k];
      if n.id !in visited {
        BfsLabel(succ, src, limit, b, u, d, n.id);
        visited := visited[n.id := n];
        queue := queue + [(n.id, d + 1)];
        b := Labelled(b, n.id, d + 1);
      }
    }
  }

  /** What GetNeighbors lists are the steps of the walk relation. */
  method NeighborsOf(kg: InMemoryKG, u: Id) returns (neighbors: seq<Node>)
    requires kg.Valid() && u in kg.nodes
    ensures forall n <- neighbors :: n.id in kg.nodes && kg.nodes[n.id] == n
    ensures forall v :: v in StepsOf(kg.View())(u) <==> exists n <- neighbors :: n.id == v
  {
    var found := kg.GetNeighbors(u);
    neighbors := found.value;
    forall v ensures v in StepsOf(kg.View())(u) <==> exists n <- neighbors :: n.id == v {
      assert v in StepsOf(kg.View())(u) <==> exists e :: e in kg.edges && kg.edges[e].src == u && kg.edges[e].dst == v;
    }
  }

  /** Everything at distance at most `limit`; the ghost labels are the shortest distances. */
  method Neighborhood(kg: InMemoryKG, missionId: Id, limit: nat) returns (visited: map<Id, Node>, ghost depth: map<Id, nat>)
    requires kg.Valid() && missionId in kg.nodes
    ensures visited.Keys == depth.Keys && forall v <- visited :: v in kg.nodes && visited[v] == kg.nodes[v]
    ensures forall v :: v in visited <==> Within(StepsOf(kg.View()), missionId, v, limit)
    ensures forall v, k: nat :: v in depth && WalkOf(StepsOf(kg.View()), missionId, v, k) ==> depth[v] <= k
  {
    hide Between, Inside, StepsOf;
    var queue: seq<(Id, nat)> := [(missionId, 0)];
    visited := map[missionId := kg.nodes[missionId]];
    ghost var g, succ := kg.View(), StepsOf(kg.View());
    ghost var b := Bfs(queue, map[missionId := 0], {});
    BfsStart(succ, missionId, limit);
    while queue != []
      invariant queue == b.queue && Visits(g, visited, b) && Between(succ, missionId, limit, b)
      decreases g.nodes.Keys - visited.Keys, |queue|
    {
      var (u, d) := queue[0];
      queue := queue[1..];
      if d >= limit {
        BfsSkip(succ, missionId, limit, b);
        b := Finished(Popped(b), u);
      } else {
        BfsPop(succ, missionId, limit, b);
        ghost var seen := visited.Keys;
        var neighbors := NeighborsOf(kg, u);
        visited, queue, b := VisitNeighbors(neighbors, u, d, limit, visited, queue, g, succ, missionId, Popped(b));
        assert visited.Keys != seen ==> g.nodes.Keys - visited.Keys < g.nodes.Keys - seen;
        BfsClose(succ, missionId, limit, b, u, d);
        b := Finished(b, u);
      }
    }
    depth := b.depth;
    BfsDone(succ, missionId, limit, b);
  }

  lemma ListsNodesGrows(g: Graph, part: seq<Node>, ids: set<Id>, id: Id)
    requires g.Closed() && ListsNodes(g, part, ids) && id in g.nodes && id !in ids
    ensures ListsNodes(g, part + [g.nodes[id]], ids + {id})
  {
    assert forall n :: n in part + [g.nodes[id]] <==> n in part || n == g.nodes[id];
  }

  /** The visited nodes and the edges among them, in the arbitrary order of a map iteration. */
  method Induce(kg: InMemoryKG, visited: map<Id, Node>) returns (r: Subgraph)
    requires kg.Valid() && forall v <- visited :: v in kg.nodes && visited[v] == kg.nodes[v]
    ensures ListsNodes(kg.View(), r.nodes, visited.Keys)
    ensures ListsEdges(kg.View(), r.edges, visited.Keys, visited.Keys)
  {
    var nodes: seq<Node> := [];
    var edges: seq<Edge> := [];
    var todo, handled := visited.Keys, {};
    while todo != {}
      invariant todo + handled == visited.Keys && todo !! handled
      invariant ListsNodes(kg.View(), nodes, handled)
      invariant ListsEdges(kg.View(), edges, handled, visited.Keys)
    {
      var id :| id in todo;
      ListsNodesGrows(kg.View(), nodes, handled, id);
      nodes := nodes + [visited[id]];
      var out := kg.GetEdges(id);
      edges := AppendInside(kg.View(), edges, out.value, id, handled, visited.Keys);
      todo, handled := todo - {id}, handled + {id};
    }
    assert handled == visited.Keys;
    return Subgraph(nodes, edges);
  }

  /** A look-back of zero or less reaches the mission node only. */
  function Reach(lookback: int): nat {
    if lookback < 0 then 0 else lookback
  }

  /** The nodes within the look-back distance of the mission, and the edges among them. */
  method GatherContext(kg: InMemoryKG, missionId: Id, lookback: int) returns (r: Option<Subgraph>)
    requires kg.Valid()
    ensures r.Some? <==> missionId in kg.nodes
    ensures r.Some? ==>
              exists near: set<Id> ::
                && (forall v :: v in near <==> exists k: nat :: (k == 0 || k <= lookback) && WalkOf(StepsOf(kg.View()), missionId, v, k))
                && ListsNodes(kg.View(), r.value.nodes, near) && ListsEdges(kg.View(), r.value.edges, near, near)
  {
    hide ListsNodes, ListsEdges, StepsOf;
    var start := kg.GetNode(missionId);
    if start.None? {
      return None;
    }
    var visited, _ := Neighborhood(kg, missionId, Reach(lookback));
    var part := Induce(kg, visited);
    return Some(part);
  }

  /** Appends the edges of one node that stay inside the visited set. */
  method AppendInside(ghost g: Graph, edges0: seq<Edge>, out: seq<Edge>, id: Id, ghost handled: set<Id>, visited: set<Id>)
    returns (edges: seq<Edge>)
    requires g.Closed() && id !in handled && id in visited
    requires NoDup(out) && (set e | e in out) == g.OutOf(id)
    requires ListsEdges(g, edges0, handled, visited)
    ensures ListsEdges(g, edges, handled + {id}, visited)
  {
    edges := edges0;
    assert forall e :: e in out <==> e in (set x | x in out);
    forall e ensures e in out <==> e.id in g.edges && g.edges[e.id] == e && e.src == id {
      assert e in out <==> e in g.OutOf(id);
    }
    for k := 0 to |out|
      invariant NoDup(edges)
      invariant forall e :: e in edges <==> e in edges0 || (e in out[..k] && e.dst in visited)
    {
      if out[k].dst in visited && out[k].src in visited {
        assert out[k] !in edges0 && out[k] !in out[..k];
        edges := edges + [out[k]];
      }
    }
    assert out[..|out|] == out;
  }

  // --- Unbounded traversal ---------------------------------------------------------------

  ghost predicate Collected(g: Graph, seen: set<Id>, edges: seq<Edge>) {
    seen <= g.edges.Keys && NoDup(edges) && forall e :: e in edges <==> e.id in seen && g.edges[e.id] == e
  }

  ghost predicate OnlyReachable(g: Graph, missionId: Id, queue: seq<Id>) {
    forall v :: v in queue ==> Reachable(StepsOf(g), missionId, v)
  }

  /** Both ends of a seen edge are visited or still waiting. */
  ghost predicate EndsKnown(g: Graph, queue: seq<Id>, visited: map<Id, Node>, seen: set<Id>) {
    forall e <- seen :: e in g.edges && g.edges[e].src in visited && (g.edges[e].dst in visited || g.edges[e].dst in queue)
  }

  /** What the queue may hold, what has been visited and what has been collected. */
  ghost predicate MissionInv(g: Graph, missionId: Id, queue: seq<Id>, visited: map<Id, Node>, seen: set<Id>, edges: seq<Edge>) {
    && (forall v <- visited :: v in g.nodes && visited[v] == g.nodes[v] && Reachable(StepsOf(g), missionId, v))
    && OnlyReachable(g, missionId, queue)
    && (missionId in visited || missionId in queue || missionId !in g.nodes)
    && Collected(g, seen, edges) && EndsKnown(g, queue, visited, seen)
  }

  lemma CollectedGrows(g: Graph, e: Edge, seen: set<Id>, edges: seq<Edge>)
    requires Collected(g, seen, edges) && e.id in g.edges && g.edges[e.id] == e && e.id !in seen
    ensures Collected(g, seen + {e.id}, edges + [e])
  {
    assert forall x :: x in edges + [e] <==> x in edges || x == e;
  }

  lemma MissionInvGrows(g: Graph, missionId: Id, node: Id, e: Edge, queue: seq<Id>, visited: map<Id, Node>, seen: set<Id>,
                        edges: seq<Edge>)
    requires MissionInv(g, missionId, queue, visited, seen, edges)
    requires node in visited && e.id in g.edges && g.edges[e.id] == e && e.src == node && e.id !in seen
    ensures MissionInv(g, missionId, queue + [e.src] + [e.dst], visited, seen + {e.id}, edges + [e])
  {
    StepFromReachable(g, missionId, node, e);
    CollectedGrows(g, e, seen, edges);
    var longer := queue + [e.src] + [e.dst];
    assert OnlyReachable(g, missionId, longer);
    assert EndsKnown(g, longer, visited, seen + {e.id}) by {
      assert e.dst == longer[|queue| + 1];
    }
    assert missionId in queue ==> missionId in longer;
  }

  lemma OneFewer(all: set<Id>, seen: set<Id>, e: Id)
    requires e in all && e !in seen
    ensures |all - (seen + {e})| == |all - seen| - 1
  {
    assert all - (seen + {e}) == all - seen - {e};
  }

  /** Collects the unseen edges of one visited node. */
  method CollectEdges(ghost g: Graph, missionId: Id, node: Id, out: seq<Edge>, queue0: seq<Id>, visited: map<Id, Node>,
                      seen0: set<Id>, edges0: seq<Edge>) returns (queue: seq<Id>, seen: set<Id>, edges: seq<Edge>)
    requires node in visited && forall e <- out :: e.id in g.edges && g.edges[e.id] == e && e.src == node
    requires MissionInv(g, missionId, queue0, visited, seen0, edges0)
    ensures MissionInv(g, missionId, queue, visited, seen, edges)
    ensures seen0 <= seen && forall e <- out :: e.id in seen
    ensures 2 * |g.edges.Keys - seen| + |queue| <= 2 * |g.edges.Keys - seen0| + |queue0|
  {
    hide MissionInv;
    queue, seen, edges := queue0, seen0, edges0;
    for k := 0 to |out|
      invariant MissionInv(g, missionId, queue, visited, seen, edges)
      invariant seen0 <= seen && forall j :: 0 <= j < k ==> out[j].id in seen
      invariant 2 * |g.edges.Keys - seen| + |queue| <= 2 * |g.edges.Keys - seen0| + |queue0|
    {
      var e := out[k];
      if e.id !in seen {
        MissionInvGrows(g, missionId, node, e, queue, visited, seen, edges);
        OneFewer(g.edges.Keys, seen, e.id);
        edges := edges + [e];
        seen := seen + {e.id};
        queue := queue + [e.src] + [e.dst];
      }
    }
  }

  lemma StepFromReachable(g: Graph, missionId: Id, node: Id, e: Edge)
    requires Reachable(StepsOf(g), missionId, node) && e.id in g.edges && g.edges[e.id] == e && e.src == node
    ensures Reachable(StepsOf(g), missionId, e.dst)
  {
    var k: nat :| WalkOf(StepsOf(g), missionId, node, k);
    WalkStep(StepsOf(g), missionId, node, e.dst, k);
  }

  /** The head of the queue is visited if it exists, and then leaves the queue. */
  function AfterPop(nodes: map<Id, Node>, visited: map<Id, Node>, head: Id): map<Id, Node> {
    if head in visited || head !in nodes then visited else visited[head := nodes[head]]
  }

  lemma MissionInvPop(g: Graph, missionId: Id, queue: seq<Id>, visited: map<Id, Node>, seen: set<Id>, edges: seq<Edge>)
    requires g.Closed() && queue != [] && MissionInv(g, missionId, queue, visited, seen, edges)
    ensures MissionInv(g, missionId, queue[1..], AfterPop(g.nodes, visited, queue[0]), seen, edges)
    ensures missionId !in g.nodes ==> AfterPop(g.nodes, visited, queue[0]) == visited
  {
    if queue[0] in g.nodes {
      StartsTheWalk(g, missionId, queue[0]);
    }
    assert forall v :: v in queue <==> v == queue[0] || v in queue[1..];
  }

  lemma MissionDone(g: Graph, missionId: Id, visited: map<Id, Node>, seen: set<Id>, edges: seq<Edge>)
    requires g.Closed() && MissionInv(g, missionId, [], visited, seen, edges) && missionId in g.nodes
    requires forall e <- g.edges :: g.edges[e].src in visited ==> e in seen
    ensures forall v :: v in visited.Keys <==> Reachable(StepsOf(g), missionId, v)
    ensures ListsEdges(g, edges, visited.Keys, visited.Keys)
    ensures forall e <- g.edges :: g.edges[e].src in visited ==> g.edges[e] in edges
  {
    assert forall u, x :: u in visited.Keys && x in StepsOf(g)(u) ==> x in visited.Keys;
    forall v | Reachable(StepsOf(g), missionId, v) ensures v in visited.Keys {
      var k: nat :| WalkOf(StepsOf(g), missionId, v, k);
      ClosedHoldsWalk(StepsOf(g), missionId, visited.Keys, v, k);
    }
  }

  /** All nodes reachable from an existing mission node, and every edge that leaves them. */
  method GatherMissionContext(kg: InMemoryKG, missionId: Id) returns (r: Subgraph)
    requires kg.Valid()
    ensures missionId !in kg.nodes ==> r == Subgraph([], [])
    ensures missionId in kg.nodes ==>
              exists reached: set<Id> ::
                && (forall v :: v in reached <==> Reachable(StepsOf(kg.View()), missionId, v))
                && ListsNodes(kg.View(), r.nodes, reached) && ListsEdges(kg.View(), r.edges, reached, reached)
                && (forall e <- kg.edges :: kg.edges[e].src in reached ==> kg.edges[e] in r.edges)
  {
    var visited, edges := Traverse(kg, missionId);
    var nodes := ListValues(visited, kg.View());
    ghost var reached := visited.Keys;
    assert missionId in kg.nodes ==> ListsNodes(kg.View(), nodes, reached) && ListsEdges(kg.View(), edges, reached, reached);
    return Subgraph(nodes, edges);
  }

  /** The loop of gatherMissionContext; 2 * unseen edges + queue length decreases. */
  method Traverse(kg: InMemoryKG, missionId: Id) returns (visited: map<Id, Node>, edges: seq<Edge>)
    requires kg.Valid()
    ensures forall v <- visited :: v in kg.nodes && visited[v] == kg.nodes[v]
    ensures missionId !in kg.nodes ==> visited == map[] && edges == []
    ensures missionId in kg.nodes ==>
              && (forall v :: v in visited.Keys <==> Reachable(StepsOf(kg.View()), missionId, v))
              && ListsEdges(kg.View(), edges, visited.Keys, visited.Keys)
              && (forall e <- kg.edges :: kg.edges[e].src in visited ==> kg.edges[e] in edges)
  {
    var queue := [missionId];
    visited, edges := map[], [];
    var seen: set<Id> := {};
    ghost var g := kg.View();
    MissionStart(g, missionId);
    while queue != []
      invariant MissionInv(g, missionId, queue, visited, seen, edges)
      invariant forall v <- visited :: v in g.nodes && visited[v] == g.nodes[v]
      invariant forall e <- g.edges :: g.edges[e].src in visited ==> e in seen
      invariant missionId !in kg.nodes ==> visited == map[] && edges == []
      decreases 2 * |g.edges.Keys - seen| + |queue|
    {
      var nodeId := queue[0];
      MissionInvPop(g, missionId, queue, visited, seen, edges);
      queue := queue[1..];
      if nodeId in visited {
        continue;
      }
      var node := kg.GetNode(nodeId);
      if node.None? {
        continue;
      }
      visited := visited[nodeId := node.value];
      var out := EdgesOf(kg, nodeId);
      queue, seen, edges := CollectEdges(g, missionId, nodeId, out, queue, visited, seen, edges);
    }
    if missionId in kg.nodes {
      MissionDone(g, missionId, visited, seen, edges);
    }
  }

  lemma MissionStart(g: Graph, missionId: Id)
    ensures MissionInv(g, missionId, [missionId], map[], {}, [])
  {
    WalkZero(StepsOf(g), missionId);
  }

  /** What GetEdges lists, read as a full scan. */
  method EdgesOf(kg: InMemoryKG, u: Id) returns (out: seq<Edge>)
    requires kg.Valid() && u in kg.nodes
    ensures forall e :: e in out <==> e.id in kg.edges && kg.edges[e.id] == e && e.src == u
  {
    var found := kg.GetEdges(u);
    out := found.value;
    forall e ensures e in out <==> e.id in kg.edges && kg.edges[e.id] == e && e.src == u {
      assert e in (set x | x in out) <==> e in kg.View().OutOf(u);
    }
  }

  /** A node that exists and is reachable shows that the mission node exists. */
  lemma StartsTheWalk(g: Graph, missionId: Id, v: Id)
    requires g.Closed() && v in g.nodes && Reachable(StepsOf(g), missionId, v)
    ensures missionId in g.nodes
  {
    var k: nat :| WalkOf(StepsOf(g), missionId, v, k);
    var w :| IsWalk(StepsOf(g), missionId, v, w) && |w| == k + 1;
    if k > 0 {
      assert w[1] in StepsOf(g)(w[0]);
    }
  }

  /** The values of the visited map in the arbitrary order of a map iteration. */
  method ListValues(m: map<Id, Node>, ghost g: Graph) returns (r: seq<Node>)
    requires g.Closed() && forall v <- m :: v in g.nodes && m[v] == g.nodes[v]
    ensures ListsNodes(g, r, m.Keys) && (m == map[] ==> r == [])
  {
    r := [];
    var todo, listed := m.Keys, {};
    while todo != {}
      invariant todo + listed == m.Keys && todo !! listed
      invariant ListsNodes(g, r, listed) && (m == map[] ==> r == [])
    {
      var id :| id in todo;
      ListsNodesGrows(g, r, listed, id);
      r := r + [m[id]];
      todo, listed := todo - {id}, listed + {id};
    }
    assert listed == m.Keys;
  }
}
