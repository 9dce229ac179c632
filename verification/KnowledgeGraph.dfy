/**
 The in-memory knowledge graph (internal/knowledgegraph/knowledgegraph.go): a node table,
 an edge table and an adjacency index that has to agree with the edge table after every
 update, including an update that moves an edge to another source node.
 */
module KnowledgeGraph {
  import opened Basics

  type Id = string

  /** `info` stands for the fields the graph code copies but never inspects. */
  datatype Node = Node(id: Id, info: string)
  datatype Edge = Edge(id: Id, src: Id, dst: Id, info: string)

  /** The meaning of a store: what was put into it, without the index. */
  datatype Graph = Graph(nodes: map<Id, Node>, edges: map<Id, Edge>) {

    /** Every table entry sits under its own id and both ends of every edge exist. */
    ghost predicate Closed() {
      && (forall n <- nodes :: nodes[n].id == n)
      && (forall e <- edges :: edges[e].id == e && edges[e].src in nodes && edges[e].dst in nodes)
    }

    /** A full scan of the edge table. */
    ghost function OutOf(n: Id): set<Edge> {
      set e | e in edges && edges[e].src == n :: edges[e]
    }
  }

  datatype Op = PutNode(node: Node) | PutEdge(edge: Edge)

  function Apply(g: Graph, op: Op): Graph {
    match op
    case PutNode(n) => g.(nodes := g.nodes[n.id := n])
    case PutEdge(e) =>
      if e.src in g.nodes && e.dst in g.nodes then g.(edges := g.edges[e.id := e]) else g
  }

  function ApplyAll(ops: seq<Op>): Graph {
    if ops == [] then Graph(map[], map[]) else Apply(ApplyAll(ops[..|ops| - 1]), ops[|ops| - 1])
  }

  /** The index entry of a node, nil-slice reading included. */
  function Listed(index: map<Id, seq<Id>>, n: Id): seq<Id> {
    if n in index then index[n] else []
  }

  /** The index lists exactly the edges that leave each node, each of them once. */
  ghost predicate IndexAgrees(edges: map<Id, Edge>, index: map<Id, seq<Id>>) {
    && (forall n :: NoDup(Listed(index, n)))
    && (forall n, e :: e in Listed(index, n) <==> e in edges && edges[e].src == n)
  }

  class InMemoryKG {
    var nodes: map<Id, Node>
    var edges: map<Id, Edge>
    var outgoingEdges: map<Id, seq<Id>>

    ghost predicate Valid()
      reads this
    {
      View().Closed() && IndexAgrees(edges, outgoingEdges)
    }

    ghost function View(): Graph
      reads this
    {
      Graph(nodes, edges)
    }

    constructor ()
      ensures Valid() && View() == ApplyAll([])
    {
      nodes, edges, outgoingEdges := map[], map[], map[];
    }

    method AddNode(node: Node)
      requires Valid()
      modifies this
      ensures Valid() && View() == Apply(old(View()), PutNode(node))
      ensures nodes == old(nodes)[node.id := node] && edges == old(edges) && outgoingEdges == old(outgoingEdges)
    {
      nodes := nodes[node.id := node];
    }

    method AddEdge(edge: Edge) returns (ok: bool)
      requires Valid()
      modifies this
      ensures Valid() && View() == Apply(old(View()), PutEdge(edge))
      ensures ok <==> edge.src in old(nodes) && edge.dst in old(nodes)
      ensures nodes == old(nodes) && edges == if ok then old(edges)[edge.id := edge] else old(edges)
    {
      if edge.src !in nodes || edge.dst !in nodes {
        return false;
      }
      if edge.id in edges {
        if edges[edge.id].src != edge.src {
          RemoveFromOutgoing(edges[edge.id].src, edge.id);
          AppendListsOneMore(outgoingEdges, edge.src, edge.id);
          outgoingEdges := outgoingEdges[edge.src := Listed(outgoingEdges, edge.src) + [edge.id]];
        }
      } else {
        AppendListsOneMore(outgoingEdges, edge.src, edge.id);
        outgoingEdges := outgoingEdges[edge.src := Listed(outgoingEdges, edge.src) + [edge.id]];
      }
      edges := edges[edge.id := edge];
      return true;
    }

    /** Swap-with-last removal of the first occurrence. */
    method RemoveFromOutgoing(nodeId: Id, edgeId: Id)
      requires NoDup(Listed(outgoingEdges, nodeId))
      modifies this`outgoingEdges
      ensures forall n :: n != nodeId ==> Listed(outgoingEdges, n) == Listed(old(outgoingEdges), n)
      ensures forall n :: n in outgoingEdges <==> n in old(outgoingEdges)
      ensures NoDup(Listed(outgoingEdges, nodeId))
      ensures forall e :: e in Listed(outgoingEdges, nodeId) <==> e in Listed(old(outgoingEdges), nodeId) && e != edgeId
    {
      var ids := Listed(outgoingEdges, nodeId);
      for i := 0 to |ids|
        invariant edgeId !in ids[..i]
        invariant outgoingEdges == old(outgoingEdges)
      {
        if ids[i] == edgeId {
          var last := |ids| - 1;
          var kept := ids[i := ids[last]][..last];
          outgoingEdges := outgoingEdges[nodeId := kept];
          SwapRemoveKeepsOthers(ids, i);
          return;
        }
      }
    }

    method GetNode(id: Id) returns (r: Option<Node>)
      ensures r == if id in nodes then Some(nodes[id]) else None
    {
      return if id in nodes then Some(nodes[id]) else None;
    }

    /** Agrees with a full scan of the edge table, and lists each edge once. */
    method GetEdges(nodeId: Id) returns (r: Option<seq<Edge>>)
      requires Valid()
      ensures r.Some? <==> nodeId in nodes
      ensures r.Some? ==> NoDup(r.value) && (set e | e in r.value) == View().OutOf(nodeId)
      ensures r.Some? ==> |r.value| == |Listed(outgoingEdges, nodeId)|
      ensures r.Some? ==> forall i :: 0 <= i < |r.value| ==> r.value[i].id == Listed(outgoingEdges, nodeId)[i]
    {
      if nodeId !in nodes {
        return None;
      }
      var ids := Listed(outgoingEdges, nodeId);
      var found: seq<Edge> := [];
      for i := 0 to |ids|
        invariant |found| == i
        invariant forall k :: 0 <= k < i ==> ids[k] in edges && found[k] == edges[ids[k]]
      {
        assert ids[i] in Listed(outgoingEdges, nodeId);
        // the inconsistency guard of the source is never taken on a valid store
        if ids[i] in edges {
          found := found + [edges[ids[i]]];
        }
      }
      assert NoDup(ids);
      forall e ensures e in found <==> e in View().OutOf(nodeId) {
        if e in View().OutOf(nodeId) {
          assert e.id in edges && e.id in Listed(outgoingEdges, nodeId);
          var k :| 0 <= k < |ids| && ids[k] == e.id;
          assert found[k] == e;
        }
        if e in found {
          var k :| 0 <= k < |found| && found[k] == e;
          assert ids[k] in Listed(outgoingEdges, nodeId);
        }
      }
      return Some(found);
    }

    /** One entry per outgoing edge: the node that edge leads to. */
    method GetNeighbors(nodeId: Id) returns (r: Option<seq<Node>>)
      requires Valid()
      ensures r.Some? <==> nodeId in nodes
      ensures r.Some? ==> |r.value| == |Listed(outgoingEdges, nodeId)|
      ensures r.Some? ==> forall i :: 0 <= i < |r.value| ==>
                                        var e := Listed(outgoingEdges, nodeId)[i];
                                        e in edges && edges[e].dst in nodes && r.value[i] == nodes[edges[e].dst]
      ensures r.Some? ==> forall n :: (exists e :: e in edges && edges[e].src == nodeId && edges[e].dst == n)
                                      <==> n in nodes && nodes[n] in r.value
    {
      if nodeId !in nodes {
        return None;
      }
      var ids := Listed(outgoingEdges, nodeId);
      var found: seq<Node> := [];
      for i := 0 to |ids|
        invariant |found| == i
        invariant forall k :: 0 <= k < i ==>
                                ids[k] in edges && edges[ids[k]].dst in nodes && found[k] == nodes[edges[ids[k]].dst]
      {
        assert ids[i] in Listed(outgoingEdges, nodeId);
        if ids[i] in edges {
          var edge := edges[ids[i]];
          if edge.dst in nodes {
            found := found + [nodes[edge.dst]];
          }
        }
      }
      forall n ensures (exists e :: e in edges && edges[e].src == nodeId && edges[e].dst == n)
                       <==> n in nodes && nodes[n] in found {
        if e :| e in edges && edges[e].src == nodeId && edges[e].dst == n {
          assert e in Listed(outgoingEdges, nodeId);
          var k :| 0 <= k < |ids| && ids[k] == e;
          assert found[k] == nodes[n];
        }
        if n in nodes && nodes[n] in found {
          var k :| 0 <= k < |found| && found[k] == nodes[n];
          assert ids[k] in Listed(outgoingEdges, nodeId);
        }
      }
      return Some(found);
    }
  }

  lemma AppendListsOneMore(index: map<Id, seq<Id>>, n: Id, e: Id)
    requires forall m :: NoDup(Listed(index, m))
    requires e !in Listed(index, n)
    ensures var longer := index[n := Listed(index, n) + [e]];
            && (forall m :: NoDup(Listed(longer, m)))
            && (forall m, x :: x in Listed(longer, m) <==> x in Listed(index, m) || (m == n && x == e))
  {
    var longer := index[n := Listed(index, n) + [e]];
    assert forall m :: m != n ==> Listed(longer, m) == Listed(index, m);
  }

  lemma SwapRemoveKeepsOthers(ids: seq<Id>, i: nat)
    requires i < |ids| && NoDup(ids)
    ensures var kept := ids[i := ids[|ids| - 1]][..|ids| - 1];
            NoDup(kept) && forall e :: e in kept <==> e in ids && e != ids[i]
  {
    var last := |ids| - 1;
    var kept := ids[i := ids[last]][..last];
    forall e | e in ids && e != ids[i] ensures e in kept {
      var k :| 0 <= k < |ids| && ids[k] == e;
      assert if k == last then kept[i] == e else kept[k] == e;
    }
  }

  /** The node put last under an identifier. */
  function LastNode(ops: seq<Op>, id: Id): Option<Node> {
    if ops == [] then None
    else match ops[|ops| - 1]
      case PutNode(n) => if n.id == id then Some(n) else LastNode(ops[..|ops| - 1], id)
      case PutEdge(_) => LastNode(ops[..|ops| - 1], id)
  }

  /** The edge put last under an identifier at a time when both its ends existed. */
  function LastEdge(ops: seq<Op>, id: Id): Option<Edge> {
    if ops == [] then None
    else
      var before := ops[..|ops| - 1];
      match ops[|ops| - 1]
      case PutNode(_) => LastEdge(before, id)
      case PutEdge(e) => if e.id == id && LastNode(before, e.src).Some? && LastNode(before, e.dst).Some? then Some(e) else LastEdge(before, id)
  }

  function Lookup<T>(m: map<Id, T>, id: Id): Option<T> {
    if id in m then Some(m[id]) else None
  }

  /** Looking up gives what was put last, for nodes and for edges. */
  lemma {:induction false} LastPutWins(ops: seq<Op>, id: Id)
    ensures Lookup(ApplyAll(ops).nodes, id) == LastNode(ops, id) && Lookup(ApplyAll(ops).edges, id) == LastEdge(ops, id)
  {
    if ops != [] {
      var before := ops[..|ops| - 1];
      LastPutWins(before, id);
      match ops[|ops| - 1]
      case PutNode(_) =>
      case PutEdge(e) =>
        LastPutWins(before, e.src);
        LastPutWins(before, e.dst);
    }
  }

  /** Any sequence of calls leaves a store that means exactly what the calls say. */
  method Replay(ops: seq<Op>) returns (kg: InMemoryKG)
    ensures fresh(kg) && kg.Valid() && kg.View() == ApplyAll(ops)
    ensures forall id :: Lookup(kg.nodes, id) == LastNode(ops, id) && Lookup(kg.edges, id) == LastEdge(ops, id)
  {
    kg := new InMemoryKG();
    for i := 0 to |ops|
      invariant fresh(kg) && kg.Valid() && kg.View() == ApplyAll(ops[..i])
    {
      assert ops[..i + 1][..i] == ops[..i];
      match ops[i]
      case PutNode(n) => kg.AddNode(n);
      case PutEdge(e) => var _ := kg.AddEdge(e);
    }
    assert ops[..|ops|] == ops;
    forall id ensures Lookup(kg.nodes, id) == LastNode(ops, id) && Lookup(kg.edges, id) == LastEdge(ops, id) {
      LastPutWins(ops, id);
    }
  }

  lemma {:induction false} AlwaysClosed(ops: seq<Op>)
    ensures ApplyAll(ops).Closed()
  {
    if ops != [] {
      AlwaysClosed(ops[..|ops| - 1]);
    }
  }
}
