/**
 Directed walks, and the certificate that a depth labelling is the shortest-distance
 labelling. Both depth-limited traversals of the repository (the mind's context gathering
 and the crawler) end in such a labelling.
 */
module Walks {

  type Succ = string -> set<string>

  ghost predicate IsWalk(succ: Succ, src: string, dst: string, w: seq<string>) {
    && |w| > 0 && w[0] == src && w[|w| - 1] == dst
    && forall i {:trigger w[i]} :: 0 <= i < |w| - 1 ==> w[i + 1] in succ(w[i])
  }

  /** A walk of exactly n steps. */
  ghost predicate WalkOf(succ: Succ, src: string, dst: string, n: nat) {
    exists w :: IsWalk(succ, src, dst, w) && |w| == n + 1
  }

  /** Distance at most n. */
  ghost predicate Within(succ: Succ, src: string, dst: string, n: nat) {
    exists k: nat :: k <= n && WalkOf(succ, src, dst, k)
  }

  ghost predicate Reachable(succ: Succ, src: string, dst: string) {
    exists k: nat :: WalkOf(succ, src, dst, k)
  }

  lemma WalkZero(succ: Succ, src: string)
    ensures WalkOf(succ, src, src, 0)
  {
    assert IsWalk(succ, src, src, [src]);
  }

  lemma WalkStep(succ: Succ, src: string, u: string, v: string, n: nat)
    requires WalkOf(succ, src, u, n) && v in succ(u)
    ensures WalkOf(succ, src, v, n + 1)
  {
    var w :| IsWalk(succ, src, u, w) && |w| == n + 1;
    assert IsWalk(succ, src, v, w + [v]);
  }

  /** The last step of a non-empty walk. */
  lemma WalkUnstep(succ: Succ, src: string, v: string, n: nat) returns (u: string)
    requires n > 0 && WalkOf(succ, src, v, n)
    ensures WalkOf(succ, src, u, n - 1) && v in succ(u)
  {
    var w :| IsWalk(succ, src, v, w) && |w| == n + 1;
    u := w[n - 1];
    assert IsWalk(succ, src, u, w[..n]);
  }

  /** Every step out of `done` lands on a label at most one higher. */
  ghost predicate Expanded(succ: Succ, depth: map<string, nat>, done: set<string>, limit: nat) {
    forall u, v {:trigger u in done, v in succ(u)} ::
      u in done && u in depth && depth[u] < limit && v in succ(u) ==> v in depth && depth[v] <= depth[u] + 1
  }

  /** Labels are backed by walks and never exceed the limit. */
  ghost predicate Backed(succ: Succ, src: string, depth: map<string, nat>, limit: nat) {
    && src in depth && depth[src] == 0
    && forall v <- depth :: depth[v] <= limit && WalkOf(succ, src, v, depth[v])
  }

  lemma {:induction false} LabelAtMostWalk(succ: Succ, src: string, depth: map<string, nat>, limit: nat, v: string, n: nat)
    requires Backed(succ, src, depth, limit) && Expanded(succ, depth, depth.Keys, limit)
    requires n <= limit && WalkOf(succ, src, v, n)
    ensures v in depth && depth[v] <= n
    decreases n
  {
    if n == 0 {
      var w :| IsWalk(succ, src, v, w) && |w| == 1;
    } else {
      var u := WalkUnstep(succ, src, v, n);
      LabelAtMostWalk(succ, src, depth, limit, u, n - 1);
    }
  }

  /** The labelled vertices are those within the limit, and every label is the shortest distance. */
  lemma LabelsAreDistances(succ: Succ, src: string, depth: map<string, nat>, limit: nat)
    requires Backed(succ, src, depth, limit) && Expanded(succ, depth, depth.Keys, limit)
    ensures forall v :: v in depth <==> Within(succ, src, v, limit)
    ensures forall v, k: nat :: v in depth && WalkOf(succ, src, v, k) ==> depth[v] <= k
  {
    forall v, k: nat | WalkOf(succ, src, v, k) && k <= limit ensures v in depth && depth[v] <= k {
      LabelAtMostWalk(succ, src, depth, limit, v, k);
    }
  }

  /** A set that holds the source and is closed under steps holds everything reachable. */
  lemma {:induction false} ClosedHoldsWalk(succ: Succ, src: string, s: set<string>, v: string, n: nat)
    requires src in s && forall u, x :: u in s && x in succ(u) ==> x in s
    requires WalkOf(succ, src, v, n)
    ensures v in s
    decreases n
  {
    if n == 0 {
      var w :| IsWalk(succ, src, v, w) && |w| == 1;
    } else {
      var u := WalkUnstep(succ, src, v, n);
      ClosedHoldsWalk(succ, src, s, u, n - 1);
    }
  }

  // --- Depth-limited breadth-first search as a state ---------------------------------------

  /** A first-in-first-out queue of (vertex, depth), the labels given so far and the finished vertices. */
  datatype Bfs = Bfs(queue: seq<(string, nat)>, depth: map<string, nat>, done: set<string>)

  ghost predicate Waiting(queue: seq<(string, nat)>, v: string) {
    exists i :: 0 <= i < |queue| && queue[i].0 == v
  }

  /** Queue entries carry their labels, in non-decreasing order, and only depths lo and lo + 1 occur. */
  ghost predicate Ordered(b: Bfs, lo: nat) {
    && (forall i :: 0 <= i < |b.queue| ==>
                      b.queue[i].0 in b.depth && b.depth[b.queue[i].0] == b.queue[i].1 && lo <= b.queue[i].1 <= lo + 1)
    && (forall i, j :: 0 <= i < j < |b.queue| ==> b.queue[i].1 <= b.queue[j].1)
  }

  ghost predicate Common(succ: Succ, src: string, limit: nat, b: Bfs, lo: nat) {
    && Backed(succ, src, b.depth, limit) && Expanded(succ, b.depth, b.done, limit) && Ordered(b, lo)
    && b.done <= b.depth.Keys && (forall v <- b.done :: b.depth[v] <= lo)
  }

  /** Between two vertices. */
  ghost predicate Between(succ: Succ, src: string, limit: nat, b: Bfs) {
    && (exists lo: nat :: Common(succ, src, limit, b, lo) && (b.queue != [] ==> b.queue[0].1 == lo))
    && (forall v <- b.depth :: v in b.done || Waiting(b.queue, v))
  }

  /** While the successors of the vertex u at depth d are being looked at. */
  ghost predicate Inside(succ: Succ, src: string, limit: nat, b: Bfs, u: string, d: nat) {
    && d < limit && Common(succ, src, limit, b, d) && u in b.depth && b.depth[u] == d
    && (forall v <- b.depth :: b.depth[v] <= d + 1 && (v in b.done || v == u || Waiting(b.queue, v)))
  }

  function Popped(b: Bfs): Bfs
    requires b.queue != []
  {
    b.(queue := b.queue[1..])
  }

  function Labelled(b: Bfs, v: string, d: nat): Bfs {
    b.(queue := b.queue + [(v, d)], depth := b.depth[v := d])
  }

  function Finished(b: Bfs, u: string): Bfs {
    b.(done := b.done + {u})
  }

  lemma BfsStart(succ: Succ, src: string, limit: nat)
    ensures Between(succ, src, limit, Bfs([(src, 0)], map[src := 0], {}))
  {
    var b := Bfs([(src, 0)], map[src := 0], {});
    WalkZero(succ, src);
    assert b.queue[0].0 == src;
    assert Common(succ, src, limit, b, 0);
  }

  lemma BfsPop(succ: Succ, src: string, limit: nat, b: Bfs)
    requires Between(succ, src, limit, b) && b.queue != [] && b.queue[0].1 < limit
    ensures Inside(succ, src, limit, Popped(b), b.queue[0].0, b.queue[0].1)
  {
  }

  /** A vertex at the limit is dropped unexpanded. */
  lemma BfsSkip(succ: Succ, src: string, limit: nat, b: Bfs)
    requires Between(succ, src, limit, b) && b.queue != [] && b.queue[0].1 >= limit
    ensures Between(succ, src, limit, Finished(Popped(b), b.queue[0].0))
  {
    var lo: nat :| Common(succ, src, limit, b, lo) && b.queue[0].1 == lo;
    var p := Finished(Popped(b), b.queue[0].0);
    assert forall i :: 0 <= i < |p.queue| ==> p.queue[i] == b.queue[i + 1];
    assert Common(succ, src, limit, p, lo);
    assert p.queue != [] ==> p.queue[0].1 == lo;
  }

  lemma WaitingGrows(queue: seq<(string, nat)>, item: (string, nat), v: string)
    requires v == item.0 || Waiting(queue, v)
    ensures Waiting(queue + [item], v)
  {
    if v == item.0 {
      assert (queue + [item])[|queue|].0 == v;
    } else {
      var i :| 0 <= i < |queue| && queue[i].0 == v;
      assert (queue + [item])[i].0 == v;
    }
  }

  lemma OrderedGrows(b: Bfs, v: string, lo: nat)
    requires Ordered(b, lo) && v !in b.depth
    ensures Ordered(Labelled(b, v, lo + 1), lo)
  {
  }

  lemma BackedGrows(succ: Succ, src: string, limit: nat, depth: map<string, nat>, u: string, v: string)
    requires Backed(succ, src, depth, limit) && u in depth && depth[u] < limit && v in succ(u) && v !in depth
    ensures Backed(succ, src, depth[v := depth[u] + 1], limit)
  {
    WalkStep(succ, src, u, v, depth[u]);
  }

  lemma BfsLabel(succ: Succ, src: string, limit: nat, b: Bfs, u: string, d: nat, v: string)
    requires Inside(succ, src, limit, b, u, d) && v in succ(u) && v !in b.depth
    ensures Inside(succ, src, limit, Labelled(b, v, d + 1), u, d)
  {
    hide WalkOf, Waiting;
    var p := Labelled(b, v, d + 1);
    BackedGrows(succ, src, limit, b.depth, u, v);
    OrderedGrows(b, v, d);
    assert Expanded(succ, p.depth, p.done, limit);
    forall x <- p.depth | x !in p.done && x != u ensures Waiting(p.queue, x) {
      WaitingGrows(b.queue, (v, d + 1), x);
    }
  }

  lemma BfsClose(succ: Succ, src: string, limit: nat, b: Bfs, u: string, d: nat)
    requires Inside(succ, src, limit, b, u, d) && succ(u) <= b.depth.Keys
    ensures Between(succ, src, limit, Finished(b, u))
  {
    var p := Finished(b, u);
    var lo := if p.queue == [] then d else p.queue[0].1;
    assert Common(succ, src, limit, p, lo);
  }

  /** An exhausted search has labelled exactly the vertices within the limit, with their distances. */
  lemma BfsDone(succ: Succ, src: string, limit: nat, b: Bfs)
    requires Between(succ, src, limit, b) && b.queue == []
    ensures forall v :: v in b.depth <==> Within(succ, src, v, limit)
    ensures forall v, k: nat :: v in b.depth && WalkOf(succ, src, v, k) ==> b.depth[v] <= k
  {
    assert b.done == b.depth.Keys;
    LabelsAreDistances(succ, src, b.depth, limit);
  }
}
