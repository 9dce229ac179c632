/**
 Completeness of the crawl (internal/discovery/engine.go) in the situation where the queue
 order is the only order: one target, one worker, no passive source, no dropped task, no
 failed page. The crawl is then a breadth-first search and finds exactly the URLs within
 the depth limit, although assets at the limit are never queued.
 */
module CrawlExact {
  import opened Walks
  import opened Crawler

  predicate Single(c: Config) {
    c.workers == 1 && !c.passive && |c.targets| == 1
  }

  /** An enabled step with nothing lost: the whole page is read, no crawl is abandoned, the queue has room. */
  ghost predicate Lossless(c: Config, s: State, a: Step) {
    && Enabled(c, s, a) && !a.AbortCrawl?
    && (a.Navigate? ==> forall v <- c.links(s.threads[Crawl(a.w)].task.0) :: v in a.found)
    && (a.Enqueue? ==> |s.queue| < QUEUE_CAPACITY)
  }

  /** The asset some goroutine is processing, as a list of at most one. */
  function InHand(s: State): seq<Asset> {
    if Seed in s.threads && !s.threads[Seed].op.Idle? then [s.threads[Seed].op.asset]
    else if Crawl(0) in s.threads && !s.threads[Crawl(0)].op.Idle? then [s.threads[Crawl(0)].op.asset]
    else []
  }

  /** The search behind the crawl: assets at the limit wait forever at the end of its queue. */
  function View(s: State): Bfs {
    Bfs(s.queue + s.deferred + InHand(s), s.seen, s.finished)
  }

  ghost predicate Shape(c: Config, s: State) {
    && (forall t <- s.threads :: t == Seed || t == Crawl(0)) && s.idle <= {0}
    && (Crawl(0) in s.threads ==> 0 !in s.idle)
    && (forall i :: 0 <= i < |s.queue| ==> s.queue[i].1 < c.maxDepth)
    && (forall i :: 0 <= i < |s.deferred| ==> s.deferred[i].1 >= c.maxDepth)
    && (forall t <- s.threads :: !s.threads[t].launch && (s.threads[t].op.Counted? ==> s.threads[t].op.asset.1 < c.maxDepth))
  }

  /** Before the seed has been looked at. */
  ghost predicate Unstarted(c: Config, s: State)
    requires Single(c)
  {
    && s.seen == map[] && s.queue == [] && s.deferred == [] && s.finished == {}
    && Crawl(0) !in s.threads
    && Seed in s.threads && s.threads[Seed].op.Idle? && s.threads[Seed].todo == [(c.targets[0], 0)]
  }

  /** The seeding goroutine has nothing left to look at, and holds an asset only before any crawl. */
  ghost predicate SeedSettled(c: Config, s: State) {
    Seed in s.threads ==>
      && s.threads[Seed].todo == []
      && (!s.threads[Seed].op.Idle? ==> Crawl(0) !in s.threads && s.queue == [] && s.deferred == [])
  }

  /** The page being crawled: its unseen links are still on the list. */
  ghost predicate PageProgress(c: Config, s: State, th: Thread) {
    && (!th.navigated ==> th.todo == [] && th.op.Idle?)
    && (forall i :: 0 <= i < |th.todo| ==> th.todo[i].1 == th.task.1 + 1 && th.todo[i].0 in c.links(th.task.0))
    && (th.navigated ==> forall v <- c.links(th.task.0) :: v in s.seen || exists i :: 0 <= i < |th.todo| && th.todo[i].0 == v)
  }

  ghost predicate Searching(c: Config, s: State)
    requires Single(c)
  {
    var src, limit := c.targets[0], DepthLimit(c);
    && SeedSettled(c, s)
    && (if Crawl(0) in s.threads then
          var th := s.threads[Crawl(0)];
          PageProgress(c, s, th) && Inside(c.links, src, limit, View(s), th.task.0, th.task.1)
        else Between(c.links, src, limit, View(s)))
  }

  ghost predicate Exact(c: Config, s: State)
    requires Single(c)
  {
    Shape(c, s) && (Unstarted(c, s) || Searching(c, s))
  }

  lemma StartExact(c: Config)
    requires Single(c)
    ensures Exact(c, Start(c))
  {
    assert WorkerIds(1) == {0} by {
      assert WorkerIds(0) == {};
    }
    var todo := Assets(c.targets, 0);
    assert todo == [(c.targets[0], 0)];
  }

  // --- Steps -----------------------------------------------------------------------------------------

  /** The seed is recorded: the search starts. */
  lemma SeedLook(c: Config, s: State)
    requires Single(c) && Shape(c, s) && Unstarted(c, s) && Lossless(c, s, Look(Seed))
    ensures Shape(c, DoLook(c, s, Seed)) && Searching(c, DoLook(c, s, Seed))
  {
    var s' := DoLook(c, s, Seed);
    BfsStart(c.links, c.targets[0], DepthLimit(c));
    assert View(s') == Bfs([(c.targets[0], 0)], map[c.targets[0] := 0], {});
  }

  /** Moving on with the asset in hand does not change the search. */
  lemma SameView(c: Config, s: State, t: Tid, s': State)
    requires Single(c) && Shape(c, s) && Searching(c, s)
    requires t in s.threads && t in s'.threads && s'.threads == s.threads[t := s.threads[t].(op := s'.threads[t].op)]
    requires View(s') == View(s) && s'.seen == s.seen && (t.Seed? && !s'.threads[t].op.Idle? ==> s'.queue == [] && s'.deferred == [])
    requires !s.threads[t].op.Idle?
    ensures Searching(c, s')
  {
    hide Between, Inside, View;
  }

  /** Tasks and the record in the graph leave the asset in hand. */
  lemma StoreExact(c: Config, s: State, a: Step)
    requires Single(c) && Inv(c, s) && Shape(c, s) && Searching(c, s) && Lossless(c, s, a) && (a.Store? || a.SendTask? || a.SkipTask?)
    ensures Exact(c, Next(c, s, a))
  {
    hide Between, Inside, Kinds, Searching, Shape, Inv, View;
    OpenTaskChan(c, s, a.t);
    StoreView(c, s, a);
    SeedHolds(c, s, a.t);
    SameView(c, s, a.t, Next(c, s, a));
  }

  lemma StoreView(c: Config, s: State, a: Step)
    requires Shape(c, s) && Lossless(c, s, a) && (a.Store? || a.SendTask? || a.SkipTask?) && !s.taskChanClosed
    ensures View(Next(c, s, a)) == View(s) && Shape(c, Next(c, s, a))
  {
    hide Kinds;
  }

  lemma SeedHolds(c: Config, s: State, t: Tid)
    requires Single(c) && Searching(c, s) && t in s.threads && !s.threads[t].op.Idle?
    ensures t.Seed? ==> s.queue == [] && s.deferred == []
  {
    hide Between, Inside, PageProgress;
  }

  lemma OpenTaskChan(c: Config, s: State, t: Tid)
    requires Single(c) && Inv(c, s) && t in s.threads
    ensures !s.taskChanClosed
  {
    hide Counts, Phases;
    StillThere(c, s, t);
  }

  /** The asset in hand is the last of the search's queue, so nothing deferred is deeper. */
  lemma DeferredAtMost(c: Config, s: State, t: Tid)
    requires Single(c) && Shape(c, s) && Searching(c, s) && t in s.threads && !s.threads[t].op.Idle?
    ensures s.deferred == [] || s.deferred[0].1 <= s.threads[t].op.asset.1
  {
    hide Backed, Expanded, Waiting, PageProgress;
    var b := View(s);
    assert b.queue[|b.queue| - 1] == s.threads[t].op.asset;
    if s.deferred != [] {
      assert b.queue[|s.queue|] == s.deferred[0];
    }
  }

  /** An asset below the limit is in hand only while nothing is deferred. */
  lemma NothingDeferred(c: Config, s: State, t: Tid)
    requires Single(c) && Shape(c, s) && Searching(c, s) && t in s.threads && !s.threads[t].op.Idle?
    requires s.threads[t].op.asset.1 < c.maxDepth
    ensures s.deferred == []
  {
    hide Searching;
    DeferredAtMost(c, s, t);
  }

  lemma CountExact(c: Config, s: State, t: Tid)
    requires Single(c) && Shape(c, s) && Searching(c, s) && Lossless(c, s, Count(t))
    ensures Exact(c, DoCount(c, s, t))
  {
    hide Between, Inside, Searching, PageProgress, Shape;
    var s' := DoCount(c, s, t);
    CountView(c, s, t);
    CountShape(c, s, t);
    SameView(c, s, t, s');
  }

  lemma CountView(c: Config, s: State, t: Tid)
    requires Single(c) && Shape(c, s) && Searching(c, s) && Lossless(c, s, Count(t))
    ensures View(DoCount(c, s, t)) == View(s)
    ensures t.Seed? ==> s.queue == [] && s.deferred == []
  {
    hide Between, Inside, PageProgress;
    var s', x := DoCount(c, s, t), s.threads[t].op.asset;
    assert InHand(s) == [x];
    if x.1 < c.maxDepth {
      assert InHand(s') == [x];
    } else {
      assert InHand(s') == [];
      assert s.queue + (s.deferred + [x]) + [] == s.queue + s.deferred + [x];
    }
  }

  lemma CountShape(c: Config, s: State, t: Tid)
    requires Shape(c, s) && Lossless(c, s, Count(t))
    ensures Shape(c, DoCount(c, s, t))
  {
  }

  lemma EnqueueExact(c: Config, s: State, t: Tid)
    requires Single(c) && Shape(c, s) && Searching(c, s) && Lossless(c, s, Enqueue(t)) && !s.queueClosed
    ensures Exact(c, DoEnqueue(s, t))
  {
    hide Between, Inside, Searching, View;
    NothingDeferred(c, s, t);
    EnqueueView(c, s, t);
    EnqueueShape(c, s, t);
    SameView(c, s, t, DoEnqueue(s, t));
  }

  lemma EnqueueView(c: Config, s: State, t: Tid)
    requires Single(c) && Shape(c, s) && Searching(c, s) && Lossless(c, s, Enqueue(t)) && !s.queueClosed && s.deferred == []
    ensures View(DoEnqueue(s, t)) == View(s)
  {
    hide Between, Inside, PageProgress;
    var s' := DoEnqueue(s, t);
    assert InHand(s) == [s.threads[t].op.asset] && InHand(s') == [];
  }

  lemma EnqueueShape(c: Config, s: State, t: Tid)
    requires Shape(c, s) && Lossless(c, s, Enqueue(t)) && !s.queueClosed
    ensures Shape(c, DoEnqueue(s, t))
  {
  }

  /** A link of the page at hand: seen already, or labelled one deeper. */
  lemma LinkLook(c: Config, s: State)
    requires Single(c) && Shape(c, s) && Searching(c, s) && Lossless(c, s, Look(Crawl(0)))
    ensures Exact(c, DoLook(c, s, Crawl(0)))
  {
    hide Between, Inside;
    var t, s' := Crawl(0), DoLook(c, s, Crawl(0));
    var th, th' := s.threads[t], s'.threads[t];
    var v := th.todo[0].0;
    assert th.todo[0] == (v, th.task.1 + 1);
    ProgressLook(c, s, th, s', th');
    if v !in s.seen {
      BfsLabel(c.links, c.targets[0], DepthLimit(c), View(s), th.task.0, th.task.1, v);
      assert View(s') == Labelled(View(s), v, th.task.1 + 1);
    } else {
      assert View(s') == View(s);
    }
  }

  lemma ProgressLook(c: Config, s: State, th: Thread, s': State, th': Thread)
    requires PageProgress(c, s, th) && th.todo != [] && th'.todo == th.todo[1..] && th'.task == th.task && th'.navigated == th.navigated
    requires th.navigated && s'.seen.Keys == s.seen.Keys + {th.todo[0].0}
    ensures PageProgress(c, s', th')
  {
    forall v | v in c.links(th.task.0) ensures v in s'.seen || exists i :: 0 <= i < |th'.todo| && th'.todo[i].0 == v {
      if v !in s'.seen {
        var i :| 0 <= i < |th.todo| && th.todo[i].0 == v;
        assert th'.todo[i - 1].0 == v;
      }
    }
  }

  lemma TakeExact(c: Config, s: State, w: nat)
    requires Single(c) && Shape(c, s) && Searching(c, s) && Lossless(c, s, Take(w))
    ensures Exact(c, DoTake(s, w))
  {
    hide Between, Inside;
    var s' := DoTake(s, w);
    assert w == 0 && InHand(s) == [];
    assert View(s).queue[0] == s.queue[0];
    BfsPop(c.links, c.targets[0], DepthLimit(c), View(s));
    assert View(s') == Popped(View(s));
    assert s'.threads[Crawl(0)].task == s.queue[0];
  }

  lemma NavigateExact(c: Config, s: State, w: nat, found: seq<Url>)
    requires Single(c) && Shape(c, s) && Searching(c, s) && Lossless(c, s, Navigate(w, found))
    ensures Exact(c, DoNavigate(s, w, found))
  {
    hide Between, Inside;
    var s', t := DoNavigate(s, w, found), Crawl(0);
    var th' := s'.threads[t];
    forall v | v in c.links(th'.task.0) ensures exists i :: 0 <= i < |th'.todo| && th'.todo[i].0 == v {
      var i :| 0 <= i < |found| && found[i] == v;
      assert th'.todo[i].0 == v;
    }
    assert View(s') == View(s);
  }

  lemma EndCrawlExact(c: Config, s: State, w: nat)
    requires Single(c) && Shape(c, s) && Searching(c, s) && Lossless(c, s, EndCrawl(w))
    ensures Exact(c, DoEndCrawl(s, w, true))
  {
    hide Between, Inside;
    var s', th := DoEndCrawl(s, w, true), s.threads[Crawl(0)];
    assert c.links(th.task.0) <= s.seen.Keys;
    BfsClose(c.links, c.targets[0], DepthLimit(c), View(s), th.task.0, th.task.1);
    assert View(s') == Finished(View(s), th.task.0);
  }

  /** Steps that touch neither the goroutines nor the queue leave the search alone. */
  lemma SameSearch(c: Config, s: State, s': State)
    requires Single(c) && Exact(c, s) && s'.idle <= s.idle
    requires s'.threads == s.threads && s'.queue == s.queue && s'.deferred == s.deferred && s'.seen == s.seen && s'.finished == s.finished
    ensures Exact(c, s')
  {
    hide Between, Inside, PageProgress, SeedSettled;
    assert View(s') == View(s);
    assert SeedSettled(c, s) ==> SeedSettled(c, s') by {
      SameSeed(c, s, s');
    }
    forall th | PageProgress(c, s, th) ensures PageProgress(c, s', th) {
      SamePage(c, s, s', th);
    }
  }

  lemma SameSeed(c: Config, s: State, s': State)
    requires s'.threads == s.threads && s'.queue == s.queue && s'.deferred == s.deferred
    ensures SeedSettled(c, s) ==> SeedSettled(c, s')
  {
  }

  lemma SamePage(c: Config, s: State, s': State, th: Thread)
    requires s'.seen == s.seen && PageProgress(c, s, th)
    ensures PageProgress(c, s', th)
  {
  }

  lemma EndSeedingExact(c: Config, s: State)
    requires Single(c) && Shape(c, s) && Searching(c, s) && Lossless(c, s, EndSeeding)
    ensures Exact(c, Next(c, s, EndSeeding))
  {
    hide Between, Inside;
    assert View(Next(c, s, EndSeeding)) == View(s);
  }

  lemma OtherExact(c: Config, s: State, a: Step)
    requires Single(c) && Exact(c, s) && Lossless(c, s, a)
    requires a.ExitWorker? || a.SeedingDone? || a.CloseQueue? || a.EndSession?
    ensures Exact(c, Next(c, s, a))
  {
    hide Exact;
    SameSearch(c, s, Next(c, s, a));
  }

  /** While nothing has been looked at, only the seed can be. */
  lemma UnstartedSteps(c: Config, s: State, a: Step)
    requires Single(c) && Shape(c, s) && Unstarted(c, s) && Lossless(c, s, a)
    ensures a == Look(Seed) || a.ExitWorker? || a.SeedingDone? || a.CloseQueue? || a.EndSession?
  {
  }

  lemma SearchingSteps(c: Config, s: State, a: Step)
    requires Single(c) && Shape(c, s) && Searching(c, s) && Lossless(c, s, a)
    ensures !a.Launch? && !a.PassiveResult? && !a.EndPassive? && (a.Look? ==> a.t == Crawl(0))
  {
    hide Between, Inside;
  }

  lemma StepKeepsExact(c: Config, s: State, a: Step)
    requires Single(c) && Inv(c, s) && Exact(c, s) && Lossless(c, s, a)
    ensures Exact(c, Next(c, s, a))
  {
    hide Shape, Unstarted, Searching, DoLook, DoSendTask, DoSkipTask, DoCount, DoEnqueue, DoTake, DoNavigate, DoEndCrawl, Counts, Phases;
    if Unstarted(c, s) {
      UnstartedSteps(c, s, a);
      if a == Look(Seed) {
        SeedLook(c, s);
      } else {
        OtherExact(c, s, a);
      }
    } else {
      SearchingSteps(c, s, a);
      match a
      case Look(t) => LinkLook(c, s);
      case Store(_) => StoreExact(c, s, a);
      case SendTask(_) => StoreExact(c, s, a);
      case SkipTask(_) => StoreExact(c, s, a);
      case Count(t) => CountExact(c, s, t);
      case Enqueue(t) => StillThere(c, s, t); EnqueueExact(c, s, t);
      case Take(w) => TakeExact(c, s, w);
      case Navigate(w, found) => NavigateExact(c, s, w, found);
      case EndCrawl(w) => EndCrawlExact(c, s, w);
      case EndSeeding => EndSeedingExact(c, s);
      case _ => OtherExact(c, s, a);
    }
  }

  // --- Whole runs --------------------------------------------------------------------------------------

  ghost predicate RunsLossless(c: Config, s: State, steps: seq<Step>, s': State)
    decreases |steps|
  {
    if steps == [] then s == s' else Lossless(c, s, steps[0]) && RunsLossless(c, Next(c, s, steps[0]), steps[1..], s')
  }

  lemma {:induction false} RunKeepsExact(c: Config, s: State, steps: seq<Step>, s': State)
    requires Single(c) && Inv(c, s) && Exact(c, s) && RunsLossless(c, s, steps, s')
    ensures Inv(c, s') && Exact(c, s')
    decreases |steps|
  {
    hide Inv, Exact, Next, Enabled;
    if steps != [] {
      StepKeepsInv(c, s, steps[0]);
      StepKeepsExact(c, s, steps[0]);
      RunKeepsExact(c, Next(c, s, steps[0]), steps[1..], s');
    }
  }

  /** Nothing is left to expand once the goroutines are gone and the queue is empty. */
  lemma NothingLeft(c: Config, s: State)
    requires Single(c) && Shape(c, s) && Searching(c, s) && s.threads == map[] && s.queue == []
    ensures Backed(c.links, c.targets[0], s.seen, DepthLimit(c))
    ensures Expanded(c.links, s.seen, s.seen.Keys, DepthLimit(c))
  {
    hide IsWalk, WalkOf;
    assert View(s).queue == s.deferred;
    forall u | u in s.seen && s.seen[u] < DepthLimit(c) ensures u in s.finished {
      assert u in View(s).depth;
    }
  }

  /** When the session ends, exactly the URLs within the depth limit are known, with their distances. */
  lemma CrawlFindsExactly(c: Config, steps: seq<Step>, s: State)
    requires Single(c) && RunsLossless(c, Start(c), steps, s) && s.taskChanClosed
    ensures forall u :: u in s.seen <==> Within(c.links, c.targets[0], u, DepthLimit(c))
    ensures forall u, k: nat :: u in s.seen && WalkOf(c.links, c.targets[0], u, k) ==> s.seen[u] <= k
  {
    hide RunsLossless, Start, Shape, Searching, Counts;
    StartHolds(c);
    StartExact(c);
    RunKeepsExact(c, Start(c), steps, s);
    AllGone(c, s);
    ClosedMeansEmpty(c, s);
    assert Searching(c, s);
    NothingLeft(c, s);
    LabelsAreDistances(c.links, c.targets[0], s.seen, DepthLimit(c));
  }

  /** With a worker, the session ends only after the queue was closed, and it was closed empty. */
  lemma ClosedMeansEmpty(c: Config, s: State)
    requires Single(c) && Inv(c, s) && s.taskChanClosed
    ensures s.queueClosed && s.queue == []
  {
    hide Crawling, Counting, Passives;
  }
}
