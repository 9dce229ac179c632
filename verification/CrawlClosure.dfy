/**
 Completeness of the crawl (internal/discovery/engine.go) with any number of workers, targets and
 passive results: once a run that loses nothing is over, no page below the maximum depth has an
 undiscovered link. The depths need not be shortest distances then.
 */
module CrawlClosure {
  import opened Walks
  import opened Crawler
  import opened CrawlExact
  import CrawlDispatch

  /** The goroutine has the asset in hand, or is crawling it. */
  ghost predicate Holds(t: Tid, th: Thread, u: Url) {
    (!th.op.Idle? && th.op.asset.0 == u) || (t.Crawl? && th.task.0 == u)
  }

  /** Somebody will see to the links of u, or has. */
  ghost predicate Covered(s: State, u: Url) {
    u in s.finished || Waiting(s.queue, u) || exists t <- s.threads :: Holds(t, s.threads[t], u)
  }

  ghost predicate Progress(c: Config, s: State) {
    && (forall u <- s.seen :: s.seen[u] < c.maxDepth ==> Covered(s, u))
    && (forall u <- s.finished :: c.links(u) <= s.seen.Keys)
    && (forall t <- s.threads :: t.Crawl? ==> PageProgress(c, s, s.threads[t]))
    && (forall t <- s.threads :: !s.threads[t].op.Idle? ==>
          s.threads[t].op.asset.0 in s.seen && s.seen[s.threads[t].op.asset.0] == s.threads[t].op.asset.1)
  }

  /** Cover survives when one goroutine changes and what it held is covered otherwise. */
  lemma CoverMoves(s: State, s': State, t: Tid, u: Url)
    requires Covered(s, u) && s.finished <= s'.finished
    requires Waiting(s.queue, u) ==> Covered(s', u)
    requires forall q <- s.threads :: q != t ==> q in s'.threads && s'.threads[q] == s.threads[q]
    requires t in s.threads && Holds(t, s.threads[t], u) ==> Covered(s', u)
    ensures Covered(s', u)
  {
    hide Holds;
    if q :| q in s.threads && Holds(q, s.threads[q], u) {
      if q != t {
        assert Holds(q, s'.threads[q], u);
      }
    }
  }

  lemma ProgressGrows(c: Config, s: State, s': State, th: Thread)
    requires PageProgress(c, s, th) && s.seen.Keys <= s'.seen.Keys
    ensures PageProgress(c, s', th)
  {
  }

  /** The goroutine t changes, and with it at most the queue and the finished pages. */
  lemma Moved(c: Config, s: State, s': State, t: Tid)
    requires Progress(c, s) && s'.seen == s.seen && s.finished <= s'.finished
    requires forall u <- s'.finished :: u in s.finished || c.links(u) <= s.seen.Keys
    requires forall q :: q != t ==> (q in s.threads <==> q in s'.threads) && (q in s.threads ==> s'.threads[q] == s.threads[q])
    requires forall u <- s.seen | s.seen[u] < c.maxDepth :: Waiting(s.queue, u) ==> Covered(s', u)
    requires forall u <- s.seen | s.seen[u] < c.maxDepth :: t in s.threads && Holds(t, s.threads[t], u) ==> Covered(s', u)
    requires t in s'.threads && t.Crawl? ==> PageProgress(c, s', s'.threads[t])
    requires t in s'.threads && !s'.threads[t].op.Idle? ==>
               s'.threads[t].op.asset.0 in s.seen && s.seen[s'.threads[t].op.asset.0] == s'.threads[t].op.asset.1
    ensures Progress(c, s')
  {
    hide Covered, Holds, PageProgress;
    forall u <- s'.seen | s'.seen[u] < c.maxDepth ensures Covered(s', u) {
      CoverMoves(s, s', t, u);
    }
    forall q <- s'.threads | q.Crawl? ensures PageProgress(c, s', s'.threads[q]) {
      if q != t {
        ProgressGrows(c, s, s', s.threads[q]);
      }
    }
  }

  lemma StillWaiting(s: State, s': State)
    requires forall i :: 0 <= i < |s.queue| ==> s.queue[i] in s'.queue
    ensures forall u :: Waiting(s.queue, u) ==> Covered(s', u)
  {
    forall u | Waiting(s.queue, u) ensures Waiting(s'.queue, u) {
      var i :| 0 <= i < |s.queue| && s.queue[i].0 == u;
      var j :| 0 <= j < |s'.queue| && s'.queue[j] == s.queue[i];
    }
  }

  lemma HeldIsCovered(s: State, t: Tid)
    requires t in s.threads
    ensures forall u :: Holds(t, s.threads[t], u) ==> Covered(s, u)
  {
  }

  lemma ThreadProgress(c: Config, s: State, t: Tid)
    requires Progress(c, s) && t in s.threads
    ensures t.Crawl? ==> PageProgress(c, s, s.threads[t])
    ensures !s.threads[t].op.Idle? ==>
              s.threads[t].op.asset.0 in s.seen && s.seen[s.threads[t].op.asset.0] == s.threads[t].op.asset.1
  {
    hide PageProgress, Covered;
  }

  /** A step of goroutine t inside processAsset that keeps the asset in hand. */
  lemma HandProgress(c: Config, s: State, a: Step)
    requires Progress(c, s) && Lossless(c, s, a) && (a.SendTask? || a.SkipTask? || a.Store?)
    ensures Progress(c, Next(c, s, a))
  {
    hide Kinds, Covered, Progress;
    var s', t := Next(c, s, a), a.t;
    ThreadProgress(c, s, t);
    StillWaiting(s, s');
    HeldIsCovered(s', t);
    FinishedPages(c, s);
    Moved(c, s, s', t);
  }

  lemma CountProgress(c: Config, s: State, t: Tid)
    requires Progress(c, s) && Enabled(c, s, Count(t))
    ensures Progress(c, DoCount(c, s, t))
  {
    hide Covered, Progress, Holds, PageProgress;
    var s' := DoCount(c, s, t);
    ThreadProgress(c, s, t);
    StillWaiting(s, s');
    HeldIsCovered(s', t);
    FinishedPages(c, s);
    if t.Crawl? {
      ProgressOf(c, s, s.threads[t], s', s'.threads[t]);
    }
    forall u <- s.seen | s.seen[u] < c.maxDepth && Holds(t, s.threads[t], u) ensures Covered(s', u) {
      CountHolds(c, s, t, u);
    }
    Moved(c, s, s', t);
  }

  lemma ProgressOf(c: Config, s: State, th: Thread, s': State, th': Thread)
    requires PageProgress(c, s, th) && s'.seen == s.seen && !th.op.Idle?
    requires th'.todo == th.todo && th'.task == th.task && th'.navigated == th.navigated
    ensures PageProgress(c, s', th')
  {
  }

  /** An asset that is put aside is too deep to need cover. */
  lemma CountHolds(c: Config, s: State, t: Tid, u: Url)
    requires Enabled(c, s, Count(t)) && u in s.seen && s.seen[u] < c.maxDepth && Holds(t, s.threads[t], u)
    requires s.threads[t].op.asset.0 in s.seen && s.seen[s.threads[t].op.asset.0] == s.threads[t].op.asset.1
    ensures Holds(t, DoCount(c, s, t).threads[t], u)
  {
  }

  lemma EnqueueProgress(c: Config, s: State, t: Tid)
    requires Progress(c, s) && Lossless(c, s, Enqueue(t))
    ensures Progress(c, DoEnqueue(s, t))
  {
    hide Covered, Progress;
    var s' := DoEnqueue(s, t);
    ThreadProgress(c, s, t);
    StillWaiting(s, s');
    HeldIsCovered(s', t);
    FinishedPages(c, s);
    if !s.queueClosed {
      Enqueued(s, s', s.threads[t].op.asset);
    }
    Moved(c, s, s', t);
  }

  lemma Enqueued(s: State, s': State, x: Asset)
    requires s'.queue == s.queue + [x]
    ensures Covered(s', x.0)
  {
    WaitingGrows(s.queue, x, x.0);
  }

  lemma LookProgress(c: Config, s: State, t: Tid)
    requires Progress(c, s) && Enabled(c, s, Look(t))
    ensures Progress(c, DoLook(c, s, t))
  {
    hide Covered, PageProgress, Holds;
    var s', th := DoLook(c, s, t), s.threads[t];
    var u := th.todo[0].0;
    if t.Crawl? {
      LookPage(c, s, t);
    }
    LookHolds(c, s, t);
    forall v <- s'.seen | s'.seen[v] < c.maxDepth ensures Covered(s', v) {
      if v in s.seen {
        LookCovers(c, s, t, v);
      }
    }
    forall q <- s'.threads | q.Crawl? ensures PageProgress(c, s', s'.threads[q]) {
      if q != t {
        ProgressGrows(c, s, s', s.threads[q]);
      }
    }
  }

  lemma LookHolds(c: Config, s: State, t: Tid)
    requires Enabled(c, s, Look(t))
    ensures s.threads[t].todo[0].0 !in s.seen ==> Covered(DoLook(c, s, t), s.threads[t].todo[0].0)
  {
    var s' := DoLook(c, s, t);
    assert s.threads[t].todo[0].0 !in s.seen ==> Holds(t, s'.threads[t], s.threads[t].todo[0].0);
  }

  lemma LookCovers(c: Config, s: State, t: Tid, v: Url)
    requires Enabled(c, s, Look(t)) && Covered(s, v)
    ensures Covered(DoLook(c, s, t), v)
  {
    var s' := DoLook(c, s, t);
    HeldIsCovered(s', t);
    assert Holds(t, s.threads[t], v) ==> Holds(t, s'.threads[t], v);
    StillWaiting(s, s');
    CoverMoves(s, s', t, v);
  }

  lemma LookPage(c: Config, s: State, t: Tid)
    requires Progress(c, s) && Enabled(c, s, Look(t)) && t.Crawl?
    ensures PageProgress(c, DoLook(c, s, t), DoLook(c, s, t).threads[t])
  {
    hide Covered;
    var s' := DoLook(c, s, t);
    ThreadProgress(c, s, t);
    ProgressLook(c, s, s.threads[t], s', s'.threads[t]);
  }

  /** A worker takes a page: from the queue into its hands. */
  lemma TakeProgress(c: Config, s: State, w: nat)
    requires Progress(c, s) && Enabled(c, s, Take(w)) && CrawlDispatch.Numbered(s)
    ensures Progress(c, DoTake(s, w))
  {
    hide Covered;
    var s', t := DoTake(s, w), Crawl(w);
    HeldIsCovered(s', t);
    forall u | Waiting(s.queue, u) ensures Covered(s', u) {
      Taken(s, s', t, u);
    }
    Moved(c, s, s', t);
  }

  lemma Taken(s: State, s': State, t: Tid, u: Url)
    requires s.queue != [] && s'.queue == s.queue[1..] && t.Crawl? && t in s'.threads && s'.threads[t].task == s.queue[0]
    requires Waiting(s.queue, u)
    ensures Covered(s', u)
  {
    var i :| 0 <= i < |s.queue| && s.queue[i].0 == u;
    if i == 0 {
      assert Holds(t, s'.threads[t], u);
    } else {
      assert s'.queue[i - 1].0 == u;
    }
  }

  lemma NavigateProgress(c: Config, s: State, w: nat, found: seq<Url>)
    requires Progress(c, s) && Lossless(c, s, Navigate(w, found))
    ensures Progress(c, DoNavigate(s, w, found))
  {
    hide Covered, Progress;
    var s', t := DoNavigate(s, w, found), Crawl(w);
    ThreadProgress(c, s, t);
    var th' := s'.threads[t];
    forall v | v in c.links(th'.task.0) ensures exists i :: 0 <= i < |th'.todo| && th'.todo[i].0 == v {
      var i :| 0 <= i < |found| && found[i] == v;
      assert th'.todo[i].0 == v;
    }
    StillWaiting(s, s');
    HeldIsCovered(s', t);
    Moved(c, s, s', t);
  }

  /** A page that has been read to the end has all its links discovered. */
  lemma EndProgress(c: Config, s: State, w: nat)
    requires Progress(c, s) && Enabled(c, s, EndCrawl(w))
    ensures Progress(c, DoEndCrawl(s, w, true))
  {
    hide Progress;
    var s', t := DoEndCrawl(s, w, true), Crawl(w);
    ThreadProgress(c, s, t);
    assert c.links(s.threads[t].task.0) <= s.seen.Keys;
    StillWaiting(s, s');
    FinishedPages(c, s);
    Moved(c, s, s', t);
  }

  lemma FinishedPages(c: Config, s: State)
    requires Progress(c, s)
    ensures forall u <- s.finished :: c.links(u) <= s.seen.Keys
  {
    hide Covered, PageProgress;
  }

  /** Steps of a goroutine with idle hands that crawls nothing, and of nobody. */
  lemma IdleProgress(c: Config, s: State, s': State, t: Tid)
    requires Progress(c, s) && s'.seen == s.seen && s'.finished == s.finished && s'.queue == s.queue && !t.Crawl?
    requires forall q :: q != t ==> (q in s.threads <==> q in s'.threads) && (q in s.threads ==> s'.threads[q] == s.threads[q])
    requires t in s.threads ==> s.threads[t].op.Idle?
    requires t in s'.threads ==> s'.threads[t].op.Idle?
    ensures Progress(c, s')
  {
    hide Progress, Covered;
    FinishedPages(c, s);
    StillWaiting(s, s');
    Moved(c, s, s', t);
  }

  lemma LaunchProgress(c: Config, s: State)
    requires Progress(c, s) && Enabled(c, s, Launch) && CrawlDispatch.Numbered(s)
    ensures Progress(c, DoLaunch(s))
  {
    hide Progress;
    var mid := With(s, Seed, s.threads[Seed].(launch := false));
    IdleProgress(c, s, mid, Seed);
    IdleProgress(c, mid, DoLaunch(s), Passive(s.passives));
  }

  /** The ends of the seeding and passive goroutines, passive results, exits and closings. */
  lemma OtherProgress(c: Config, s: State, a: Step)
    requires Progress(c, s) && Enabled(c, s, a)
    requires a.PassiveResult? || a.EndPassive? || a.EndSeeding?
    ensures Progress(c, Next(c, s, a))
  {
    hide Progress;
    IdleProgress(c, s, Next(c, s, a), if a.EndSeeding? then Seed else Passive(a.n));
  }

  /** Steps that touch neither goroutines, nor the queue, nor what is known. */
  lemma SameProgress(c: Config, s: State, s': State)
    requires Progress(c, s) && s'.seen == s.seen && s'.finished == s.finished && s'.queue == s.queue && s'.threads == s.threads
    ensures Progress(c, s')
  {
    hide Holds;
    forall u <- s.seen | s.seen[u] < c.maxDepth ensures Covered(s', u) {
      assert Covered(s, u);
    }
    forall t <- s.threads | t.Crawl? ensures PageProgress(c, s', s.threads[t]) {
      ProgressGrows(c, s, s', s.threads[t]);
    }
  }

  lemma StepProgress(c: Config, s: State, a: Step)
    requires Progress(c, s) && CrawlDispatch.Numbered(s) && Lossless(c, s, a)
    ensures Progress(c, Next(c, s, a))
  {
    hide Progress, Kinds, DoLook, DoSendTask, DoSkipTask, DoCount, DoEnqueue, DoTake, DoNavigate, DoEndCrawl, DoLaunch, DoPassiveResult;
    match a
    case Launch => LaunchProgress(c, s);
    case Look(t) => LookProgress(c, s, t);
    case SendTask(_) => HandProgress(c, s, a);
    case SkipTask(_) => HandProgress(c, s, a);
    case Store(_) => HandProgress(c, s, a);
    case Count(t) => CountProgress(c, s, t);
    case Enqueue(t) => EnqueueProgress(c, s, t);
    case Take(w) => TakeProgress(c, s, w);
    case Navigate(w, found) => NavigateProgress(c, s, w, found);
    case EndCrawl(w) => EndProgress(c, s, w);
    case PassiveResult(_, _) => OtherProgress(c, s, a);
    case EndPassive(_) => OtherProgress(c, s, a);
    case EndSeeding => OtherProgress(c, s, a);
    case AbortCrawl(_) =>
    case _ => SameProgress(c, s, Next(c, s, a));
  }

  /** A target or passive result is discovered or still on somebody's list. */
  ghost predicate Rooted(s: State) {
    forall o <- s.origins :: o in s.seen || exists t <- s.threads :: Waiting(s.threads[t].todo, o)
  }

  /** What was on the list of the goroutine that moves is discovered or still on it. */
  lemma RootsMove(s: State, s': State, t: Tid)
    requires Rooted(s) && s.seen.Keys <= s'.seen.Keys
    requires forall q <- s.threads :: q != t ==> q in s'.threads && s'.threads[q].todo == s.threads[q].todo
    requires forall o :: t in s.threads && Waiting(s.threads[t].todo, o) ==> o in s'.seen || (t in s'.threads && Waiting(s'.threads[t].todo, o))
    requires forall o <- s'.origins :: o in s.origins || (t in s'.threads && Waiting(s'.threads[t].todo, o))
    ensures Rooted(s')
  {
    hide Waiting;
    forall o <- s'.origins | o !in s'.seen ensures exists q <- s'.threads :: Waiting(s'.threads[q].todo, o) {
      if o in s.origins {
        var q :| q in s.threads && Waiting(s.threads[q].todo, o);
        assert q in s'.threads && Waiting(s'.threads[q].todo, o);
      }
    }
  }

  lemma LookRooted(c: Config, s: State, t: Tid)
    requires Rooted(s) && Enabled(c, s, Look(t))
    ensures Rooted(DoLook(c, s, t))
  {
    hide Rooted;
    var s', th := DoLook(c, s, t), s.threads[t];
    forall o | Waiting(th.todo, o) ensures o in s'.seen || Waiting(s'.threads[t].todo, o) {
      var i :| 0 <= i < |th.todo| && th.todo[i].0 == o;
      assert i > 0 ==> s'.threads[t].todo[i - 1].0 == o;
    }
    RootsMove(s, s', t);
  }

  lemma ResultRooted(c: Config, s: State, n: nat, u: Url)
    requires Rooted(s) && Enabled(c, s, PassiveResult(n, u))
    ensures Rooted(DoPassiveResult(s, n, u))
  {
    hide Rooted;
    var s' := DoPassiveResult(s, n, u);
    assert s'.threads[Passive(n)].todo[0].0 == u;
    RootsMove(s, s', Passive(n));
  }

  lemma NavigateRooted(c: Config, s: State, w: nat, found: seq<Url>)
    requires Rooted(s) && Progress(c, s) && Enabled(c, s, Navigate(w, found))
    ensures Rooted(DoNavigate(s, w, found))
  {
    hide Rooted, Progress;
    ThreadProgress(c, s, Crawl(w));
    RootsMove(s, DoNavigate(s, w, found), Crawl(w));
  }

  /** Steps inside processAsset after the look touch nobody's list. */
  lemma AssetRooted(c: Config, s: State, a: Step)
    requires Rooted(s) && Enabled(c, s, a) && (a.SendTask? || a.SkipTask? || a.Store? || a.Count? || a.Enqueue?)
    ensures Rooted(Next(c, s, a))
  {
    hide Rooted, Kinds, Waiting;
    RootsMove(s, Next(c, s, a), a.t);
  }

  /** The goroutines of the remaining steps come and go with empty lists, or none changes. */
  lemma OtherRooted(c: Config, s: State, a: Step)
    requires Rooted(s) && CrawlDispatch.Numbered(s) && Enabled(c, s, a)
    requires a.Launch? || a.Take? || a.EndCrawl? || a.ExitWorker? || a.EndPassive? || a.EndSeeding? || a.SeedingDone? || a.CloseQueue? || a.EndSession?
    ensures Rooted(Next(c, s, a))
  {
    hide Rooted;
    RootsMove(s, Next(c, s, a), CrawlDispatch.Mover(s, a));
  }

  lemma StepRooted(c: Config, s: State, a: Step)
    requires Rooted(s) && Progress(c, s) && CrawlDispatch.Numbered(s) && Lossless(c, s, a)
    ensures Rooted(Next(c, s, a))
  {
    hide Rooted, Progress, Kinds, DoLook, DoNavigate, DoPassiveResult;
    match a
    case Look(t) => LookRooted(c, s, t);
    case SendTask(_) => AssetRooted(c, s, a);
    case SkipTask(_) => AssetRooted(c, s, a);
    case Store(_) => AssetRooted(c, s, a);
    case Count(_) => AssetRooted(c, s, a);
    case Enqueue(_) => AssetRooted(c, s, a);
    case PassiveResult(n, u) => ResultRooted(c, s, n, u);
    case Navigate(w, found) => NavigateRooted(c, s, w, found);
    case AbortCrawl(_) =>
    case _ => OtherRooted(c, s, a);
  }

  // --- Whole runs ----------------------------------------------------------------------------------------------

  lemma {:induction false} RunProgress(c: Config, s: State, steps: seq<Step>, s': State)
    requires RunsLossless(c, s, steps, s') && Inv(c, s) && Progress(c, s) && Rooted(s) && CrawlDispatch.Numbered(s)
    ensures Inv(c, s') && Progress(c, s') && Rooted(s')
    decreases |steps|
  {
    hide Inv, Progress, Rooted, CrawlDispatch.Numbered, Next, Enabled;
    if steps != [] {
      StepKeepsInv(c, s, steps[0]);
      StepProgress(c, s, steps[0]);
      StepRooted(c, s, steps[0]);
      CrawlDispatch.StepNumbers(c, s, steps[0]);
      RunProgress(c, Next(c, s, steps[0]), steps[1..], s');
    }
  }

  lemma StartProgress(c: Config)
    ensures Progress(c, Start(c)) && Rooted(Start(c)) && CrawlDispatch.Numbered(Start(c))
  {
    var s := Start(c);
    forall o <- s.origins ensures Waiting(s.threads[Seed].todo, o) {
      var i :| 0 <= i < |c.targets| && c.targets[i] == o;
      assert s.threads[Seed].todo[i].0 == o;
    }
  }

  /** With nobody left and nothing queued, what was to be done is done. */
  lemma AtTheEnd(c: Config, s: State)
    requires Progress(c, s) && Rooted(s) && s.threads == map[] && s.queue == []
    ensures forall u <- s.seen :: s.seen[u] < c.maxDepth ==> c.links(u) <= s.seen.Keys
    ensures forall o <- s.origins :: o in s.seen
  {
    forall u <- s.seen | s.seen[u] < c.maxDepth ensures c.links(u) <= s.seen.Keys {
      assert Covered(s, u);
    }
  }

  /**
   Any number of workers, targets and passive results: when the queue is closed after a run that loses nothing,
   every target and passive result is discovered, and so is every link of every page below the maximum depth.
   */
  lemma CrawlIsClosed(c: Config, steps: seq<Step>, s: State)
    requires RunsLossless(c, Start(c), steps, s) && s.queueClosed
    ensures forall u <- s.seen :: s.seen[u] < c.maxDepth ==> c.links(u) <= s.seen.Keys
    ensures forall o :: IsOrigin(c, steps, o) ==> o in s.seen
  {
    hide RunsLossless, Progress, Rooted, CrawlDispatch.Numbered, Start, Counts, Phases;
    StartHolds(c);
    StartProgress(c);
    RunProgress(c, Start(c), steps, s);
    AllGone(c, s);
    QueueIsEmpty(c, s);
    AtTheEnd(c, s);
    LosslessRuns(c, Start(c), steps, s);
    RunOrigins(c, Start(c), steps, s);
    StartOrigins(c);
  }

  lemma StartOrigins(c: Config)
    ensures forall u :: u in Start(c).origins <==> u in c.targets
  {
  }

  lemma {:induction false} LosslessRuns(c: Config, s: State, steps: seq<Step>, s': State)
    requires RunsLossless(c, s, steps, s')
    ensures Runs(c, s, steps, s')
    decreases |steps|
  {
    hide Enabled, Next;
    if steps != [] {
      LosslessRuns(c, Next(c, s, steps[0]), steps[1..], s');
    }
  }

  lemma QueueIsEmpty(c: Config, s: State)
    requires Counts(c, s) && Phases(c, s) && s.queueClosed
    ensures s.queue == []
  {
    hide Crawling, Counting, Passives;
  }
}
