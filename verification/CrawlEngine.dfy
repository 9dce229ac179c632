/**
 processAsset, crawlPage and the worker of the discovery crawler (internal/discovery/engine.go) in
 the shape of the code, with arbitrary interference by the other goroutines between the atomic
 pieces. Every execution is proved to be a run of the step system of module Crawler.
 */
module CrawlEngine {
  import opened Basics
  import opened Crawler
  import CrawlSession

  /** A run that has come to the state s and continues `before`. */
  ghost predicate At(c: Config, before: seq<Step>, steps: seq<Step>, s: State) {
    Runs(c, Start(c), steps, s) && before <= steps
  }

  lemma RunsOn(c: Config, before: seq<Step>, steps: seq<Step>, s: State, a: Step)
    requires At(c, before, steps, s) && Enabled(c, s, a)
    ensures At(c, before, steps + [a], Next(c, s, a))
  {
    hide Enabled, Next, Start;
    CrawlSession.RunsOn(c, Start(c), steps, s, a);
  }

  lemma NoPanic(c: Config, before: seq<Step>, steps: seq<Step>, s: State)
    requires Supervised(c) && At(c, before, steps, s)
    ensures !s.panicked && (s.queueClosed || (s.taskChanClosed && Kinds(c) != []) ==> s.threads == map[])
  {
    hide Runs, Start;
    CloseSafety(c, steps, s);
  }

  /** The goroutine that takes a step. */
  predicate OwnStep(t: Tid, a: Step) {
    match a
    case Launch => t == Seed
    case EndSeeding => t == Seed
    case Look(x) => x == t
    case SendTask(x) => x == t
    case SkipTask(x) => x == t
    case Store(x) => x == t
    case Count(x) => x == t
    case Enqueue(x) => x == t
    case Take(w) => t == Crawl(w)
    case Navigate(w, _) => t == Crawl(w)
    case EndCrawl(w) => t == Crawl(w)
    case AbortCrawl(w) => t == Crawl(w)
    case PassiveResult(n, _) => t == Passive(n)
    case EndPassive(n) => t == Passive(n)
    case _ => false
  }

  /** A goroutine finds its own affairs untouched, and processed URLs stay processed. */
  ghost predicate Rely(t: Tid, s: State, s': State) {
    && (t in s.threads ==> t in s'.threads && s'.threads[t] == s.threads[t])
    && (forall u <- s.seen :: u in s'.seen) && (forall x <- s.dispatched :: x in s'.dispatched)
  }

  /** A new passive goroutine is nobody known before. */
  lemma LaunchIsNew(c: Config, t: Tid, s: State)
    requires Enabled(c, s, Launch) && t != Seed && Counts(c, s)
    ensures Rely(t, s, DoLaunch(s))
  {
    hide Crawling, Passives, Counting;
  }

  /** Every step of somebody else keeps what is relied on. */
  lemma RelyIsKept(c: Config, t: Tid, s: State, a: Step)
    requires Enabled(c, s, a) && !OwnStep(t, a) && Counts(c, s)
    ensures Rely(t, s, Next(c, s, a))
  {
    hide Counts, DoLaunch, Assets, Ready, Supervised;
    if a.Launch? {
      LaunchIsNew(c, t, s);
    }
  }

  class Engine {
    ghost const config: Config
    const maxDepth: int
    const scanners: Scanners
    var processedUrls: map<Url, nat>
    var discovered: seq<Url>
    var queue: seq<Asset>
    var taskWG: int
    ghost var rest: State
    ghost var steps: seq<Step>

    ghost function View(): State
      reads this
    {
      rest.(seen := processedUrls, discovered := discovered, queue := queue, taskWG := taskWG)
    }

    ghost predicate Valid(before: seq<Step>)
      reads this
    {
      && At(config, before, steps, View()) && Supervised(config)
      && config.maxDepth == maxDepth && config.scanners == scanners
    }

    constructor (ghost config: Config, maxDepth: int, scanners: Scanners)
      requires Supervised(config) && config.maxDepth == maxDepth && config.scanners == scanners
      ensures Valid([]) && View() == Start(config) && this.config == config
    {
      this.config, this.maxDepth, this.scanners := config, maxDepth, scanners;
      processedUrls, discovered, queue, taskWG := map[], [], [], 0;
      rest, steps := Start(config), [];
    }

    /** The real fields have made the step `a` from `s`; the history follows. */
    ghost method Note(before: seq<Step>, s: State, a: Step)
      requires At(config, before, steps, s) && Supervised(config) && config.maxDepth == maxDepth && config.scanners == scanners
      requires Enabled(config, s, a)
      requires processedUrls == Next(config, s, a).seen && discovered == Next(config, s, a).discovered
      requires queue == Next(config, s, a).queue && taskWG == Next(config, s, a).taskWG
      modifies this`rest, this`steps
      ensures Valid(before) && View() == Next(config, s, a)
    {
      hide At, Next, Enabled, Supervised;
      RunsOn(config, before, steps, s, a);
      rest, steps := Next(config, s, a), steps + [a];
    }

    /** Any steps of the other goroutines; goroutine t knows only that they are steps and not its own. */
    method Others(ghost before: seq<Step>, ghost t: Tid)
      requires Valid(before)
      modifies this
      ensures Valid(before) && Rely(t, old(View()), View())
    {
    }

    /**
     dispatchTasksForAsset: a task for each scanner that is switched on, sent on the open channel, or dropped when
     the time limit of a page is over; closing is for good, so a channel that is open afterwards was open throughout.
     */
    method Dispatch(ghost before: seq<Step>, ghost t: Tid, u: Url, timedOut: bool)
      requires Valid(before) && t in rest.threads && rest.threads[t].op.Recorded? && (timedOut ==> t.Crawl?)
      requires rest.threads[t].op.asset.0 == u && rest.threads[t].op.handled == 0
      modifies this
      ensures Valid(before) && (forall x <- old(processedUrls) :: x in processedUrls)
      ensures t in rest.threads && rest.threads[t] == old(rest.threads[t]).(op := Recorded(old(rest.threads[t]).op.asset, |Kinds(config)|))
      ensures scanners.taint || scanners.headers || scanners.jwt ==> !rest.taskChanClosed
      ensures !timedOut && scanners.taint ==> (u, Taint) in rest.dispatched
      ensures !timedOut && scanners.headers ==> (u, Headers) in rest.dispatched
      ensures !timedOut && scanners.jwt ==> (u, Jwt) in rest.dispatched
    {
      hide At, Supervised;
      if scanners.taint {
        DispatchOne(before, t, u, Taint, timedOut);
      }
      if scanners.headers {
        DispatchOne(before, t, u, Headers, timedOut);
      }
      if scanners.jwt {
        DispatchOne(before, t, u, Jwt, timedOut);
      }
    }

    method DispatchOne(ghost before: seq<Step>, ghost t: Tid, u: Url, kind: TaskType, timedOut: bool)
      requires Valid(before) && t in rest.threads && rest.threads[t].op.Recorded? && (timedOut ==> t.Crawl?)
      requires rest.threads[t].op.asset.0 == u && rest.threads[t].op.handled < |Kinds(config)| && Kinds(config)[rest.threads[t].op.handled] == kind
      modifies this
      ensures Valid(before) && !rest.taskChanClosed && (forall x <- old(processedUrls) :: x in processedUrls)
      ensures var op := old(rest.threads[t]).op;
              t in rest.threads && rest.threads[t] == old(rest.threads[t]).(op := Recorded(op.asset, op.handled + 1))
      ensures forall x <- old(rest.dispatched) :: x in rest.dispatched
      ensures !timedOut ==> (u, kind) in rest.dispatched
    {
      hide At, Supervised, Kinds;
      Others(before, t);
      NoPanic(config, before, steps, View());
      assert !rest.taskChanClosed;
      if timedOut {
        Note(before, View(), SkipTask(t));
      } else {
        Note(before, View(), SendTask(t));
      }
    }

    /** The atomic LoadOrStore; true when the URL had been processed before. */
    method LoadOrStore(ghost before: seq<Step>, ghost t: Tid, u: Url, depth: nat) returns (loaded: bool)
      requires Valid(before) && Ready(View(), t) && !rest.threads[t].launch
      requires rest.threads[t].todo != [] && rest.threads[t].todo[0] == (u, depth)
      modifies this
      ensures Valid(before) && u in processedUrls && (forall x <- old(processedUrls) :: x in processedUrls)
      ensures t in rest.threads && rest.threads[t] == Looked(config, t, old(rest.threads[t]), if loaded then Idle else Recorded((u, depth), 0))
    {
      hide At, Supervised;
      Others(before, t);
      NoPanic(config, before, steps, View());
      ghost var s := View();
      loaded := u in processedUrls;
      if !loaded {
        processedUrls, discovered := processedUrls[u := depth], discovered + [u];
      }
      Note(before, s, Look(t));
    }

    /** The nodes and edges of the graph. */
    method StoreAsset(ghost before: seq<Step>, ghost t: Tid)
      requires Valid(before) && t in rest.threads && rest.threads[t].op.Recorded? && rest.threads[t].op.handled == |Kinds(config)|
      modifies this
      ensures Valid(before) && (forall x <- old(processedUrls) :: x in processedUrls)
      ensures t in rest.threads && rest.threads[t] == old(rest.threads[t]).(op := Stored(old(rest.threads[t]).op.asset))
    {
      hide At, Supervised, Kinds;
      Others(before, t);
      NoPanic(config, before, steps, View());
      Note(before, View(), Store(t));
    }

    /** The depth cut-off and the non-blocking send into the queue, which is open. */
    method EnqueueTask(ghost before: seq<Step>, ghost t: Tid, u: Url, depth: nat)
      requires Valid(before) && t in rest.threads && rest.threads[t].op == Recorded((u, depth), |Kinds(config)|)
      modifies this
      ensures Valid(before) && (forall x <- old(processedUrls) :: x in processedUrls)
      ensures t in rest.threads && rest.threads[t] == old(rest.threads[t]).(op := Idle)
    {
      hide At, Supervised, Kinds;
      StoreAsset(before, t);
      Others(before, t);
      NoPanic(config, before, steps, View());
      ghost var s := View();
      if depth < maxDepth {
        taskWG := taskWG + 1;
        Note(before, s, Count(t));
        SendOrDrop(before, t, u, depth);
      } else {
        Note(before, s, Count(t));
      }
    }

    method SendOrDrop(ghost before: seq<Step>, ghost t: Tid, u: Url, depth: nat)
      requires Valid(before) && t in rest.threads && rest.threads[t].op == Counted((u, depth))
      modifies this
      ensures Valid(before) && !rest.queueClosed && (forall x <- old(processedUrls) :: x in processedUrls)
      ensures t in rest.threads && rest.threads[t] == old(rest.threads[t]).(op := Idle)
    {
      hide At, Supervised;
      Others(before, t);
      NoPanic(config, before, steps, View());
      ghost var s := View();
      assert !s.queueClosed;
      if |queue| < QUEUE_CAPACITY {
        queue := queue + [(u, depth)];
      } else {
        taskWG := taskWG - 1;
      }
      Note(before, s, Enqueue(t));
    }

    /** processAsset: the URL counts as processed, and nothing is left half done. */
    method ProcessAsset(ghost before: seq<Step>, ghost t: Tid, u: Url, depth: nat, timedOut: bool)
      requires Valid(before) && Ready(View(), t) && !rest.threads[t].launch
      requires rest.threads[t].todo != [] && rest.threads[t].todo[0] == (u, depth) && (timedOut ==> t.Crawl?)
      modifies this
      ensures Valid(before) && u in processedUrls && (forall x <- old(processedUrls) :: x in processedUrls)
      ensures t in rest.threads && rest.threads[t] == Looked(config, t, old(rest.threads[t]), Idle)
    {
      hide At, Supervised, Enabled, Next;
      var loaded := LoadOrStore(before, t, u, depth);
      if loaded {
        return;
      }
      Dispatch(before, t, u, timedOut);
      EnqueueTask(before, t, u, depth);
    }

    /** crawlPage after the links have been read: every one of them ends up processed. */
    method CrawlLinks(ghost before: seq<Step>, w: nat, found: seq<Url>, depth: nat, timedOut: bool)
      requires Valid(before) && Ready(View(), Crawl(w)) && !rest.threads[Crawl(w)].launch
      requires rest.threads[Crawl(w)].todo == Assets(found, depth)
      modifies this
      ensures Valid(before) && forall u <- found :: u in processedUrls
      ensures Crawl(w) in rest.threads && rest.threads[Crawl(w)] == old(rest.threads[Crawl(w)]).(todo := [])
    {
      hide At, Supervised, Enabled, Next;
      ghost var th := rest.threads[Crawl(w)];
      assert Assets(found, depth)[0..] == Assets(found, depth);
      for i := 0 to |found|
        invariant Valid(before) && Crawl(w) in rest.threads
        invariant rest.threads[Crawl(w)] == th.(todo := Assets(found, depth)[i..])
        invariant forall j :: 0 <= j < i ==> found[j] in processedUrls
      {
        ProcessAsset(before, Crawl(w), found[i], depth, timedOut);
      }
    }

    /** One task of a worker: taken from the queue, crawled, and counted off; `None` is a failed navigation. */
    method WorkOne(ghost before: seq<Step>, w: nat, page: Option<seq<Url>>, timedOut: bool)
      requires Valid(before) && w in rest.idle && queue != []
      requires page.Some? ==> forall u <- page.value :: u in config.links(queue[0].0)
      modifies this
      ensures Valid(before)
      ensures page.Some? ==> forall u <- page.value :: u in processedUrls
    {
      hide At, Supervised;
      NoPanic(config, before, steps, View());
      ghost var s := View();
      var task := queue[0];
      queue := queue[1..];
      Note(before, s, Take(w));
      Others(before, Crawl(w));
      NoPanic(config, before, steps, View());
      if page.None? {
        FinishTask(before, w, false);
        return;
      }
      Note(before, View(), Navigate(w, page.value));
      CrawlLinks(before, w, page.value, task.1 + 1, timedOut);
      FinishTask(before, w, true);
    }

    /** The deferred Done of the task group. */
    method FinishTask(ghost before: seq<Step>, w: nat, normal: bool)
      requires Valid(before) && Ready(View(), Crawl(w))
      requires normal ==> rest.threads[Crawl(w)].navigated && rest.threads[Crawl(w)].todo == []
      modifies this
      ensures Valid(before) && taskWG >= 0 && (forall x <- old(processedUrls) :: x in processedUrls)
    {
      hide At, Supervised;
      Others(before, Crawl(w));
      NoPanic(config, before, steps, View());
      ghost var s := View();
      taskWG := taskWG - 1;
      Note(before, s, if normal then EndCrawl(w) else AbortCrawl(w));
      TaskGroup(config, before, steps, View());
    }
  }

  /** The goroutine after it looked at the head of its list. */
  function Looked(c: Config, t: Tid, th: Thread, op: Op): Thread
    requires th.todo != []
  {
    th.(todo := th.todo[1..], launch := t.Seed? && HasPassive(c), op := op)
  }

  lemma TaskGroup(c: Config, before: seq<Step>, steps: seq<Step>, s: State)
    requires Supervised(c) && At(c, before, steps, s)
    ensures s.taskWG >= 0
  {
    hide Runs, Start;
    CloseSafety(c, steps, s);
  }
}
