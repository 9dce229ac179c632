/**
 The discovery crawler (internal/discovery/engine.go) as an interleaved step system for runs
 that are not cancelled: the seeding goroutine, passive-discovery goroutines, workers, the
 goroutine that closes the queue and the end of the session. The helpers of one goroutine
 that only talk to the graph or the log are folded into the neighbouring step.
 */
module Crawler {
  import opened Basics
  import opened Walks

  type Url = string
  type Asset = (Url, nat)

  const QUEUE_CAPACITY := 5000

  datatype TaskType = Taint | Headers | Jwt

  /** The scanners that get a task for every asset. */
  datatype Scanners = Scanners(taint: bool, headers: bool, jwt: bool)

  /** `targets` are those that pass validation; `links` gives the links of a page after the same treatment. */
  datatype Config = Config(workers: nat, maxDepth: int, passive: bool, scanners: Scanners, targets: seq<Url>, links: Succ)

  /** Taint analysis first, then headers, then tokens. */
  function Rank(k: TaskType): nat {
    match k case Taint => 1 case Headers => 2 case Jwt => 3
  }

  /** The tasks of one asset, in the order they are sent. */
  function Kinds(c: Config): (r: seq<TaskType>)
    ensures |r| <= 3 && NoDup(r)
    ensures (Taint in r <==> c.scanners.taint) && (Headers in r <==> c.scanners.headers) && (Jwt in r <==> c.scanners.jwt)
    ensures forall i, j :: 0 <= i < j < |r| ==> Rank(r[i]) < Rank(r[j])
    ensures r == [] <==> !c.scanners.taint && !c.scanners.headers && !c.scanners.jwt
  {
    (if c.scanners.taint then [Taint] else []) + (if c.scanners.headers then [Headers] else []) + (if c.scanners.jwt then [Jwt] else [])
  }

  /** Passive discovery is launched once per target. */
  predicate HasPassive(c: Config) {
    c.passive && c.targets != []
  }

  /** Progress of processAsset: recorded with so many of its tasks handled, stored in the graph, counted in the task group. */
  datatype Op = Idle | Recorded(asset: Asset, handled: nat) | Stored(asset: Asset) | Counted(asset: Asset)

  /** A goroutine that may call processAsset; for a worker `task` is the page being crawled. */
  datatype Thread = Thread(todo: seq<Asset>, op: Op, launch: bool, task: Asset, navigated: bool)

  datatype Tid = Seed | Passive(n: nat) | Crawl(w: nat)

  datatype Closer = NotStarted | WaitSeeding | WaitTasks | Closed

  /**
   `seen` holds the processed URLs with the depth reported for them; `origins` are the targets and the
   passive results so far; `idle` are workers waiting at the queue. `dispatched`, `deferred` and `finished`
   are history: tasks sent, assets too deep to be queued, and pages whose crawl ended normally.
   */
  datatype State = State(seen: map<Url, nat>, discovered: seq<Url>, origins: set<Url>, queue: seq<Asset>, queueClosed: bool,
                         taskWG: int, seedingWG: int, workerWG: int, threads: map<Tid, Thread>, idle: set<nat>, passives: nat,
                         closer: Closer, taskChanClosed: bool, panicked: bool,
                         dispatched: seq<(Url, TaskType)>, deferred: seq<Asset>, finished: set<Url>)

  const NO_TASK: Asset := ("", 0)

  function Fresh(todo: seq<Asset>, launch: bool): Thread {
    Thread(todo, Idle, launch, NO_TASK, false)
  }

  function Assets(urls: seq<Url>, depth: nat): (r: seq<Asset>)
    ensures |r| == |urls| && forall i :: 0 <= i < |r| ==> r[i] == (urls[i], depth)
  {
    if urls == [] then [] else [(urls[0], depth)] + Assets(urls[1..], depth)
  }

  function WorkerIds(n: nat): set<nat> {
    if n == 0 then {} else WorkerIds(n - 1) + {n - 1}
  }

  ghost function Start(c: Config): State {
    State(map[], [], (set t | t in c.targets), [], false, 0, 0, c.workers, map[Seed := Fresh(Assets(c.targets, 0), HasPassive(c))],
          WorkerIds(c.workers), 0, NotStarted, false, false, [], [], {})
  }

  // --- Steps -------------------------------------------------------------------------------------

  datatype Step =
    | Launch | Look(t: Tid) | SendTask(t: Tid) | SkipTask(t: Tid) | Store(t: Tid) | Count(t: Tid) | Enqueue(t: Tid)
    | Take(w: nat) | Navigate(w: nat, found: seq<Url>) | EndCrawl(w: nat) | AbortCrawl(w: nat) | ExitWorker(w: nat)
    | PassiveResult(n: nat, u: Url) | EndPassive(n: nat)
    | EndSeeding | SeedingDone | CloseQueue | EndSession

  function With(s: State, t: Tid, th: Thread): State {
    s.(threads := s.threads[t := th])
  }

  /** Start passive discovery for the target at hand. */
  function DoLaunch(s: State): State
    requires Seed in s.threads
  {
    With(s, Seed, s.threads[Seed].(launch := false))
    .(seedingWG := s.seedingWG + 1, passives := s.passives + 1,
      threads := s.threads[Seed := s.threads[Seed].(launch := false)][Passive(s.passives) := Fresh([], false)])
  }

  /** The atomic LoadOrStore on the processed URLs. */
  function DoLook(c: Config, s: State, t: Tid): State
    requires t in s.threads && s.threads[t].todo != []
  {
    var th := s.threads[t];
    var (u, d) := th.todo[0];
    var rest := th.(todo := th.todo[1..], launch := t.Seed? && HasPassive(c));
    if u in s.seen then With(s, t, rest)
    else With(s, t, rest.(op := Recorded((u, d), 0))).(seen := s.seen[u := d], discovered := s.discovered + [u])
  }

  /** The send of the next task of the asset in hand; on a closed channel it panics. */
  function DoSendTask(c: Config, s: State, t: Tid): State
    requires t in s.threads && s.threads[t].op.Recorded? && s.threads[t].op.handled < |Kinds(c)|
  {
    var th := s.threads[t];
    if s.taskChanClosed then s.(panicked := true)
    else DoSkipTask(s, t).(dispatched := s.dispatched + [(th.op.asset.0, Kinds(c)[th.op.handled])])
  }

  /** The time limit of a page is over: the task is not sent. */
  function DoSkipTask(s: State, t: Tid): State
    requires t in s.threads && s.threads[t].op.Recorded?
  {
    var th := s.threads[t];
    With(s, t, th.(op := Recorded(th.op.asset, th.op.handled + 1)))
  }

  /** The depth cut-off, and the count of the task that is about to be queued. */
  function DoCount(c: Config, s: State, t: Tid): State
    requires t in s.threads && s.threads[t].op.Stored?
  {
    var th := s.threads[t];
    if th.op.asset.1 < c.maxDepth then With(s, t, th.(op := Counted(th.op.asset))).(taskWG := s.taskWG + 1)
    else With(s, t, th.(op := Idle)).(deferred := s.deferred + [th.op.asset])
  }

  /** The non-blocking send: queued, or dropped when the queue is full. */
  function DoEnqueue(s: State, t: Tid): State
    requires t in s.threads && s.threads[t].op.Counted?
  {
    var th := s.threads[t];
    if s.queueClosed then s.(panicked := true)
    else if |s.queue| < QUEUE_CAPACITY then With(s, t, th.(op := Idle)).(queue := s.queue + [th.op.asset])
    else With(s, t, th.(op := Idle)).(taskWG := s.taskWG - 1)
  }

  function DoTake(s: State, w: nat): State
    requires s.queue != []
  {
    With(s, Crawl(w), Thread([], Idle, false, s.queue[0], false)).(queue := s.queue[1..], idle := s.idle - {w})
  }

  function DoNavigate(s: State, w: nat, found: seq<Url>): State
    requires Crawl(w) in s.threads
  {
    var th := s.threads[Crawl(w)];
    With(s, Crawl(w), th.(navigated := true, todo := Assets(found, th.task.1 + 1)))
  }

  /** The deferred Done; normal ends are remembered. */
  function DoEndCrawl(s: State, w: nat, normal: bool): State
    requires Crawl(w) in s.threads
  {
    s.(threads := s.threads - {Crawl(w)}, idle := s.idle + {w}, taskWG := s.taskWG - 1,
       finished := if normal then s.finished + {s.threads[Crawl(w)].task.0} else s.finished)
  }

  function DoPassiveResult(s: State, n: nat, u: Url): State
    requires Passive(n) in s.threads
  {
    With(s, Passive(n), s.threads[Passive(n)].(todo := [(u, 0)])).(origins := s.origins + {u})
  }

  predicate Ready(s: State, t: Tid) {
    t in s.threads && s.threads[t].op.Idle?
  }

  ghost predicate Enabled(c: Config, s: State, a: Step) {
    !s.panicked &&
    match a
    case Launch => Ready(s, Seed) && s.threads[Seed].launch && s.threads[Seed].todo != []
    case Look(t) => Ready(s, t) && s.threads[t].todo != [] && !s.threads[t].launch
    case SendTask(t) => t in s.threads && s.threads[t].op.Recorded? && s.threads[t].op.handled < |Kinds(c)|
    case SkipTask(t) => t in s.threads && t.Crawl? && s.threads[t].op.Recorded? && s.threads[t].op.handled < |Kinds(c)|
    case Store(t) => t in s.threads && s.threads[t].op.Recorded? && s.threads[t].op.handled >= |Kinds(c)|
    case Count(t) => t in s.threads && s.threads[t].op.Stored?
    case Enqueue(t) => t in s.threads && s.threads[t].op.Counted?
    case Take(w) => w in s.idle && s.queue != []
    case Navigate(w, found) => Ready(s, Crawl(w)) && !s.threads[Crawl(w)].navigated
                               && forall u <- found :: u in c.links(s.threads[Crawl(w)].task.0)
    case EndCrawl(w) => Ready(s, Crawl(w)) && s.threads[Crawl(w)].navigated && s.threads[Crawl(w)].todo == []
    case AbortCrawl(w) => Crawl(w) in s.threads && !s.threads[Crawl(w)].op.Counted?
    case ExitWorker(w) => w in s.idle && s.queueClosed && s.queue == []
    case PassiveResult(n, u) => Ready(s, Passive(n)) && s.threads[Passive(n)].todo == []
    case EndPassive(n) => Ready(s, Passive(n)) && s.threads[Passive(n)].todo == []
    case EndSeeding => Ready(s, Seed) && s.threads[Seed].todo == []
    case SeedingDone => s.closer == WaitSeeding && s.seedingWG == 0
    case CloseQueue => s.closer == WaitTasks && s.taskWG == 0
    case EndSession => Seed !in s.threads && s.workerWG == 0 && !s.taskChanClosed
  }

  ghost function Next(c: Config, s: State, a: Step): State
    requires Enabled(c, s, a)
  {
    match a
    case Launch => DoLaunch(s)
    case Look(t) => DoLook(c, s, t)
    case SendTask(t) => DoSendTask(c, s, t)
    case SkipTask(t) => DoSkipTask(s, t)
    case Store(t) => With(s, t, s.threads[t].(op := Stored(s.threads[t].op.asset)))
    case Count(t) => DoCount(c, s, t)
    case Enqueue(t) => DoEnqueue(s, t)
    case Take(w) => DoTake(s, w)
    case Navigate(w, found) => DoNavigate(s, w, found)
    case EndCrawl(w) => DoEndCrawl(s, w, true)
    case AbortCrawl(w) => DoEndCrawl(s, w, false)
    case ExitWorker(w) => s.(idle := s.idle - {w}, workerWG := s.workerWG - 1)
    case PassiveResult(n, u) => DoPassiveResult(s, n, u)
    case EndPassive(n) => s.(threads := s.threads - {Passive(n)}, seedingWG := s.seedingWG - 1)
    case EndSeeding => s.(threads := s.threads - {Seed}, closer := WaitSeeding)
    case SeedingDone => s.(closer := WaitTasks)
    case CloseQueue => if s.queueClosed then s.(panicked := true) else s.(queueClosed := true, closer := Closed)
    case EndSession => s.(taskChanClosed := true)
  }

  // --- Counters and closing ------------------------------------------------------------------------

  ghost function Crawling(threads: map<Tid, Thread>): set<Tid> {
    set t | t in threads && t.Crawl?
  }

  ghost function Passives(threads: map<Tid, Thread>): set<Tid> {
    set t | t in threads && t.Passive?
  }

  ghost function Counting(threads: map<Tid, Thread>): set<Tid> {
    set t | t in threads && threads[t].op.Counted?
  }

  /** The three wait groups count what they are meant to count. */
  ghost predicate Counts(c: Config, s: State) {
    && s.taskWG == |s.queue| + |Crawling(s.threads)| + |Counting(s.threads)|
    && s.seedingWG == |Passives(s.threads)|
    && s.workerWG == |s.idle| + |Crawling(s.threads)|
    && (forall w <- s.idle :: Crawl(w) !in s.threads)
    && (forall t <- s.threads :: t.Passive? ==> t.n < s.passives && HasPassive(c))
    && (forall t <- s.threads :: s.threads[t].launch ==> HasPassive(c))
  }

  /** Who is gone by the time each channel is closed. */
  ghost predicate Phases(c: Config, s: State) {
    && (!s.closer.NotStarted? ==> Seed !in s.threads)
    && (s.closer.WaitTasks? || s.closer.Closed? ==> s.seedingWG == 0)
    && (s.queueClosed <==> s.closer.Closed?)
    && (s.closer.Closed? ==> s.taskWG == 0)
    && (s.workerWG == c.workers || s.queueClosed)
    && (s.taskChanClosed ==> Seed !in s.threads && s.workerWG == 0)
  }

  /** With no worker at all the session ends without waiting for passive discovery. */
  predicate Waits(c: Config) {
    c.workers > 0 || !HasPassive(c)
  }

  /** Nobody is left behind, or there is nothing to send. */
  predicate Supervised(c: Config) {
    Waits(c) || Kinds(c) == []
  }

  ghost predicate Replaces(threads: map<Tid, Thread>, threads': map<Tid, Thread>, t: Tid) {
    threads - {t} == threads' - {t}
  }

  /** Changing one goroutine changes the three sets by that goroutine only. */
  lemma Replaced(threads: map<Tid, Thread>, threads': map<Tid, Thread>, t: Tid)
    requires Replaces(threads, threads', t)
    ensures |Crawling(threads')| == |Crawling(threads)| + One(t in threads' && t.Crawl?) - One(t in threads && t.Crawl?)
    ensures |Passives(threads')| == |Passives(threads)| + One(t in threads' && t.Passive?) - One(t in threads && t.Passive?)
    ensures |Counting(threads')| ==
            |Counting(threads)| + One(t in threads' && threads'[t].op.Counted?) - One(t in threads && threads[t].op.Counted?)
    ensures forall x :: x != t ==> (x in threads <==> x in threads') && (x in threads ==> threads[x] == threads'[x])
  {
    forall x | x != t ensures (x in threads <==> x in threads') && (x in threads ==> threads[x] == threads'[x]) {
      assert x in threads - {t} <==> x in threads;
      assert x in threads' - {t} <==> x in threads';
    }
    assert Crawling(threads) - {t} == Crawling(threads') - {t};
    assert Passives(threads) - {t} == Passives(threads') - {t};
    assert Counting(threads) - {t} == Counting(threads') - {t};
    SizeByMember(Crawling(threads'), Crawling(threads), t);
    SizeByMember(Passives(threads'), Passives(threads), t);
    SizeByMember(Counting(threads'), Counting(threads), t);
  }

  lemma Present(s: State, t: Tid)
    requires t in s.threads
    ensures t.Crawl? ==> |Crawling(s.threads)| > 0
    ensures t.Passive? ==> |Passives(s.threads)| > 0
    ensures s.threads[t].op.Counted? ==> |Counting(s.threads)| > 0
  {
    assert t.Crawl? ==> t in Crawling(s.threads);
    assert t.Passive? ==> t in Passives(s.threads);
    assert s.threads[t].op.Counted? ==> t in Counting(s.threads);
  }

  ghost predicate Inv(c: Config, s: State) {
    Counts(c, s) && Phases(c, s) && (Supervised(c) ==> !s.panicked)
  }

  lemma {:induction false} WorkerIdsSize(n: nat)
    ensures |WorkerIds(n)| == n && forall w <- WorkerIds(n) :: w < n
  {
    if n > 0 {
      WorkerIdsSize(n - 1);
    }
  }

  lemma StartHolds(c: Config)
    ensures Inv(c, Start(c))
  {
    WorkerIdsSize(c.workers);
    var threads := Start(c).threads;
    assert Crawling(threads) == {} && Passives(threads) == {} && Counting(threads) == {};
  }

  /** The counters follow when one goroutine changes and each counter moves by the right amount. */
  lemma CountsFollow(c: Config, s: State, s': State, t: Tid)
    requires Counts(c, s) && Replaces(s.threads, s'.threads, t)
    requires s'.taskWG - |s'.queue| - One(t in s'.threads && t.Crawl?) - One(t in s'.threads && s'.threads[t].op.Counted?)
             == s.taskWG - |s.queue| - One(t in s.threads && t.Crawl?) - One(t in s.threads && s.threads[t].op.Counted?)
    requires s'.seedingWG - One(t in s'.threads && t.Passive?) == s.seedingWG - One(t in s.threads && t.Passive?)
    requires s'.workerWG - |s'.idle| - One(t in s'.threads && t.Crawl?) == s.workerWG - |s.idle| - One(t in s.threads && t.Crawl?)
    requires forall w <- s'.idle :: if Crawl(w) == t then t !in s'.threads else w in s.idle
    requires s.passives <= s'.passives && (t in s'.threads && t.Passive? ==> t.n < s'.passives && HasPassive(c))
    requires t in s'.threads && s'.threads[t].launch ==> HasPassive(c)
    ensures Counts(c, s')
  {
    hide Replaces, Crawling, Passives, Counting;
    Replaced(s.threads, s'.threads, t);
  }

  /** What the closing order rules out for a goroutine that is still there. */
  lemma StillThere(c: Config, s: State, t: Tid)
    requires Counts(c, s) && Phases(c, s) && t in s.threads
    ensures t.Passive? ==> s.seedingWG > 0 && !s.queueClosed
    ensures t.Crawl? ==> s.taskWG > 0 && s.workerWG > 0 && !s.queueClosed
    ensures s.threads[t].op.Counted? ==> s.taskWG > 0 && !s.queueClosed
    ensures Waits(c) ==> !s.taskChanClosed
  {
    hide Crawling, Passives, Counting;
    Present(s, t);
  }

  lemma UpdateReplaces(threads: map<Tid, Thread>, t: Tid, th: Thread)
    ensures Replaces(threads, threads[t := th], t)
    ensures Replaces(threads, threads - {t}, t)
  {
    assert threads - {t} == threads[t := th] - {t};
  }

  /** Looking an asset up and storing it. */
  lemma LookStepKeeps(c: Config, s: State, a: Step)
    requires Inv(c, s) && Enabled(c, s, a) && (a.Look? || a.Store?)
    ensures Inv(c, Next(c, s, a))
  {
    hide Crawling, Passives, Counting, Counts, Replaces, Kinds, HasPassive;
    var s' := Next(c, s, a);
    StillThere(c, s, a.t);
    UpdateReplaces(s.threads, a.t, s'.threads[a.t]);
    LaunchNeedsPassive(c, s, a.t);
    IdleIsIdle(c, s, a.t);
    CountsFollow(c, s, s', a.t);
  }

  lemma CountStepKeeps(c: Config, s: State, t: Tid)
    requires Inv(c, s) && Enabled(c, s, Count(t))
    ensures Inv(c, DoCount(c, s, t))
  {
    hide Crawling, Passives, Counting, Counts, Replaces, HasPassive;
    var s' := DoCount(c, s, t);
    StillThere(c, s, t);
    UpdateReplaces(s.threads, t, s'.threads[t]);
    LaunchNeedsPassive(c, s, t);
    IdleIsIdle(c, s, t);
    CountsFollow(c, s, s', t);
  }

  /** Queueing a task, on a queue that is open. */
  lemma EnqueueStepKeeps(c: Config, s: State, t: Tid)
    requires Inv(c, s) && Enabled(c, s, Enqueue(t))
    ensures Inv(c, DoEnqueue(s, t))
  {
    hide Crawling, Passives, Counting, Counts, Replaces, HasPassive;
    var s' := DoEnqueue(s, t);
    StillThere(c, s, t);
    UpdateReplaces(s.threads, t, s'.threads[t]);
    LaunchNeedsPassive(c, s, t);
    IdleIsIdle(c, s, t);
    CountsFollow(c, s, s', t);
  }

  /** The sends of an asset's tasks; only an unsupervised configuration can find the channel closed. */
  lemma TaskStepKeeps(c: Config, s: State, a: Step)
    requires Inv(c, s) && Enabled(c, s, a) && (a.SendTask? || a.SkipTask?)
    ensures Inv(c, Next(c, s, a))
  {
    hide Crawling, Passives, Counting, Counts, Replaces, Kinds, HasPassive;
    var s' := Next(c, s, a);
    StillThere(c, s, a.t);
    if s'.panicked {
      PanicCounts(c, s);
    } else {
      UpdateReplaces(s.threads, a.t, s'.threads[a.t]);
      LaunchNeedsPassive(c, s, a.t);
      IdleIsIdle(c, s, a.t);
      CountsFollow(c, s, s', a.t);
    }
  }

  lemma PanicCounts(c: Config, s: State)
    requires Counts(c, s)
    ensures Counts(c, s.(panicked := true))
  {
    hide Crawling, Passives, Counting;
  }

  lemma LaunchNeedsPassive(c: Config, s: State, t: Tid)
    requires Counts(c, s) && t in s.threads
    ensures s.threads[t].launch ==> HasPassive(c)
    ensures t.Passive? ==> t.n < s.passives && HasPassive(c)
  {
  }

  lemma IdleIsIdle(c: Config, s: State, t: Tid)
    requires Counts(c, s) && t in s.threads
    ensures forall w <- s.idle :: Crawl(w) != t
  {
  }

  /** Steps of a worker around the crawl of one page. */
  lemma WorkerStepKeeps(c: Config, s: State, a: Step)
    requires Inv(c, s) && Enabled(c, s, a)
    requires a.Take? || a.Navigate? || a.EndCrawl? || a.AbortCrawl?
    ensures Inv(c, Next(c, s, a))
  {
    hide Crawling, Passives, Counting, Counts, Replaces;
    var s' := Next(c, s, a);
    var t := Crawl(a.w);
    UpdateReplaces(s.threads, t, if t in s'.threads then s'.threads[t] else s.threads[t]);
    if a.Take? {
      TakerIsNew(c, s, a.w);
    } else {
      StillThere(c, s, t);
      IdleIsIdle(c, s, t);
      LaunchNeedsPassive(c, s, t);
    }
    CountsFollow(c, s, s', t);
  }

  lemma TakerIsNew(c: Config, s: State, w: nat)
    requires Counts(c, s) && Phases(c, s) && w in s.idle
    ensures Crawl(w) !in s.threads && (s.queue != [] ==> !s.queueClosed)
  {
  }

  lemma ExitKeeps(c: Config, s: State, w: nat)
    requires Inv(c, s) && w in s.idle && s.queueClosed
    ensures Inv(c, s.(idle := s.idle - {w}, workerWG := s.workerWG - 1))
  {
    hide Crawling, Passives, Counting;
  }

  lemma PassiveStepKeeps(c: Config, s: State, a: Step)
    requires Inv(c, s) && Enabled(c, s, a) && (a.PassiveResult? || a.EndPassive?)
    ensures Inv(c, Next(c, s, a))
  {
    hide Crawling, Passives, Counting, Counts, Replaces;
    var s' := Next(c, s, a);
    var t := Passive(a.n);
    UpdateReplaces(s.threads, t, if t in s'.threads then s'.threads[t] else s.threads[t]);
    StillThere(c, s, t);
    IdleIsIdle(c, s, t);
    LaunchNeedsPassive(c, s, t);
    CountsFollow(c, s, s', t);
  }

  lemma LaunchKeeps(c: Config, s: State)
    requires Inv(c, s) && Enabled(c, s, Launch)
    ensures Inv(c, DoLaunch(s))
  {
    hide Crawling, Passives, Counting, Counts, Replaces;
    var mid := With(s, Seed, s.threads[Seed].(launch := false));
    LaunchNeedsPassive(c, s, Seed);
    UpdateReplaces(s.threads, Seed, mid.threads[Seed]);
    IdleIsIdle(c, s, Seed);
    CountsFollow(c, s, mid, Seed);
    var t, s' := Passive(s.passives), DoLaunch(s);
    UpdateReplaces(mid.threads, t, s'.threads[t]);
    NewPassive(c, mid);
    CountsFollow(c, mid, s', t);
  }

  lemma NewPassive(c: Config, s: State)
    requires Counts(c, s)
    ensures Passive(s.passives) !in s.threads
  {
  }

  lemma SeedEndKeeps(c: Config, s: State)
    requires Inv(c, s) && Enabled(c, s, EndSeeding)
    ensures Inv(c, Next(c, s, EndSeeding))
  {
    hide Crawling, Passives, Counting, Counts, Replaces;
    UpdateReplaces(s.threads, Seed, s.threads[Seed]);
    IdleIsIdle(c, s, Seed);
    CountsFollow(c, s, Next(c, s, EndSeeding), Seed);
  }

  lemma ClosingKeeps(c: Config, s: State, a: Step)
    requires Inv(c, s) && Enabled(c, s, a) && (a.SeedingDone? || a.CloseQueue? || a.EndSession?)
    ensures Inv(c, Next(c, s, a))
  {
    hide Crawling, Passives, Counting;
  }

  lemma StepKeepsInv(c: Config, s: State, a: Step)
    requires Inv(c, s) && Enabled(c, s, a)
    ensures Inv(c, Next(c, s, a))
  {
    hide Inv, DoLaunch, DoLook, DoSendTask, DoSkipTask, DoCount, DoEnqueue, DoTake, DoNavigate, DoEndCrawl, DoPassiveResult, Supervised;
    match a
    case Launch => LaunchKeeps(c, s);
    case Look(_) => LookStepKeeps(c, s, a);
    case SendTask(_) => TaskStepKeeps(c, s, a);
    case SkipTask(_) => TaskStepKeeps(c, s, a);
    case Store(_) => LookStepKeeps(c, s, a);
    case Count(t) => CountStepKeeps(c, s, t);
    case Enqueue(t) => EnqueueStepKeeps(c, s, t);
    case Take(_) => WorkerStepKeeps(c, s, a);
    case Navigate(_, _) => WorkerStepKeeps(c, s, a);
    case EndCrawl(_) => WorkerStepKeeps(c, s, a);
    case AbortCrawl(_) => WorkerStepKeeps(c, s, a);
    case ExitWorker(w) => ExitKeeps(c, s, w);
    case PassiveResult(_, _) => PassiveStepKeeps(c, s, a);
    case EndPassive(_) => PassiveStepKeeps(c, s, a);
    case EndSeeding => SeedEndKeeps(c, s);
    case _ => ClosingKeeps(c, s, a);
  }

  // --- What is discovered --------------------------------------------------------------------------

  function DepthLimit(c: Config): nat {
    if c.maxDepth < 0 then 0 else c.maxDepth
  }

  /** The asset is at the end of a walk of its depth from a target or a passive result. */
  ghost predicate Grounded(c: Config, origins: set<Url>, x: Asset) {
    x.1 <= DepthLimit(c) && exists o <- origins :: WalkOf(c.links, o, x.0, x.1)
  }

  ghost predicate ThreadSound(c: Config, origins: set<Url>, t: Tid, th: Thread) {
    && (forall i :: 0 <= i < |th.todo| ==> Grounded(c, origins, th.todo[i]))
    && (!th.op.Idle? ==> Grounded(c, origins, th.op.asset))
    && (th.op.Counted? ==> th.op.asset.1 < c.maxDepth)
    && (t.Crawl? ==> Grounded(c, origins, th.task) && th.task.1 < c.maxDepth)
  }

  ghost predicate Sound(c: Config, s: State) {
    && (forall u <- s.seen :: Grounded(c, s.origins, (u, s.seen[u])))
    && (forall i :: 0 <= i < |s.queue| ==> Grounded(c, s.origins, s.queue[i]) && s.queue[i].1 < c.maxDepth)
    && (forall t <- s.threads :: ThreadSound(c, s.origins, t, s.threads[t]))
    && NoDup(s.discovered) && (forall u :: u in s.discovered <==> u in s.seen)
  }

  lemma GroundedGrows(c: Config, a: set<Url>, b: set<Url>, x: Asset)
    requires a <= b && Grounded(c, a, x)
    ensures Grounded(c, b, x)
  {
    var o :| o in a && WalkOf(c.links, o, x.0, x.1);
    assert o in b;
  }

  lemma OriginGrounded(c: Config, origins: set<Url>, u: Url)
    requires u in origins
    ensures Grounded(c, origins, (u, 0))
  {
    WalkZero(c.links, u);
  }

  lemma LinkGrounded(c: Config, origins: set<Url>, x: Asset, v: Url)
    requires Grounded(c, origins, x) && x.1 < c.maxDepth && v in c.links(x.0)
    ensures Grounded(c, origins, (v, x.1 + 1))
  {
    var o :| o in origins && WalkOf(c.links, o, x.0, x.1);
    WalkStep(c.links, o, x.0, v, x.1);
  }

  lemma StartSound(c: Config)
    ensures Sound(c, Start(c))
  {
    hide Grounded;
    var s := Start(c);
    forall i | 0 <= i < |c.targets| ensures Grounded(c, s.origins, (c.targets[i], 0)) {
      OriginGrounded(c, s.origins, c.targets[i]);
    }
  }

  /** Steps that move one goroutine and keep origins and the log of discoveries. */
  lemma SoundMove(c: Config, s: State, s': State, t: Tid)
    requires Sound(c, s) && s'.origins == s.origins && s'.seen == s.seen && s'.discovered == s.discovered
    requires Replaces(s.threads, s'.threads, t)
    requires t in s'.threads ==> ThreadSound(c, s.origins, t, s'.threads[t])
    requires forall i :: 0 <= i < |s'.queue| ==> Grounded(c, s.origins, s'.queue[i]) && s'.queue[i].1 < c.maxDepth
    ensures Sound(c, s')
  {
    hide Grounded, ThreadSound, Replaces, NoDup, Crawling, Passives, Counting;
    Replaced(s.threads, s'.threads, t);
  }

  /** The sound state of a goroutine after it looked at the head of its list. */
  lemma LookedSound(c: Config, origins: set<Url>, t: Tid, th: Thread, launch: bool)
    requires ThreadSound(c, origins, t, th) && th.todo != [] && th.op.Idle?
    ensures Grounded(c, origins, th.todo[0])
    ensures ThreadSound(c, origins, t, th.(todo := th.todo[1..], launch := launch))
    ensures ThreadSound(c, origins, t, th.(todo := th.todo[1..], launch := launch, op := Recorded(th.todo[0], 0)))
  {
    hide Grounded;
  }

  lemma DiscoveredMore(c: Config, s: State, t: Tid)
    requires Sound(c, s) && Enabled(c, s, Look(t))
    ensures var s' := DoLook(c, s, t); NoDup(s'.discovered) && forall u :: u in s'.discovered <==> u in s'.seen
  {
    hide Grounded, ThreadSound, HasPassive;
  }

  lemma LookSound(c: Config, s: State, t: Tid)
    requires Sound(c, s) && Enabled(c, s, Look(t))
    ensures Sound(c, DoLook(c, s, t))
  {
    hide Grounded, ThreadSound, HasPassive, NoDup;
    var s', th := DoLook(c, s, t), s.threads[t];
    assert ThreadSound(c, s.origins, t, th);
    LookedSound(c, s.origins, t, th, t.Seed? && HasPassive(c));
    assert (th.todo[0].0, th.todo[0].1) == th.todo[0];
    DiscoveredMore(c, s, t);
  }

  lemma OpSound(c: Config, origins: set<Url>, t: Tid, th: Thread, op: Op)
    requires ThreadSound(c, origins, t, th)
    requires op.Idle? || (!th.op.Idle? && op.asset == th.op.asset && (op.Counted? ==> th.op.Counted? || op.asset.1 < c.maxDepth))
    ensures ThreadSound(c, origins, t, th.(op := op))
    ensures th.op.Counted? ==> Grounded(c, origins, th.op.asset) && th.op.asset.1 < c.maxDepth
  {
    hide Grounded;
  }

  lemma TaskSound(c: Config, s: State, a: Step)
    requires Sound(c, s) && Enabled(c, s, a) && (a.SendTask? || a.SkipTask? || a.Store?)
    ensures Sound(c, Next(c, s, a))
  {
    hide Sound, Kinds;
    var s' := Next(c, s, a);
    if s'.panicked {
      PanicSound(c, s);
    } else {
      ProcessSound(c, s, s', a.t);
    }
  }

  lemma PanicSound(c: Config, s: State)
    requires Sound(c, s)
    ensures Sound(c, s.(panicked := true))
  {
    hide Grounded, NoDup, ThreadSound;
  }

  lemma CountSound(c: Config, s: State, t: Tid)
    requires Sound(c, s) && Enabled(c, s, Count(t))
    ensures Sound(c, DoCount(c, s, t))
  {
    hide Sound;
    ProcessSound(c, s, DoCount(c, s, t), t);
  }

  lemma EnqueueSound(c: Config, s: State, t: Tid)
    requires Sound(c, s) && Enabled(c, s, Enqueue(t))
    ensures Sound(c, DoEnqueue(s, t))
  {
    hide Sound;
    var s' := DoEnqueue(s, t);
    if s'.panicked {
      PanicSound(c, s);
    } else {
      ProcessSound(c, s, s', t);
    }
  }

  /** On with the same asset, or done with it; only a shallow one is counted. */
  predicate MovesOn(c: Config, op: Op, op': Op) {
    op'.Idle? || (!op.Idle? && op'.asset == op.asset && (op'.Counted? ==> op.Counted? || op'.asset.1 < c.maxDepth))
  }

  /** The goroutine moves on with the asset in hand. */
  lemma ProcessSound(c: Config, s: State, s': State, t: Tid)
    requires Sound(c, s) && t in s.threads && t in s'.threads && s'.threads == s.threads[t := s.threads[t].(op := s'.threads[t].op)]
    requires s'.origins == s.origins && s'.seen == s.seen && s'.discovered == s.discovered
    requires MovesOn(c, s.threads[t].op, s'.threads[t].op)
    requires forall i :: 0 <= i < |s'.queue| ==> s'.queue[i] in s.queue || (s.threads[t].op.Counted? && s'.queue[i] == s.threads[t].op.asset)
    ensures Sound(c, s')
  {
    hide Grounded, NoDup, Replaces, ThreadSound;
    var th, th' := s.threads[t], s'.threads[t];
    UpdateReplaces(s.threads, t, th');
    assert ThreadSound(c, s.origins, t, th);
    OpSound(c, s.origins, t, th, th'.op);
    SoundMove(c, s, s', t);
  }

  lemma WorkerSound(c: Config, s: State, a: Step)
    requires Sound(c, s) && Enabled(c, s, a) && (a.Take? || a.EndCrawl? || a.AbortCrawl?)
    ensures Sound(c, Next(c, s, a))
  {
    hide Grounded, NoDup, Replaces;
    var s' := Next(c, s, a);
    var t := Crawl(a.w);
    UpdateReplaces(s.threads, t, if t in s'.threads then s'.threads[t] else s.threads[t]);
    assert a.Take? ==> forall i :: 0 <= i < |s'.queue| ==> s'.queue[i] == s.queue[i + 1];
    SoundMove(c, s, s', t);
  }

  lemma NavigateSound(c: Config, s: State, w: nat, found: seq<Url>)
    requires Sound(c, s) && Enabled(c, s, Navigate(w, found))
    ensures Sound(c, DoNavigate(s, w, found))
  {
    hide Grounded, NoDup, Replaces;
    var s', t := DoNavigate(s, w, found), Crawl(w);
    assert ThreadSound(c, s.origins, t, s.threads[t]);
    forall i | 0 <= i < |found| ensures Grounded(c, s.origins, s'.threads[t].todo[i]) {
      LinkGrounded(c, s.origins, s.threads[t].task, found[i]);
    }
    UpdateReplaces(s.threads, t, s'.threads[t]);
    SoundMove(c, s, s', t);
  }

  lemma MoreOrigins(c: Config, s: State, u: Url)
    requires Sound(c, s)
    ensures Sound(c, s.(origins := s.origins + {u}))
  {
    hide NoDup;
    var more := s.origins + {u};
    forall x | Grounded(c, s.origins, x) ensures Grounded(c, more, x) {
      GroundedGrows(c, s.origins, more, x);
    }
    forall t <- s.threads ensures ThreadSound(c, more, t, s.threads[t]) {
      assert ThreadSound(c, s.origins, t, s.threads[t]);
    }
  }

  lemma PassiveSound(c: Config, s: State, n: nat, u: Url)
    requires Sound(c, s) && Enabled(c, s, PassiveResult(n, u))
    ensures Sound(c, DoPassiveResult(s, n, u))
  {
    hide Grounded, NoDup, Replaces;
    var mid, s' := s.(origins := s.origins + {u}), DoPassiveResult(s, n, u);
    MoreOrigins(c, s, u);
    OriginGrounded(c, mid.origins, u);
    UpdateReplaces(mid.threads, Passive(n), s'.threads[Passive(n)]);
    SoundMove(c, mid, s', Passive(n));
  }

  lemma StepKeepsSound(c: Config, s: State, a: Step)
    requires Sound(c, s) && Enabled(c, s, a)
    ensures Sound(c, Next(c, s, a))
  {
    hide Grounded, NoDup, DoLook, DoSendTask, DoSkipTask, DoCount, DoEnqueue, DoTake, DoNavigate, DoEndCrawl, DoPassiveResult;
    match a
    case Look(t) => LookSound(c, s, t);
    case SendTask(_) => TaskSound(c, s, a);
    case SkipTask(_) => TaskSound(c, s, a);
    case Store(_) => TaskSound(c, s, a);
    case Count(t) => CountSound(c, s, t);
    case Enqueue(t) => EnqueueSound(c, s, t);
    case Take(_) => WorkerSound(c, s, a);
    case EndCrawl(_) => WorkerSound(c, s, a);
    case AbortCrawl(_) => WorkerSound(c, s, a);
    case Navigate(w, found) => NavigateSound(c, s, w, found);
    case PassiveResult(n, u) => PassiveSound(c, s, n, u);
    case _ =>
  }

  // --- Whole runs ------------------------------------------------------------------------------------

  /** The steps, each enabled when it is taken, lead from s to s'. */
  ghost predicate Runs(c: Config, s: State, steps: seq<Step>, s': State)
    decreases |steps|
  {
    if steps == [] then s == s' else Enabled(c, s, steps[0]) && Runs(c, Next(c, s, steps[0]), steps[1..], s')
  }

  lemma {:induction false} RunKeeps(c: Config, s: State, steps: seq<Step>, s': State)
    requires Runs(c, s, steps, s')
    ensures Sound(c, s) ==> Sound(c, s')
    ensures Inv(c, s) ==> Inv(c, s')
    decreases |steps|
  {
    hide Inv, Sound, Enabled, Next, Supervised;
    if steps != [] {
      if Sound(c, s) {
        StepKeepsSound(c, s, steps[0]);
      }
      if Inv(c, s) {
        StepKeepsInv(c, s, steps[0]);
      }
      RunKeeps(c, Next(c, s, steps[0]), steps[1..], s');
    }
  }

  /**
   Every uncancelled crawl: the task group counts queued tasks, crawls in flight and enqueues being
   resolved; the queue is closed once, empty and with no goroutine left that could send. With a worker or
   without a passive source the task channel is closed only after every goroutine is gone; then, and also
   when no scanner is enabled, no send hits a closed channel.
   */
  lemma CloseSafety(c: Config, steps: seq<Step>, s: State)
    requires Runs(c, Start(c), steps, s)
    ensures Supervised(c) ==> !s.panicked
    ensures s.taskWG == |s.queue| + |Crawling(s.threads)| + |Counting(s.threads)| && s.taskWG >= 0
    ensures s.queueClosed ==> s.queue == [] && s.threads == map[]
    ensures s.taskChanClosed && Waits(c) ==> s.threads == map[]
  {
    hide Runs, Waits, Start, Crawling, Passives, Counting;
    StartHolds(c);
    RunKeeps(c, Start(c), steps, s);
    AllGone(c, s);
  }

  lemma AllGone(c: Config, s: State)
    requires Counts(c, s) && Phases(c, s)
    ensures s.queueClosed || (s.taskChanClosed && Waits(c)) ==> s.threads == map[]
  {
    hide Counts, Phases;
    if s.queueClosed || (s.taskChanClosed && Waits(c)) {
      forall t ensures t !in s.threads {
        if t in s.threads {
          StillThere(c, s, t);
          SeedGone(c, s);
        }
      }
      assert s.threads.Keys == {};
    }
  }

  lemma SeedGone(c: Config, s: State)
    requires Phases(c, s)
    ensures s.queueClosed || s.taskChanClosed ==> Seed !in s.threads
  {
  }

  /** The targets, and what passive discovery reported. */
  ghost predicate IsOrigin(c: Config, steps: seq<Step>, u: Url) {
    u in c.targets || exists a <- steps :: a.PassiveResult? && a.u == u
  }

  lemma StepOrigins(c: Config, s: State, a: Step)
    requires Enabled(c, s, a)
    ensures Next(c, s, a).origins == s.origins + if a.PassiveResult? then {a.u} else {}
  {
    hide Kinds;
  }

  lemma {:induction false} RunOrigins(c: Config, s: State, steps: seq<Step>, s': State)
    requires Runs(c, s, steps, s')
    ensures forall u :: u in s'.origins <==> u in s.origins || exists a <- steps :: a.PassiveResult? && a.u == u
    decreases |steps|
  {
    hide Enabled, Next;
    if steps != [] {
      StepOrigins(c, s, steps[0]);
      RunOrigins(c, Next(c, s, steps[0]), steps[1..], s');
      assert forall a :: a in steps <==> a == steps[0] || a in steps[1..];
    }
  }

  /** Passive discovery has been launched for the targets already looked at, and for the one at hand if its flag is down. */
  ghost predicate Launched(c: Config, s: State) {
    && (!HasPassive(c) ==> s.passives == 0 && (Seed in s.threads ==> !s.threads[Seed].launch))
    && (HasPassive(c) && Seed in s.threads ==>
          var th := s.threads[Seed];
          |th.todo| <= |c.targets| && s.passives == |c.targets| - |th.todo| + One(th.todo != [] && !th.launch))
    && (HasPassive(c) && Seed !in s.threads ==> s.passives == |c.targets|)
  }

  lemma StepLaunches(c: Config, s: State, a: Step)
    requires Launched(c, s) && Enabled(c, s, a)
    ensures Launched(c, Next(c, s, a))
  {
    hide HasPassive, Kinds, Assets;
  }

  lemma {:induction false} RunLaunches(c: Config, s: State, steps: seq<Step>, s': State)
    requires Runs(c, s, steps, s') && Launched(c, s)
    ensures Launched(c, s')
    decreases |steps|
  {
    hide Enabled, Next, Launched;
    if steps != [] {
      StepLaunches(c, s, steps[0]);
      RunLaunches(c, Next(c, s, steps[0]), steps[1..], s');
    }
  }

  /** In every run, once seeding is over passive discovery has been launched once per target if it is enabled, and never otherwise. */
  lemma PassivePerTarget(c: Config, steps: seq<Step>, s: State)
    requires Runs(c, Start(c), steps, s) && Seed !in s.threads
    ensures s.passives == if c.passive then |c.targets| else 0
  {
    hide Runs;
    RunLaunches(c, Start(c), steps, s);
  }

  /** Each URL is discovered once, by a link walk of the reported depth, and only shallow pages are crawled. */
  lemma DiscoveryIsGrounded(c: Config, steps: seq<Step>, s: State)
    requires Runs(c, Start(c), steps, s)
    ensures NoDup(s.discovered) && forall u :: u in s.discovered <==> u in s.seen
    ensures forall u <- s.seen :: s.seen[u] <= DepthLimit(c) && exists o :: IsOrigin(c, steps, o) && WalkOf(c.links, o, u, s.seen[u])
    ensures forall t <- s.threads :: t.Crawl? ==> s.threads[t].task.1 < c.maxDepth
  {
    hide Runs, NoDup;
    StartSound(c);
    RunKeeps(c, Start(c), steps, s);
    RunOrigins(c, Start(c), steps, s);
    forall u <- s.seen ensures s.seen[u] <= DepthLimit(c) && exists o :: IsOrigin(c, steps, o) && WalkOf(c.links, o, u, s.seen[u]) {
      assert Grounded(c, s.origins, (u, s.seen[u]));
      var o :| o in s.origins && WalkOf(c.links, o, u, s.seen[u]);
      assert IsOrigin(c, steps, o);
    }
    forall t <- s.threads | t.Crawl? ensures s.threads[t].task.1 < c.maxDepth {
      assert ThreadSound(c, s.origins, t, s.threads[t]);
    }
  }
}
