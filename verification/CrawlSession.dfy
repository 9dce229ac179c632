/**
 The end of a crawl session (internal/discovery/engine.go) depends on the worker pool: the
 session waits for its workers, and only the workers wait for passive discovery. A
 configuration with no worker is accepted, and then the task of a passive result can reach the
 closed task channel, provided that some scanner is enabled. This file proves that the condition `Supervised` is exact.
 */
module CrawlSession {
  import opened Crawler

  /** A seeding phase without workers that is still under way, with a passive goroutine waiting from the first launch on. */
  ghost predicate Solo(c: Config, s: State) {
    && Seed in s.threads && s.workerWG == 0 && !s.queueClosed && !s.panicked && !s.taskChanClosed && s.closer.NotStarted?
    && (s.passives == 0 ==> s.threads[Seed].launch && s.threads[Seed].op.Idle? && s.threads[Seed].todo != [])
    && (s.passives > 0 ==> Passive(0) in s.threads && s.threads[Passive(0)] == Fresh([], false))
  }

  function Rank(c: Config, op: Op): nat {
    match op
    case Idle => 0
    case Counted(_) => 1
    case Stored(_) => 2
    case Recorded(_, handled) => 3 + if handled < |Kinds(c)| then |Kinds(c)| - handled else 0
  }

  /** What the seeding goroutine still has to do. */
  ghost function Work(c: Config, s: State): nat
    requires Seed in s.threads
  {
    var th := s.threads[Seed];
    8 * |th.todo| + Rank(c, th.op) + if th.launch && th.todo != [] then 1 else 0
  }

  function SeedStep(c: Config, s: State): Step
    requires Seed in s.threads
  {
    match s.threads[Seed].op
    case Idle => if s.threads[Seed].launch then Launch else Look(Seed)
    case Recorded(_, handled) => if handled < |Kinds(c)| then SendTask(Seed) else Store(Seed)
    case Stored(_) => Count(Seed)
    case Counted(_) => Enqueue(Seed)
  }

  lemma SeedAdvances(c: Config, s: State)
    requires Solo(c, s) && Work(c, s) > 0
    ensures Enabled(c, s, SeedStep(c, s))
    ensures Solo(c, Next(c, s, SeedStep(c, s))) && Work(c, Next(c, s, SeedStep(c, s))) < Work(c, s)
  {
    hide Kinds;
    if s.threads[Seed].op.Idle? {
      SeedMovesOn(c, s);
    }
  }

  lemma SeedMovesOn(c: Config, s: State)
    requires Solo(c, s) && Work(c, s) > 0 && s.threads[Seed].op.Idle?
    ensures Enabled(c, s, SeedStep(c, s))
    ensures Solo(c, Next(c, s, SeedStep(c, s))) && Work(c, Next(c, s, SeedStep(c, s))) < Work(c, s)
  {
    KindsAreFew(c);
  }

  lemma KindsAreFew(c: Config)
    ensures |Kinds(c)| <= 3
  {
  }

  lemma {:induction false} RunsOn(c: Config, s: State, steps: seq<Step>, mid: State, a: Step)
    requires Runs(c, s, steps, mid) && Enabled(c, mid, a)
    ensures Runs(c, s, steps + [a], Next(c, mid, a))
    decreases |steps|
  {
    hide Enabled, Next;
    if steps == [] {
      assert (steps + [a])[0] == a && (steps + [a])[1..] == [];
      assert Runs(c, Next(c, mid, a), [], Next(c, mid, a));
    } else {
      RunsOn(c, Next(c, s, steps[0]), steps[1..], mid, a);
      assert (steps + [a])[1..] == steps[1..] + [a];
    }
  }

  lemma {:induction false} SeedingEnds(c: Config, s0: State, steps0: seq<Step>, s: State)
    returns (steps: seq<Step>, s': State)
    requires Solo(c, s) && Runs(c, s0, steps0, s)
    ensures Runs(c, s0, steps, s') && Solo(c, s') && Work(c, s') == 0
    decreases Work(c, s)
  {
    hide Enabled, Next, Runs, SeedStep, Work;
    if Work(c, s) == 0 {
      return steps0, s;
    }
    SeedAdvances(c, s);
    RunsOn(c, s0, steps0, s, SeedStep(c, s));
    steps, s' := SeedingEnds(c, s0, steps0 + [SeedStep(c, s)], Next(c, s, SeedStep(c, s)));
  }

  lemma {:induction false} Longer(urls: set<Url>) returns (n: nat)
    ensures forall u <- urls :: |u| < n
  {
    if urls == {} {
      n := 0;
    } else {
      var u :| u in urls;
      var m := Longer(urls - {u});
      n := if m > |u| then m else |u| + 1;
      forall x <- urls ensures |x| < n {
        assert x == u || x in urls - {u};
      }
    }
  }

  lemma NewUrl(urls: set<Url>) returns (u: Url)
    ensures u !in urls
  {
    var n := Longer(urls);
    u := seq(n, _ => 'x');
    assert |u| == n;
  }

  /** After the seeding phase the session can end and leave the passive goroutine behind. */
  lemma SessionEnds(c: Config, s: State) returns (s1: State, s2: State)
    requires Solo(c, s) && Work(c, s) == 0
    ensures Enabled(c, s, EndSeeding) && s1 == Next(c, s, EndSeeding)
    ensures Enabled(c, s1, EndSession) && s2 == Next(c, s1, EndSession)
    ensures s2.taskChanClosed && !s2.panicked && Passive(0) in s2.threads && s2.threads[Passive(0)] == Fresh([], false)
  {
    s1 := Next(c, s, EndSeeding);
    s2 := Next(c, s1, EndSession);
  }

  /** Its next new result hits the closed channel. */
  lemma StrayResult(c: Config, s: State, u: Url) returns (s1: State, s2: State, s3: State)
    requires s.taskChanClosed && !s.panicked && Passive(0) in s.threads && s.threads[Passive(0)] == Fresh([], false) && u !in s.seen
    requires Kinds(c) != []
    ensures Enabled(c, s, PassiveResult(0, u)) && s1 == Next(c, s, PassiveResult(0, u))
    ensures Enabled(c, s1, Look(Passive(0))) && s2 == Next(c, s1, Look(Passive(0)))
    ensures Enabled(c, s2, SendTask(Passive(0))) && s3 == Next(c, s2, SendTask(Passive(0))) && s3.panicked
  {
    s1 := Next(c, s, PassiveResult(0, u));
    s2 := Next(c, s1, Look(Passive(0)));
    s3 := Next(c, s2, SendTask(Passive(0)));
  }

  lemma StartIsSolo(c: Config)
    requires !Supervised(c)
    ensures Solo(c, Start(c))
  {
  }

  lemma UnsupervisedPanics(c: Config) returns (steps: seq<Step>, s: State)
    requires !Supervised(c)
    ensures Runs(c, Start(c), steps, s) && s.panicked
  {
    hide Solo, Enabled, Next, Start, Work, Kinds;
    var s0 := Start(c);
    StartIsSolo(c);
    assert Runs(c, s0, [], s0);
    var a, sa := SeedingEnds(c, s0, [], s0);
    var sb, sc := SessionEnds(c, sa);
    RunsOn(c, s0, a, sa, EndSeeding);
    RunsOn(c, s0, a + [EndSeeding], sb, EndSession);
    var b := a + [EndSeeding] + [EndSession];
    var u := NewUrl(sc.seen.Keys);
    var sd, se, sf := StrayResult(c, sc, u);
    RunsOn(c, s0, b, sc, PassiveResult(0, u));
    RunsOn(c, s0, b + [PassiveResult(0, u)], sd, Look(Passive(0)));
    RunsOn(c, s0, b + [PassiveResult(0, u)] + [Look(Passive(0))], se, SendTask(Passive(0)));
    steps, s := b + [PassiveResult(0, u)] + [Look(Passive(0))] + [SendTask(Passive(0))], sf;
  }

  lemma SupervisedIff(c: Config)
    ensures Supervised(c) <==> c.workers > 0 || !c.passive || c.targets == [] || c.scanners == Scanners(false, false, false)
  {
  }

  /** No run sends on a closed channel exactly when there is a worker, no passive source, no target, or no scanner. */
  lemma SessionSafeIff(c: Config)
    ensures (forall steps, s :: Runs(c, Start(c), steps, s) ==> !s.panicked)
            <==> c.workers > 0 || !c.passive || c.targets == [] || c.scanners == Scanners(false, false, false)
  {
    hide Runs, Start, Supervised;
    SupervisedIff(c);
    if Supervised(c) {
      forall steps, s | Runs(c, Start(c), steps, s) ensures !s.panicked {
        CloseSafety(c, steps, s);
      }
    } else {
      var steps, s := UnsupervisedPanics(c);
    }
  }
}
