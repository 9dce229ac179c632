/**
 The tasks the crawler sends to the scanners (internal/discovery/engine.go, dispatchTasksForAsset):
 none twice in any run, and none missing in a run that loses nothing.
 */
module CrawlDispatch {
  import opened Basics
  import opened Crawler

  /** The tasks of an asset that are out are among those handled so far. */
  ghost predicate OnlyHandled(c: Config, s: State, u: Url, handled: nat) {
    forall x <- s.dispatched :: x.0 == u ==> exists i :: 0 <= i < handled && i < |Kinds(c)| && Kinds(c)[i] == x.1
  }

  /** The tasks of one URL come in the order taint, headers, tokens, and so none comes twice. */
  ghost predicate InOrder(log: seq<(Url, TaskType)>) {
    forall i, j :: 0 <= i < j < |log| && log[i].0 == log[j].0 ==> Rank(log[i].1) < Rank(log[j].1)
  }

  ghost predicate Tidy(c: Config, s: State) {
    && InOrder(s.dispatched) && (forall x <- s.dispatched :: x.0 in s.seen && x.1 in Kinds(c))
    && (forall t <- s.threads :: s.threads[t].op.Recorded? ==>
          s.threads[t].op.asset.0 in s.seen && OnlyHandled(c, s, s.threads[t].op.asset.0, s.threads[t].op.handled))
    && (forall t <- s.threads, q <- s.threads ::
          t != q && s.threads[t].op.Recorded? && s.threads[q].op.Recorded? ==> s.threads[t].op.asset.0 != s.threads[q].op.asset.0)
  }

  /** What an asset still needs: nothing, or the tasks a goroutine has not handled yet. */
  ghost predicate Sent(c: Config, s: State, u: Url, handled: nat) {
    forall i :: 0 <= i < handled && i < |Kinds(c)| ==> (u, Kinds(c)[i]) in s.dispatched
  }

  ghost predicate InHand(c: Config, s: State, u: Url, t: Tid) {
    t in s.threads && s.threads[t].op.Recorded? && s.threads[t].op.asset.0 == u && Sent(c, s, u, s.threads[t].op.handled)
  }

  ghost predicate AllSent(c: Config, s: State) {
    forall u <- s.seen :: Sent(c, s, u, |Kinds(c)|) || exists t :: InHand(c, s, u, t)
  }

  /** Steps that neither send, nor record, nor touch an asset whose tasks are under way. */
  ghost predicate Untouched(s: State, s': State) {
    && s'.dispatched == s.dispatched && s'.seen == s.seen
    && (forall t <- s'.threads :: s'.threads[t].op.Recorded? ==> t in s.threads && s.threads[t].op == s'.threads[t].op)
  }

  lemma TidySame(c: Config, s: State, s': State)
    requires Tidy(c, s) && Untouched(s, s')
    ensures Tidy(c, s')
  {
    hide Kinds;
    forall t <- s'.threads | s'.threads[t].op.Recorded?
      ensures OnlyHandled(c, s', s'.threads[t].op.asset.0, s'.threads[t].op.handled) {
      assert OnlyHandled(c, s, s.threads[t].op.asset.0, s.threads[t].op.handled);
    }
  }

  predicate TaskStep(a: Step) {
    a.Look? || a.SendTask? || a.SkipTask?
  }

  lemma OtherStep(c: Config, s: State, a: Step)
    requires Enabled(c, s, a) && !TaskStep(a)
    ensures Untouched(s, Next(c, s, a))
  {
    hide Kinds, Assets;
  }

  lemma LookTidy(c: Config, s: State, t: Tid)
    requires Tidy(c, s) && Enabled(c, s, Look(t))
    ensures Tidy(c, DoLook(c, s, t))
  {
    hide Kinds, InOrder;
    var s' := DoLook(c, s, t);
    forall q <- s'.threads | s'.threads[q].op.Recorded?
      ensures OnlyHandled(c, s', s'.threads[q].op.asset.0, s'.threads[q].op.handled) {
      if q != t {
        assert OnlyHandled(c, s, s.threads[q].op.asset.0, s.threads[q].op.handled);
      }
    }
  }

  /** One more handled task, sent or not. */
  lemma HandledMore(c: Config, s: State, t: Tid, s': State)
    requires Tidy(c, s) && t in s.threads && s.threads[t].op.Recorded? && s.threads[t].op.handled < |Kinds(c)|
    requires s'.threads == DoSkipTask(s, t).threads && s'.seen == s.seen
    requires s'.dispatched == s.dispatched || s'.dispatched == s.dispatched + [(s.threads[t].op.asset.0, Kinds(c)[s.threads[t].op.handled])]
    ensures Tidy(c, s')
  {
    hide Kinds;
    var op := s.threads[t].op;
    var u, n, kinds := op.asset.0, op.handled, Kinds(c);
    assert OnlyHandled(c, s, u, n);
    forall i | 0 <= i < |s.dispatched| && s.dispatched[i].0 == u ensures Rank(s.dispatched[i].1) < Rank(kinds[n]) {
      assert s.dispatched[i] in s.dispatched;
    }
    forall x <- s'.dispatched ensures x in s.dispatched || x == (u, kinds[n]) {
    }
    forall q <- s'.threads | s'.threads[q].op.Recorded?
      ensures OnlyHandled(c, s', s'.threads[q].op.asset.0, s'.threads[q].op.handled) {
      assert OnlyHandled(c, s, s.threads[q].op.asset.0, s.threads[q].op.handled);
    }
  }

  lemma StepTidy(c: Config, s: State, a: Step)
    requires Tidy(c, s) && Enabled(c, s, a)
    ensures Tidy(c, Next(c, s, a))
  {
    hide Tidy, Kinds, Untouched, DoLook, DoSkipTask;
    if a.Look? {
      LookTidy(c, s, a.t);
    } else if TaskStep(a) {
      SendTidy(c, s, a);
    } else {
      OtherStep(c, s, a);
      TidySame(c, s, Next(c, s, a));
    }
  }

  lemma SendTidy(c: Config, s: State, a: Step)
    requires Tidy(c, s) && Enabled(c, s, a) && (a.SendTask? || a.SkipTask?)
    ensures Tidy(c, Next(c, s, a))
  {
    hide Tidy, Kinds, Untouched;
    if s.taskChanClosed && a.SendTask? {
      PanicTidy(c, s);
    } else {
      HandledMore(c, s, a.t, Next(c, s, a));
    }
  }

  lemma PanicTidy(c: Config, s: State)
    requires Tidy(c, s)
    ensures Tidy(c, s.(panicked := true))
  {
    TidySame(c, s, s.(panicked := true));
  }

  // --- Nothing is missing --------------------------------------------------------------------------------

  lemma SentGrows(c: Config, s: State, s': State, u: Url, handled: nat)
    requires Sent(c, s, u, handled) && forall x <- s.dispatched :: x in s'.dispatched
    ensures Sent(c, s', u, handled)
  {
    hide Kinds;
  }

  /** Goroutines other than t keep their assets in hand; what t had in hand, it still has, or all its tasks are out. */
  lemma SentMove(c: Config, s: State, s': State, t: Tid)
    requires AllSent(c, s) && (forall x <- s.dispatched :: x in s'.dispatched)
    requires forall q <- s.threads :: q != t && s.threads[q].op.Recorded? ==> q in s'.threads && s'.threads[q].op == s.threads[q].op
    requires forall u <- s.seen :: InHand(c, s, u, t) ==> InHand(c, s', u, t) || Sent(c, s', u, |Kinds(c)|)
    requires forall u <- s'.seen :: u in s.seen || InHand(c, s', u, t)
    ensures AllSent(c, s')
  {
    hide Kinds, Sent;
    forall u <- s'.seen ensures Sent(c, s', u, |Kinds(c)|) || exists q :: InHand(c, s', u, q) {
      if u in s.seen {
        if Sent(c, s, u, |Kinds(c)|) {
          SentGrows(c, s, s', u, |Kinds(c)|);
        } else {
          var q :| InHand(c, s, u, q);
          if q != t {
            SentGrows(c, s, s', u, s.threads[q].op.handled);
            assert InHand(c, s', u, q);
          }
        }
      }
    }
  }

  /** A goroutine that starts is not one that is running. */
  ghost predicate Numbered(s: State) {
    (forall w <- s.idle :: Crawl(w) !in s.threads) && forall t <- s.threads :: t.Passive? ==> t.n < s.passives
  }

  lemma StepNumbers(c: Config, s: State, a: Step)
    requires Numbered(s) && Enabled(c, s, a)
    ensures Numbered(Next(c, s, a))
  {
    hide Kinds, Assets;
  }

  lemma StepSends(c: Config, s: State, a: Step)
    requires AllSent(c, s) && Numbered(s) && Enabled(c, s, a) && !a.AbortCrawl? && !a.SkipTask?
    ensures AllSent(c, Next(c, s, a))
  {
    hide AllSent, Kinds, Numbered, Next, Enabled;
    if a.Look? || a.SendTask? || a.Store? {
      AssetSends(c, s, a);
    } else {
      OtherSends(c, s, a);
    }
  }

  lemma AssetSends(c: Config, s: State, a: Step)
    requires AllSent(c, s) && Enabled(c, s, a) && (a.Look? || a.SendTask? || a.Store?)
    ensures AllSent(c, Next(c, s, a))
  {
    hide AllSent, Kinds;
    SentMove(c, s, Next(c, s, a), a.t);
  }

  /** The goroutine of a remaining step has no asset with tasks under way. */
  function Mover(s: State, a: Step): Tid {
    match a
    case Count(t) => t
    case Enqueue(t) => t
    case Take(w) => Crawl(w)
    case Navigate(w, _) => Crawl(w)
    case EndCrawl(w) => Crawl(w)
    case PassiveResult(n, _) => Passive(n)
    case EndPassive(n) => Passive(n)
    case _ => Seed
  }

  /** Nothing in hand changes for the goroutine t. */
  lemma HandSame(c: Config, s: State, s': State, t: Tid)
    requires s'.dispatched == s.dispatched && (t in s.threads ==> s.threads[t].op.Recorded? ==> t in s'.threads && s'.threads[t].op == s.threads[t].op)
    ensures forall u :: InHand(c, s, u, t) ==> InHand(c, s', u, t)
  {
    hide Kinds;
  }

  lemma OtherSends(c: Config, s: State, a: Step)
    requires AllSent(c, s) && Numbered(s) && Enabled(c, s, a) && !a.AbortCrawl? && !TaskStep(a) && !a.Store?
    ensures AllSent(c, Next(c, s, a))
  {
    hide AllSent, Kinds, Sent, Assets;
    HandSame(c, s, Next(c, s, a), Mover(s, a));
    SentMove(c, s, Next(c, s, a), Mover(s, a));
  }

  // --- Whole runs ------------------------------------------------------------------------------------------

  /** No crawl is abandoned and no task is dropped. */
  ghost predicate Unbroken(steps: seq<Step>) {
    forall a <- steps :: !a.AbortCrawl? && !a.SkipTask?
  }

  lemma {:induction false} RunSends(c: Config, s: State, steps: seq<Step>, s': State)
    requires Runs(c, s, steps, s')
    ensures Tidy(c, s) ==> Tidy(c, s')
    ensures AllSent(c, s) && Numbered(s) && Unbroken(steps) ==> AllSent(c, s')
    decreases |steps|
  {
    hide Tidy, AllSent, Numbered, Enabled, Next;
    if steps != [] {
      if Tidy(c, s) {
        StepTidy(c, s, steps[0]);
      }
      if AllSent(c, s) && Numbered(s) && Unbroken(steps) {
        assert steps[0] in steps;
        StepNumbers(c, s, steps[0]);
        StepSends(c, s, steps[0]);
      }
      RunSends(c, Next(c, s, steps[0]), steps[1..], s');
    }
  }

  /**
   In every run each scanner gets each URL at most once, a URL's tasks go out in the order taint, headers,
   tokens, and only for discovered URLs and scanners that are switched on.
   */
  lemma DispatchedOnce(c: Config, steps: seq<Step>, s: State)
    requires Runs(c, Start(c), steps, s)
    ensures NoDup(s.dispatched) && InOrder(s.dispatched)
    ensures forall u :: (u, Taint) in s.dispatched ==> u in s.seen && c.scanners.taint
    ensures forall u :: (u, Headers) in s.dispatched ==> u in s.seen && c.scanners.headers
    ensures forall u :: (u, Jwt) in s.dispatched ==> u in s.seen && c.scanners.jwt
  {
    hide Runs, Kinds;
    assert Tidy(c, Start(c));
    RunSends(c, Start(c), steps, s);
  }

  /** Once the goroutines of an unbroken run are gone, every discovered URL has gone to exactly the scanners switched on. */
  lemma DispatchedExactly(c: Config, steps: seq<Step>, s: State)
    requires Runs(c, Start(c), steps, s) && Unbroken(steps) && s.threads == map[]
    ensures NoDup(s.dispatched) && InOrder(s.dispatched)
    ensures forall u :: (u, Taint) in s.dispatched <==> u in s.seen && c.scanners.taint
    ensures forall u :: (u, Headers) in s.dispatched <==> u in s.seen && c.scanners.headers
    ensures forall u :: (u, Jwt) in s.dispatched <==> u in s.seen && c.scanners.jwt
  {
    hide Runs, Kinds, Unbroken, InOrder;
    DispatchedOnce(c, steps, s);
    RunSends(c, Start(c), steps, s);
    forall u, k | u in s.seen && k in Kinds(c) ensures (u, k) in s.dispatched {
      assert Sent(c, s, u, |Kinds(c)|);
    }
  }
}
