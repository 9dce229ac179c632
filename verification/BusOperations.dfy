/**
 Post and Shutdown of the cognitive bus (internal/agent/cognitive_bus.go) in the shape of the
 code, with arbitrary interference by other goroutines between the atomic pieces. Every
 execution is proved to be a run of the step system of module CognitiveBus, and its laws are
 restated as the contracts a caller of the two methods gets.
 */
module BusOperations {
  import opened Basics
  import opened Subscribers
  import opened CognitiveBus
  import opened BusAudience

  /** The ready case a select takes. */
  datatype Pick = Deliver | ContextDone | ShuttingDown

  /** What Post returns: nil, or one of its three errors. */
  datatype Returns = Nil | IsShutDown | ContextError | IsShuttingDown

  datatype Run = Run(states: seq<Bus>, steps: seq<Step>)

  /** A run of a bus that has come to the state s. */
  ghost predicate At(size: int, r: Run, s: Bus) {
    IsRun(size, r.states, r.steps) && r.states[|r.steps|] == s
  }

  ghost predicate Extends(before: Run, r: Run) {
    before.steps <= r.steps && before.states <= r.states
  }

  lemma RunsOn(size: int, before: Run, r: Run, s: Bus, a: Step)
    requires At(size, r, s) && Extends(before, r) && Enabled(s, a)
    ensures At(size, Run(r.states + [Next(s, a)], r.steps + [a]), Next(s, a))
    ensures Extends(before, Run(r.states + [Next(s, a)], r.steps + [a]))
  {
    hide Enabled, Next, NewBus;
  }

  lemma AtIsSafe(size: int, r: Run, s: Bus)
    requires At(size, r, s)
    ensures Inv(s) && !s.panicked
  {
    hide Enabled, Next;
    RunKeepsInv(size, r.states, r.steps, |r.steps|);
    Safety(size, r.states, r.steps, |r.steps|);
  }

  /** A post that is under way was counted and its channels are open: nothing it does can hit a closed one. */
  lemma TargetIsOpen(s: Bus, p: PostId)
    requires Inv(s) && Sends(s, p) && s.posts[p].todo != []
    ensures s.posts[p].todo[0] in s.buffers && s.posts[p].todo[0] !in s.closed
  {
    hide Counts, PendingIsBuffered, Selecting;
    ActiveMeansOpen(s, p);
    assert PostDelivers(s, p, s.posts[p]);
  }

  predicate OwnStep(p: PostId, a: Step) {
    match a
    case Enter(q, _) => q == p
    case Snapshot(q, _) => q == p
    case Begin(q) => q == p
    case Send(q) => q == p
    case GiveUp(q, _) => q == p
    case Finish(q) => q == p
    case Leave(q) => q == p
    case _ => false
  }

  /** A Post call finds its own affairs untouched, and raised flags stay. */
  ghost predicate Rely(p: PostId, s: Bus, s': Bus) {
    && (p in s.posts <==> p in s'.posts) && (p in s.posts ==> s'.posts[p] == s.posts[p])
    && (s.isShutdown ==> s'.isShutdown) && (s.signalled ==> s'.signalled) && s'.capacity == s.capacity
  }

  predicate ShutdownStep(a: Step) {
    a.SetFlag? || a.Signal? || a.DrainPosts? || a.CloseChannels? || a.DrainMessages?
  }

  lemma PostsKeep(p: PostId, s: Bus, a: Step)
    requires Enabled(s, a) && PostStep(a)
    ensures !OwnStep(p, a) ==> Rely(p, s, Next(s, a))
    ensures Next(s, a).shutdown == s.shutdown
  {
    hide Listening, NoDup, DoEnter, DoSnapshot, DoBegin, DoSend, DoGiveUp, DoFinish, DoLeave;
  }

  lemma OthersKeep(p: PostId, s: Bus, a: Step)
    requires Enabled(s, a) && !PostStep(a)
    ensures Rely(p, s, Next(s, a)) && (!ShutdownStep(a) ==> Next(s, a).shutdown == s.shutdown)
  {
    hide AllChans, Listening, NoDup, DoReceive, DoAcknowledge, Only;
  }

  /** Every step of somebody else keeps what a Post call relies on, and what the shutdown body relies on. */
  lemma RelyIsKept(p: PostId, s: Bus, a: Step)
    requires Enabled(s, a)
    ensures !OwnStep(p, a) ==> Rely(p, s, Next(s, a))
    ensures !ShutdownStep(a) ==> Next(s, a).shutdown == s.shutdown
  {
    hide Enabled, Next, Rely;
    if PostStep(a) {
      PostsKeep(p, s, a);
    } else {
      OthersKeep(p, s, a);
    }
  }

  class MessageBus {
    const size: int
    const capacity: nat
    var subscribers: Table
    var buffers: map<Chan, seq<PostId>>
    var closed: set<Chan>
    var activePosts: int
    var processing: int
    var isShutdown: bool
    var signalled: bool
    ghost var rest: Bus
    ghost var run: Run

    ghost function View(): Bus
      reads this
    {
      rest.(capacity := capacity, subs := subscribers, buffers := buffers, closed := closed, active := activePosts,
            processing := processing, isShutdown := isShutdown, signalled := signalled)
    }

    /** What happened so far is a run, continues `before`, and stands here. */
    ghost predicate Valid(before: Run)
      reads this
    {
      At(size, run, View()) && Extends(before, run)
    }

    constructor (bufferSize: int)
      ensures Valid(Run([NewBus(bufferSize)], [])) && View() == NewBus(bufferSize)
    {
      size, capacity := bufferSize, if bufferSize <= 0 then 100 else bufferSize;
      subscribers, buffers, closed, activePosts, processing, isShutdown, signalled := map[], map[], {}, 0, 0, false, false;
      rest, run := NewBus(bufferSize), Run([NewBus(bufferSize)], []);
    }

    /** The real fields have made the step `a` from `s`; the history follows. */
    ghost method Note(before: Run, s: Bus, a: Step)
      requires At(size, run, s) && Extends(before, run) && Enabled(s, a)
      requires capacity == Next(s, a).capacity && subscribers == Next(s, a).subs && buffers == Next(s, a).buffers
      requires closed == Next(s, a).closed && activePosts == Next(s, a).active && processing == Next(s, a).processing
      requires isShutdown == Next(s, a).isShutdown && signalled == Next(s, a).signalled
      modifies this`rest, this`run
      ensures Valid(before) && View() == Next(s, a) && run.steps == old(run).steps + [a]
    {
      hide At, Extends, Next, Enabled;
      RunsOn(size, before, run, s, a);
      var s' := Next(s, a);
      rest, run := s', Run(run.states + [s'], run.steps + [a]);
    }

    /** Any steps of other goroutines; the Post call p knows only that they are steps and not its own. */
    method Others(ghost before: Run, p: PostId)
      requires Valid(before)
      modifies this
      ensures Valid(before) && Rely(p, old(View()), View()) && !rest.panicked && Inv(View())
    {
      AtIsSafe(size, run, View());
    }

    /** Check the flag and count the post, in one critical section. */
    method Enter(ghost before: Run, p: PostId, kind: MsgType) returns (ok: bool)
      requires Valid(before) && p !in rest.posts
      modifies this
      ensures Valid(before) && p in rest.posts && rest.posts[p] == if ok then Entered(kind) else Rejected
      ensures (ok <==> !isShutdown) && (old(isShutdown) ==> !ok)
      ensures run.steps != [] && run.steps[|run.steps| - 1] == Step.Enter(p, kind)
    {
      hide At, Extends, Inv;
      Others(before, p);
      ghost var s := View();
      ok := !isShutdown;
      if ok {
        activePosts := activePosts + 1;
      }
      Note(before, s, Step.Enter(p, kind));
    }

    /** The distinct channels for the kind and for "all", read under the lock: those that hear the message now. */
    method ReadSubscribers(ghost before: Run, p: PostId, kind: MsgType) returns (subs: seq<Chan>)
      requires Valid(before) && p in rest.posts && rest.posts[p] == Entered(kind)
      modifies this
      ensures Valid(before) && p in rest.posts && NoDup(subs)
      ensures run.steps != [] && forall ch :: ch in subs <==> Hears(run.steps[..|run.steps| - 1], ch, kind)
      ensures rest.posts[p] == if subs == [] then Exiting({}, [], true) else Sending((set ch | ch in subs), subs, false)
    {
      hide At, Extends, Inv;
      Others(before, p);
      subs := Distinct(Listed(subscribers, kind) + Listed(subscribers, ""));
      assert (set ch | ch in subs) == Listening(subscribers, kind);
      forall ch ensures ch in subs <==> Hears(run.steps, ch, kind) {
        AtHears(size, run, View(), kind, ch);
      }
      ghost var past := run.steps;
      Note(before, View(), Snapshot(p, subs));
      assert run.steps[..|run.steps| - 1] == past;
    }

    /** One delivery: count it, then wait in the select; anything but the send undoes the count. */
    method DeliverOne(ghost before: Run, p: PostId, ch: Chan, pick: Pick) returns (r: Returns, ghost full: bool)
      requires Valid(before) && Sends(rest, p) && !rest.posts[p].inSelect
      requires rest.posts[p].todo != [] && rest.posts[p].todo[0] == ch
      modifies this
      ensures Valid(before) && p in rest.posts
      ensures var st := old(rest.posts[p]);
              rest.posts[p] == if r == Nil then Sending(st.snapshot, st.todo[1..], false) else Exiting(st.snapshot, st.todo, false)
      ensures r != IsShutDown && (r == IsShuttingDown ==> signalled) && (r == ContextError ==> full || pick != Deliver)
    {
      hide At, Extends, Inv;
      Others(before, p);
      ghost var s := View();
      processing := processing + 1;
      Note(before, s, Begin(p));
      r, full := Select(before, p, ch, pick);
    }

    /**
     Of the ready cases the pick decides; the context can always be done, and stands in for a case that is not
     ready. The channel is open whichever case is taken.
     */
    method Select(ghost before: Run, p: PostId, ch: Chan, pick: Pick) returns (r: Returns, ghost full: bool)
      requires Valid(before) && Sends(rest, p) && rest.posts[p].inSelect
      requires rest.posts[p].todo != [] && rest.posts[p].todo[0] == ch
      modifies this
      ensures Valid(before) && p in rest.posts
      ensures var st := old(rest.posts[p]);
              rest.posts[p] == if r == Nil then Sending(st.snapshot, st.todo[1..], false) else Exiting(st.snapshot, st.todo, false)
      ensures ch in buffers && ch !in closed && !rest.panicked
      ensures r == Nil ==> pick == Deliver && buffers[ch] != [] && buffers[ch][|buffers[ch]| - 1] == p && |buffers[ch]| <= capacity
      ensures r != IsShutDown && (r == IsShuttingDown ==> pick == ShuttingDown && signalled)
      ensures (full <==> pick == Deliver && r != Nil) && (full ==> |buffers[ch]| >= capacity)
      ensures r == ContextError ==> full || pick != Deliver
    {
      hide At, Extends, Inv;
      Others(before, p);
      ghost var s := View();
      TargetIsOpen(s, p);
      full := pick == Deliver && |buffers[ch]| >= capacity;
      if pick == Deliver && |buffers[ch]| < capacity {
        buffers := buffers[ch := buffers[ch] + [p]];
        Note(before, s, Send(p));
        r := Nil;
      } else {
        processing := processing - 1;
        r := if pick == ShuttingDown && signalled then IsShuttingDown else ContextError;
        Note(before, s, GiveUp(p, r == IsShuttingDown));
      }
    }

    /** The deferred Done of the active posts. */
    method Leave(ghost before: Run, p: PostId)
      requires Valid(before) && p in rest.posts && rest.posts[p].Exiting?
      modifies this
      ensures Valid(before) && p in rest.posts
      ensures var st := old(rest.posts[p]); rest.posts[p] == Returned(st.snapshot, st.todo, st.ok)
      ensures old(signalled) ==> signalled
    {
      hide At, Extends, Inv;
      Others(before, p);
      ghost var s := View();
      activePosts := activePosts - 1;
      Note(before, s, Step.Leave(p));
    }

    /**
     Post of the message p, with the pick of every select. Nil means that the message went exactly once to
     every channel with a standing subscription to its kind or to everything, as of a moment during the call,
     and nowhere else. An error has its cause, and no channel got the message twice.
     */
    method Post(ghost before: Run, p: PostId, kind: MsgType, picks: nat -> Pick) returns (r: Returns, ghost m: nat, ghost full: bool)
      requires Valid(before) && p !in rest.posts
      modifies this
      ensures Valid(before)
      ensures r == Nil ==>
                && |old(run).steps| <= m < |run.steps| && run.steps[m].Snapshot? && run.steps[m].p == p
                && forall ch :: rest.delivered[(ch, p)] == if Hears(run.steps[..m], ch, kind) then 1 else 0
      ensures r != Nil ==> forall ch :: rest.delivered[(ch, p)] <= 1
      ensures r == IsShutDown ==> isShutdown && forall ch :: rest.delivered[(ch, p)] == 0
      ensures r == IsShuttingDown ==> signalled
      ensures r == ContextError ==> full || exists i :: picks(i) != Deliver
      ensures old(isShutdown) ==> r == IsShutDown
    {
      hide At, Extends, Inv, Hears;
      ghost var r0, s0 := run, View();
      Refl(r0);
      m, full := 0, false;
      var ok := Enter(r0, p, kind);
      if !ok {
        Delivered(size, run, View(), p);
        Trans(before, r0, run);
        return IsShutDown, m, full;
      }
      ghost var r1 := run;
      Refl(r1);
      r, full := Distribute(r1, p, kind, picks);
      Delivered(size, run, View(), p);
      if r == Nil {
        m := Audience(size, r0, s0, r1, run, View(), p, kind);
      }
      Trans(r0, r1, run);
      Trans(before, r0, run);
    }

    method Distribute(ghost before: Run, p: PostId, kind: MsgType, picks: nat -> Pick) returns (r: Returns, ghost full: bool)
      requires Valid(before) && p in rest.posts && rest.posts[p] == Entered(kind)
      modifies this
      ensures Valid(before) && p in rest.posts && rest.posts[p].Returned? && (rest.posts[p].ok <==> r == Nil)
      ensures r != IsShutDown && (r == IsShuttingDown ==> signalled) && (r == ContextError ==> full || exists i :: picks(i) != Deliver)
    {
      hide At, Extends, Inv, Hears;
      full := false;
      var subs := ReadSubscribers(before, p, kind);
      if subs == [] {
        Leave(before, p);
        return Nil, full;
      }
      ghost var all := rest.posts[p].snapshot;
      for i := 0 to |subs|
        invariant Valid(before) && p in rest.posts && rest.posts[p] == Sending(all, subs[i..], false)
      {
        r, full := DeliverOne(before, p, subs[i], picks(i));
        if r != Nil {
          Leave(before, p);
          return;
        }
      }
      Others(before, p);
      Note(before, View(), Finish(p));
      Leave(before, p);
      return Nil, full;
    }

    /**
     Shutdown; each wait returns only if its count is zero when it looks, so `done` is false for a call that
     is still waiting. Once it has returned nothing is buffered, everything delivered is acknowledged, and every
     channel whose subscription stood at the closing is closed.
     */
    method Shutdown(ghost before: Run) returns (done: bool)
      requires Valid(before) && rest.shutdown == Running
      modifies this
      ensures Valid(before)
      ensures done ==> OverAndOut(size, run, View())
      ensures !done ==> (rest.shutdown == Signalled && activePosts != 0) || (rest.shutdown == Closed && processing != 0)
    {
      hide At, Extends, Inv;
      SetShutdownFlag(before);
      CloseShutdownChan(before);
      OthersToo(before);
      if activePosts != 0 {
        return false;
      }
      Note(before, View(), DrainPosts);
      done := CloseAndDrain(before);
    }

    method SetShutdownFlag(ghost before: Run)
      requires Valid(before) && rest.shutdown == Running
      modifies this
      ensures Valid(before) && rest.shutdown == FlagSet
    {
      hide At, Extends, Inv;
      OthersToo(before);
      ghost var s := View();
      isShutdown := true;
      Note(before, s, SetFlag);
    }

    method CloseShutdownChan(ghost before: Run)
      requires Valid(before) && rest.shutdown == FlagSet
      modifies this
      ensures Valid(before) && rest.shutdown == Signalled
    {
      hide At, Extends, Inv;
      OthersToo(before);
      ghost var s := View();
      signalled := true;
      Note(before, s, Signal);
    }

    method CloseAndDrain(ghost before: Run) returns (done: bool)
      requires Valid(before) && rest.shutdown == PostsDrained
      modifies this
      ensures Valid(before)
      ensures done ==> OverAndOut(size, run, View())
      ensures !done ==> (rest.shutdown == Signalled && activePosts != 0) || (rest.shutdown == Closed && processing != 0)
    {
      hide At, Extends, Inv;
      OthersToo(before);
      ghost var s := View();
      NothingClosedYet(s);
      CloseChannels();
      Note(before, s, Step.CloseChannels);
      done := AwaitAcknowledgements(before);
    }

    method AwaitAcknowledgements(ghost before: Run) returns (done: bool)
      requires Valid(before) && rest.shutdown == Closed
      modifies this
      ensures Valid(before)
      ensures done ==> OverAndOut(size, run, View())
      ensures !done ==> (rest.shutdown == Signalled && activePosts != 0) || (rest.shutdown == Closed && processing != 0)
    {
      hide At, Extends, Inv;
      OthersToo(before);
      if processing != 0 {
        return false;
      }
      Note(before, View(), DrainMessages);
      Finished(size, run, View());
      return true;
    }

    /** The loops that collect and close the distinct channels. */
    method CloseChannels()
      modifies this`closed, this`subscribers
      ensures closed == old(closed) + AllChans(old(subscribers)) && subscribers == map[]
    {
      ghost var t := subscribers;
      var todo := subscribers.Keys;
      var unique: set<Chan> := {};
      while todo != {}
        invariant todo <= t.Keys && subscribers == t
        invariant forall ch :: ch in unique <==> exists k <- t :: k !in todo && ch in t[k]
      {
        var k :| k in todo;
        var subs := subscribers[k];
        var more: set<Chan> := set ch | ch in subs;
        assert forall ch :: ch in unique + more <==> exists j <- t :: j !in todo - {k} && ch in t[j];
        unique, todo := unique + more, todo - {k};
      }
      assert unique == AllChans(t);
      closed, subscribers := closed + unique, map[];
    }

    /** Interference as the one shutdown body sees it. */
    method OthersToo(ghost before: Run)
      requires Valid(before)
      modifies this
      ensures Valid(before) && rest.shutdown == old(rest.shutdown) && !rest.panicked && Inv(View())
    {
      AtIsSafe(size, run, View());
    }
  }

  lemma NothingClosedYet(s: Bus)
    requires Inv(s) && s.shutdown == PostsDrained
    ensures s.closed == {}
  {
    hide Counts, PendingIsBuffered, OpenChannels, Deliveries;
  }

  lemma Delivered(size: int, r: Run, s: Bus, p: PostId)
    requires At(size, r, s) && p in s.posts && (s.posts[p].Returned? || s.posts[p].Rejected?)
    ensures forall ch :: s.delivered[(ch, p)] <= 1
    ensures s.posts[p].Rejected? ==> forall ch :: s.delivered[(ch, p)] == 0
  {
    hide IsRun, Phases, OpenChannels, Counts;
    AtIsSafe(size, r, s);
    assert PostDelivers(s, p, s.posts[p]);
  }

  lemma Refl(r: Run)
    ensures Extends(r, r)
  {
  }

  lemma Trans(a: Run, b: Run, c: Run)
    requires Extends(a, b) && Extends(b, c)
    ensures Extends(a, c)
  {
  }

  lemma AtHears(size: int, r: Run, s: Bus, kind: MsgType, ch: Chan)
    requires At(size, r, s)
    ensures ch in Listening(s.subs, kind) <==> Hears(r.steps, ch, kind)
  {
    hide Enabled, Next, Listening, Hears;
    ListeningIsHearing(size, r.states, r.steps, |r.steps|, kind, ch);
    assert r.steps[..|r.steps|] == r.steps;
  }

  /** The audience of a post that was entered, with this kind, by the last step of r1, and was unknown in r0. */
  lemma Audience(size: int, r0: Run, s0: Bus, r1: Run, r: Run, s: Bus, p: PostId, kind: MsgType) returns (m: nat)
    requires At(size, r0, s0) && p !in s0.posts && Extends(r0, r1) && Extends(r1, r) && At(size, r, s)
    requires r1.steps != [] && r1.steps[|r1.steps| - 1] == Enter(p, kind)
    requires p in s.posts && s.posts[p].Returned? && s.posts[p].ok
    ensures |r0.steps| <= m < |r.steps| && r.steps[m].Snapshot? && r.steps[m].p == p
    ensures forall ch :: s.delivered[(ch, p)] == if Hears(r.steps[..m], ch, kind) then 1 else 0
  {
    hide Enabled, Next, Hears, Traced;
    var k;
    m, k := DeliveredToTheAudience(size, r.states, r.steps, |r.steps|, p);
    RunTraced(size, r.states, r.steps, |r.steps|);
    RunTraced(size, r0.states, r0.steps, |r0.steps|);
    var i, e := |r1.steps| - 1, IndexOf(r.steps[..m], Enter(p, k));
    assert r.steps[i] == Enter(p, kind) && r.steps[e] == Enter(p, k);
    assert e == i;
    assert forall j :: 0 <= j < |r0.steps| ==> r.steps[j] == r0.steps[j] && r0.steps[j] != Enter(p, k);
  }

  ghost function IndexOf(steps: seq<Step>, a: Step): (i: nat)
    requires a in steps
    ensures i < |steps| && steps[i] == a
  {
    var i :| 0 <= i < |steps| && steps[i] == a; i
  }

  /** The bus after a completed shutdown. */
  ghost predicate OverAndOut(size: int, r: Run, s: Bus) {
    && (forall ch <- s.buffers :: s.buffers[ch] == []) && s.held == multiset{} && s.delivered == s.acked
    && s.isShutdown && s.active == 0 && s.processing == 0
    && exists m: nat :: m < |r.steps| && r.steps[m].CloseChannels? && forall ch, kind :: Hears(r.steps[..m], ch, kind) ==> ch in s.closed
  }

  lemma Finished(size: int, r: Run, s: Bus)
    requires At(size, r, s) && s.shutdown == Done
    ensures OverAndOut(size, r, s)
  {
    hide Enabled, Next, Selecting, Active, Hears;
    AtIsSafe(size, r, s);
    ShutdownLeavesNothing(size, r.states, r.steps, |r.steps|);
    Safety(size, r.states, r.steps, |r.steps|);
    var m := ShutdownClosesAll(size, r.states, r.steps, |r.steps|);
  }
}
