/**
 Who hears a message on the cognitive bus (internal/agent/cognitive_bus.go), told by the calls of
 Subscribe and unsubscribe alone, and how that decides what a Post delivers and Shutdown closes.
 */
module BusAudience {
  import opened Basics
  import opened Subscribers
  import opened CognitiveBus

  /** The subscription made by step i is still standing after all the steps. */
  ghost predicate Stands(past: seq<Step>, i: int, ch: Chan) {
    && 0 <= i < |past| && past[i].Subscribe? && past[i].ch == ch
    && forall j :: i < j < |past| ==> past[j] != Unsubscribe(ch) && !past[j].CloseChannels?
  }

  ghost predicate Subscribed(past: seq<Step>, ch: Chan) {
    exists i :: Stands(past, i, ch)
  }

  /** After these steps the channel has a standing subscription to the kind of message, or to everything. */
  ghost predicate Hears(past: seq<Step>, ch: Chan, kind: MsgType) {
    exists i :: Stands(past, i, ch) && (past[i].kinds == [] || "" in past[i].kinds || kind in past[i].kinds)
  }

  /** The table agrees with the calls made so far. */
  ghost predicate TableIs(s: Bus, past: seq<Step>) {
    && s.types.Keys == s.buffers.Keys
    && (forall i :: 0 <= i < |past| && past[i].Subscribe? ==> past[i].ch in s.types && s.types[past[i].ch] == Named(past[i].kinds))
    && (forall k, ch :: ch !in s.types ==> Copies(s.subs, k, ch) == 0)
    && (forall k, ch :: ch in s.types ==> Copies(s.subs, k, ch) == if Subscribed(past, ch) then multiset(s.types[ch])[k] else 0)
  }

  /** A step that is not about the channel leaves its subscription alone. */
  lemma StandsOn(past: seq<Step>, a: Step, ch: Chan)
    requires a != Unsubscribe(ch) && !a.CloseChannels? && !(a.Subscribe? && a.ch == ch)
    ensures forall i :: Stands(past + [a], i, ch) <==> Stands(past, i, ch)
    ensures Subscribed(past + [a], ch) <==> Subscribed(past, ch)
  {
    forall i ensures Stands(past + [a], i, ch) <==> Stands(past, i, ch) {
      assert forall j :: 0 <= j < |past| ==> (past + [a])[j] == past[j];
      assert (past + [a])[|past|] == a;
    }
  }

  lemma StandsNow(past: seq<Step>, a: Step)
    requires a.Subscribe?
    ensures Subscribed(past + [a], a.ch)
  {
    assert Stands(past + [a], |past|, a.ch);
  }

  lemma NoneStands(past: seq<Step>, a: Step, ch: Chan)
    requires a == Unsubscribe(ch) || a.CloseChannels?
    ensures !Subscribed(past + [a], ch)
  {
    forall i ensures !Stands(past + [a], i, ch) {
      assert (past + [a])[|past|] == a;
    }
  }

  lemma JoinTable(s: Bus, past: seq<Step>, kinds: seq<MsgType>, c: Chan)
    requires TableIs(s, past) && c !in s.buffers
    ensures TableIs(DoSubscribe(s, kinds, c), past + [Subscribe(kinds, c)])
  {
    hide Copies, Joined, Subscribed;
    var s', a := DoSubscribe(s, kinds, c), Subscribe(kinds, c);
    forall k, ch ensures Copies(s'.subs, k, ch) == Copies(s.subs, k, ch) + if ch == c then multiset(Named(kinds))[k] else 0 {
      JoinedCopies(s.subs, Named(kinds), c, k, ch);
    }
    StandsNow(past, a);
    forall ch | ch != c ensures Subscribed(past + [a], ch) <==> Subscribed(past, ch) {
      StandsOn(past, a, ch);
    }
  }

  lemma LeaveTable(s: Bus, past: seq<Step>, c: Chan)
    requires TableIs(s, past) && c in s.types
    ensures TableIs(DoUnsubscribe(s, c), past + [Unsubscribe(c)])
  {
    hide Copies, Left, Subscribed;
    var s', a := DoUnsubscribe(s, c), Unsubscribe(c);
    forall k, ch ensures Copies(s'.subs, k, ch) == if ch == c then 0 else Copies(s.subs, k, ch) {
      LeftCopies(s.subs, s.types[c], c, k, ch);
    }
    NoneStands(past, a, c);
    forall ch | ch != c ensures Subscribed(past + [a], ch) <==> Subscribed(past, ch) {
      StandsOn(past, a, ch);
    }
  }

  lemma CloseTable(s: Bus, past: seq<Step>)
    requires TableIs(s, past) && AllChans(s.subs) * s.closed == {}
    ensures TableIs(DoCloseChannels(s), past + [CloseChannels])
  {
    hide Subscribed, AllChans;
    forall ch ensures !Subscribed(past + [CloseChannels], ch) {
      NoneStands(past, CloseChannels, ch);
    }
  }

  predicate AboutSubscriptions(a: Step) {
    a.Subscribe? || a.Unsubscribe? || a.CloseChannels?
  }

  predicate PostStep(a: Step) {
    a.Enter? || a.Snapshot? || a.Begin? || a.Send? || a.GiveUp? || a.Finish? || a.Leave?
  }

  ghost predicate SameTables(s: Bus, s': Bus) {
    s'.subs == s.subs && s'.types == s.types && s'.buffers.Keys == s.buffers.Keys
  }

  lemma OtherStep(s: Bus, a: Step)
    requires Enabled(s, a) && !AboutSubscriptions(a)
    ensures SameTables(s, Next(s, a))
  {
    hide Listening, NoDup, DoEnter, DoSnapshot, DoBegin, DoSend, DoGiveUp, DoFinish, DoLeave, DoReceive, DoAcknowledge,
         DoSubscribe, DoUnsubscribe, DoCloseChannels, AllChans;
  }

  lemma OtherTable(s: Bus, s': Bus, past: seq<Step>, a: Step)
    requires TableIs(s, past) && !AboutSubscriptions(a)
    requires SameTables(s, s')
    ensures TableIs(s', past + [a])
  {
    hide Copies, Subscribed;
    forall ch ensures Subscribed(past + [a], ch) <==> Subscribed(past, ch) {
      StandsOn(past, a, ch);
    }
  }

  lemma StepTable(s: Bus, past: seq<Step>, a: Step)
    requires TableIs(s, past) && Enabled(s, a) && !Next(s, a).panicked
    ensures TableIs(Next(s, a), past + [a])
  {
    hide TableIs, DoSubscribe, DoUnsubscribe, DoEnter, DoSnapshot, DoBegin, DoSend, DoGiveUp, DoFinish, DoLeave, DoReceive,
         DoAcknowledge, Listening, NoDup, AllChans;
    match a
    case Subscribe(kinds, ch) => JoinTable(s, past, kinds, ch);
    case Unsubscribe(ch) => LeaveTable(s, past, ch);
    case CloseChannels => CloseTable(s, past);
    case _ =>
      OtherStep(s, a);
      OtherTable(s, Next(s, a), past, a);
  }

  lemma {:induction false} RunTable(size: int, states: seq<Bus>, steps: seq<Step>, n: nat)
    requires IsRun(size, states, steps) && n < |states|
    ensures TableIs(states[n], steps[..n])
  {
    hide Enabled, Next, TableIs;
    if n == 0 {
      StartTable(size);
      assert steps[..0] == [];
    } else {
      RunTable(size, states, steps, n - 1);
      Safety(size, states, steps, n);
      StepTable(states[n - 1], steps[..n - 1], steps[n - 1]);
      assert steps[..n] == steps[..n - 1] + [steps[n - 1]];
    }
  }

  lemma StartTable(size: int)
    ensures TableIs(NewBus(size), [])
  {
  }

  /** In every run the channels a message goes to are those that hear its kind. */
  lemma ListeningIsHearing(size: int, states: seq<Bus>, steps: seq<Step>, n: nat, kind: MsgType, ch: Chan)
    requires IsRun(size, states, steps) && n < |states|
    ensures ch in Listening(states[n].subs, kind) <==> Hears(steps[..n], ch, kind)
  {
    hide Enabled, Next, Stands;
    RunTable(size, states, steps, n);
    TableHears(states[n], steps[..n], kind, ch);
  }

  lemma TableHears(s: Bus, past: seq<Step>, kind: MsgType, ch: Chan)
    requires TableIs(s, past)
    ensures ch in Listening(s.subs, kind) <==> Hears(past, ch, kind)
  {
    assert ch in Listening(s.subs, kind) <==> Copies(s.subs, kind, ch) > 0 || Copies(s.subs, "", ch) > 0;
    if Subscribed(past, ch) {
      var i :| Stands(past, i, ch);
      assert s.types[ch] == Named(past[i].kinds);
      assert forall j :: Stands(past, j, ch) ==> Named(past[j].kinds) == s.types[ch];
    }
  }

  // --- Deliveries ------------------------------------------------------------------------------------------

  /** The snapshot of post p was taken by step m, and holds the channels that heard its kind then. */
  ghost predicate TakenAt(steps: seq<Step>, m: nat, p: PostId, kind: MsgType, snapshot: set<Chan>) {
    && m < |steps| && steps[m].Snapshot? && steps[m].p == p && Enter(p, kind) in steps[..m]
    && forall ch :: ch in snapshot <==> Hears(steps[..m], ch, kind)
  }

  ghost predicate Traced(steps: seq<Step>, n: nat, p: PostId, st: Post)
    requires n <= |steps|
  {
    match st
    case Entered(kind) => Enter(p, kind) in steps[..n]
    case Sending(snapshot, _, _) => exists m: nat, kind :: m < n && TakenAt(steps, m, p, kind, snapshot)
    case Exiting(snapshot, _, _) => exists m: nat, kind :: m < n && TakenAt(steps, m, p, kind, snapshot)
    case Returned(snapshot, _, _) => exists m: nat, kind :: m < n && TakenAt(steps, m, p, kind, snapshot)
    case Rejected => true
  }

  /** Every post was entered once and goes back to its steps. */
  ghost predicate AllTraced(s: Bus, steps: seq<Step>, n: nat)
    requires n <= |steps|
  {
    && (forall p <- s.posts :: Traced(steps, n, p, s.posts[p]))
    && (forall i :: 0 <= i < n && steps[i].Enter? ==> steps[i].p in s.posts)
    && (forall i, j :: 0 <= i < j < n && steps[i].Enter? && steps[j].Enter? ==> steps[i].p != steps[j].p)
  }

  lemma TracedOn(steps: seq<Step>, n: nat, p: PostId, st: Post)
    requires n < |steps| && Traced(steps, n, p, st)
    ensures Traced(steps, n + 1, p, st)
  {
    hide TakenAt;
    assert steps[..n + 1] == steps[..n] + [steps[n]];
  }

  /** A post moves on without another look at the subscribers. */
  lemma TracedMove(steps: seq<Step>, n: nat, p: PostId, st: Post, st': Post)
    requires n < |steps| && Traced(steps, n, p, st) && !st.Entered? && !st.Rejected? && !st'.Entered? && !st'.Rejected?
    requires st'.snapshot == st.snapshot
    ensures Traced(steps, n + 1, p, st')
  {
    hide TakenAt;
  }

  lemma SnapshotTraced(steps: seq<Step>, n: nat, p: PostId, kind: MsgType, snapshot: set<Chan>)
    requires n < |steps| && steps[n].Snapshot? && steps[n].p == p && Enter(p, kind) in steps[..n]
    requires forall ch :: ch in snapshot <==> Hears(steps[..n], ch, kind)
    ensures TakenAt(steps, n, p, kind, snapshot)
  {
  }

  /** A post that is past its snapshot moves on with it. */
  predicate Onward(st: Post, st': Post) {
    !st.Entered? && !st.Rejected? && !st'.Entered? && !st'.Rejected? && st'.snapshot == st.snapshot
  }

  /** Every step but the first two of a post leaves each post alone or moves it on. */
  ghost predicate PostsOnward(s: Bus, s': Bus) {
    s'.posts.Keys == s.posts.Keys && forall q <- s.posts :: s'.posts[q] == s.posts[q] || Onward(s.posts[q], s'.posts[q])
  }

  lemma PostsMove(s: Bus, a: Step)
    requires Enabled(s, a) && PostStep(a) && !a.Enter? && !a.Snapshot?
    ensures PostsOnward(s, Next(s, a))
  {
    hide Listening, NoDup, AllChans, Aside, DoEnter, DoSnapshot, DoSend;
    if a.Send? {
      SendMoves(s, a.p);
    }
  }

  lemma SendMoves(s: Bus, p: PostId)
    requires Sends(s, p) && s.posts[p].todo != [] && s.posts[p].todo[0] in s.buffers
    ensures PostsOnward(s, DoSend(s, p))
  {
    hide Aside;
  }

  lemma OthersMove(s: Bus, a: Step)
    requires Enabled(s, a) && !a.Enter? && !a.Snapshot?
    ensures PostsOnward(s, Next(s, a))
  {
    hide Listening, NoDup, AllChans, DoEnter, DoSnapshot, DoBegin, DoSend, DoGiveUp, DoFinish, DoLeave, DoSubscribe, DoUnsubscribe, DoReceive,
         DoAcknowledge, DoCloseChannels, Aside, Only;
    if PostStep(a) {
      PostsMove(s, a);
    }
  }

  /** The two steps that begin a post. */
  lemma FirstMoves(s: Bus, a: Step)
    requires Enabled(s, a) && (a.Enter? || a.Snapshot?)
    ensures a.p in Next(s, a).posts && Next(s, a).posts == s.posts[a.p := Next(s, a).posts[a.p]]
    ensures a.Enter? ==> a.p !in s.posts && (Next(s, a).posts[a.p] == Entered(a.kind) || Next(s, a).posts[a.p] == Rejected)
    ensures a.Snapshot? ==>
              && a.p in s.posts && s.posts[a.p].Entered? && !Next(s, a).posts[a.p].Entered? && !Next(s, a).posts[a.p].Rejected?
              && forall ch :: ch in Next(s, a).posts[a.p].snapshot <==> ch in Listening(s.subs, s.posts[a.p].kind)
  {
    hide Listening, NoDup;
    if a.Snapshot? {
      assert forall ch :: ch in a.order <==> ch in (set x | x in a.order);
    }
  }

  lemma StepTraced(size: int, states: seq<Bus>, steps: seq<Step>, n: nat)
    requires IsRun(size, states, steps) && n < |steps| && AllTraced(states[n], steps, n)
    ensures AllTraced(states[n + 1], steps, n + 1)
  {
    hide Next, Enabled, Traced, Hears, Listening;
    var s, s', a := states[n], states[n + 1], steps[n];
    if a.Enter? || a.Snapshot? {
      FirstMoves(s, a);
    } else {
      OthersMove(s, a);
    }
    forall q <- s'.posts ensures Traced(steps, n + 1, q, s'.posts[q]) {
      if a.Enter? && a.p == q {
        EnterTraced(steps, n, s'.posts[q]);
      } else if a.Snapshot? && a.p == q {
        SnapshotStep(size, states, steps, n);
      } else if s'.posts[q] == s.posts[q] {
        TracedOn(steps, n, q, s.posts[q]);
      } else {
        TracedMove(steps, n, q, s.posts[q], s'.posts[q]);
      }
    }
  }

  lemma EnterTraced(steps: seq<Step>, n: nat, st: Post)
    requires n < |steps| && steps[n].Enter? && (st == Entered(steps[n].kind) || st == Rejected)
    ensures Traced(steps, n + 1, steps[n].p, st)
  {
    assert steps[..n + 1][n] == steps[n];
  }

  lemma SnapshotStep(size: int, states: seq<Bus>, steps: seq<Step>, n: nat)
    requires IsRun(size, states, steps) && n < |steps| && AllTraced(states[n], steps, n) && steps[n].Snapshot?
    ensures steps[n].p in states[n + 1].posts && Traced(steps, n + 1, steps[n].p, states[n + 1].posts[steps[n].p])
  {
    hide Next, Enabled, Hears, Listening;
    var s, s', p := states[n], states[n + 1], steps[n].p;
    FirstMoves(s, steps[n]);
    var kind := s.posts[p].kind;
    forall ch ensures ch in s'.posts[p].snapshot <==> Hears(steps[..n], ch, kind) {
      ListeningIsHearing(size, states, steps, n, kind, ch);
    }
    assert Traced(steps, n, p, s.posts[p]);
    SnapshotTraced(steps, n, p, kind, s'.posts[p].snapshot);
  }

  lemma {:induction false} RunTraced(size: int, states: seq<Bus>, steps: seq<Step>, n: nat)
    requires IsRun(size, states, steps) && n < |states|
    ensures AllTraced(states[n], steps, n)
  {
    hide AllTraced, Enabled, Next;
    if n > 0 {
      RunTraced(size, states, steps, n - 1);
      StepTraced(size, states, steps, n - 1);
    } else {
      StartTraced(size, steps);
    }
  }

  lemma StartTraced(size: int, steps: seq<Step>)
    ensures AllTraced(NewBus(size), steps, 0)
  {
  }

  /**
   In every run, a Post that returned nil put its message exactly once on every channel that had a standing
   subscription to its kind, or to everything, when it looked, and on no other channel.
   */
  lemma DeliveredToTheAudience(size: int, states: seq<Bus>, steps: seq<Step>, n: nat, p: PostId) returns (m: nat, kind: MsgType)
    requires IsRun(size, states, steps) && n < |states| && p in states[n].posts
    requires states[n].posts[p].Returned? && states[n].posts[p].ok
    ensures m < n && steps[m].Snapshot? && steps[m].p == p && Enter(p, kind) in steps[..m]
    ensures forall ch :: states[n].delivered[(ch, p)] == if Hears(steps[..m], ch, kind) then 1 else 0
  {
    hide Hears, Enabled, Next;
    NilMeansDeliveredOnce(size, states, steps, n, p);
    RunTraced(size, states, steps, n);
    assert Traced(steps, n, p, states[n].posts[p]);
    m, kind :| m < n && TakenAt(steps, m, p, kind, states[n].posts[p].snapshot);
  }

  // --- Closing ---------------------------------------------------------------------------------------------------

  /** Step m closed every channel that heard anything then. */
  ghost predicate ClosedAt(s: Bus, steps: seq<Step>, m: nat) {
    m < |steps| && steps[m].CloseChannels? && forall ch, kind :: Hears(steps[..m], ch, kind) ==> ch in s.closed
  }

  lemma CloseStep(size: int, states: seq<Bus>, steps: seq<Step>, n: nat)
    requires IsRun(size, states, steps) && n < |steps| && steps[n].CloseChannels?
    ensures ClosedAt(states[n + 1], steps, n)
  {
    hide Hears, AllChans;
    Safety(size, states, steps, n + 1);
    forall ch, kind | Hears(steps[..n], ch, kind) ensures ch in states[n + 1].closed {
      ListeningIsHearing(size, states, steps, n, kind, ch);
      ListeningSubscribed(states[n].subs, kind);
    }
  }

  lemma StepCloses(s: Bus, a: Step)
    requires Enabled(s, a)
    ensures s.closed <= Next(s, a).closed
    ensures (Next(s, a).shutdown.Closed? || Next(s, a).shutdown.Done?) ==> s.shutdown.Closed? || s.shutdown.Done? || a.CloseChannels?
  {
    hide Listening, NoDup, AllChans, DoEnter, DoSnapshot, DoBegin, DoSend, DoGiveUp, DoFinish, DoLeave, DoReceive, DoAcknowledge;
  }

  lemma {:induction false} RunCloses(size: int, states: seq<Bus>, steps: seq<Step>, n: nat)
    requires IsRun(size, states, steps) && n < |states| && (states[n].shutdown.Closed? || states[n].shutdown.Done?)
    ensures exists m: nat :: m < n && ClosedAt(states[n], steps, m)
    decreases n
  {
    hide Next, Enabled, Hears;
    if n > 0 {
      StepCloses(states[n - 1], steps[n - 1]);
      if steps[n - 1].CloseChannels? {
        CloseStep(size, states, steps, n - 1);
      } else {
        RunCloses(size, states, steps, n - 1);
        var m: nat :| m < n - 1 && ClosedAt(states[n - 1], steps, m);
        assert ClosedAt(states[n], steps, m);
      }
    }
  }

  /** In every run, when Shutdown has returned every channel with a subscription that stood at the closing is closed. */
  lemma ShutdownClosesAll(size: int, states: seq<Bus>, steps: seq<Step>, n: nat) returns (m: nat)
    requires IsRun(size, states, steps) && n < |states| && states[n].shutdown == Done
    ensures m < n && steps[m].CloseChannels? && forall ch, kind :: Hears(steps[..m], ch, kind) ==> ch in states[n].closed
  {
    hide Enabled, Next, Hears;
    RunCloses(size, states, steps, n);
    m :| m < n && ClosedAt(states[n], steps, m);
  }
}
