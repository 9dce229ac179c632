/**
 The cognitive bus (internal/agent/cognitive_bus.go) as an interleaved step system. A step
 is one atomic piece of one goroutine: a critical section, a wait-group operation, the
 outcome of a select, or a channel operation. A run is any sequence of enabled steps, with
 any number of concurrent Post calls, subscribers and consumers and one execution of the
 shutdown body (sync.Once admits no second).
 */
module CognitiveBus {
  import opened Basics
  import opened Subscribers

  type PostId = nat

  /** Where a Post call stands. `snapshot` is the set of channels it read under the lock. */
  datatype Post =
    | Entered(kind: MsgType)
    | Sending(snapshot: set<Chan>, todo: seq<Chan>, inSelect: bool)
    | Exiting(snapshot: set<Chan>, todo: seq<Chan>, ok: bool)
    | Returned(snapshot: set<Chan>, todo: seq<Chan>, ok: bool)
    | Rejected

  datatype Shutdown = Running | FlagSet | Signalled | PostsDrained | Closed | Done

  /** One copy of a posted message on one channel. */
  type Copy = (Chan, PostId)

  /**
   `types` holds what each unsubscribe function has captured. `held` are copies received and not yet acknowledged. `pending`, `delivered` and `acked`
   are history: copies buffered, ever sent, and acknowledged.
   */
  datatype Bus = Bus(capacity: nat, subs: Table, types: map<Chan, seq<MsgType>>, buffers: map<Chan, seq<PostId>>, closed: set<Chan>,
                     posts: map<PostId, Post>, active: int, processing: int,
                     isShutdown: bool, signalled: bool, shutdown: Shutdown, panicked: bool,
                     pending: multiset<Copy>, held: multiset<Copy>, delivered: multiset<Copy>, acked: multiset<Copy>)

  function NewBus(bufferSize: int): Bus {
    Bus(if bufferSize <= 0 then 100 else bufferSize, map[], map[], map[], {}, map[], 0, 0, false, false, Running, false,
        multiset{}, multiset{}, multiset{}, multiset{})
  }

  predicate IsActive(p: Post) {
    p.Entered? || p.Sending? || p.Exiting?
  }

  predicate InSelect(p: Post) {
    p.Sending? && p.inSelect
  }

  ghost function Active(posts: map<PostId, Post>): set<PostId> {
    set p | p in posts && IsActive(posts[p])
  }

  ghost function Selecting(posts: map<PostId, Post>): set<PostId> {
    set p | p in posts && InSelect(posts[p])
  }

  // --- Steps -----------------------------------------------------------------------------------

  datatype Step =
    | Enter(p: PostId, kind: MsgType)
    | Snapshot(p: PostId, order: seq<Chan>)
    | Begin(p: PostId)
    | Send(p: PostId)
    | GiveUp(p: PostId, sawShutdown: bool)
    | Finish(p: PostId)
    | Leave(p: PostId)
    | Subscribe(kinds: seq<MsgType>, ch: Chan)
    | Unsubscribe(ch: Chan)
    | Receive(ch: Chan)
    | Acknowledge(ch: Chan, p: PostId)
    | SetFlag | Signal | DrainPosts | CloseChannels | DrainMessages

  /** What posts and consumers leave alone: subscriptions, closed channels and the shutdown. */
  ghost predicate Aside(s: Bus, r: Bus) {
    && r.subs == s.subs && r.types == s.types && r.buffers.Keys == s.buffers.Keys && r.closed == s.closed && r.capacity == s.capacity
    && r.isShutdown == s.isShutdown && r.signalled == s.signalled && r.shutdown == s.shutdown
  }

  /** No post changes, and no flag of the shutdown. */
  ghost predicate Unmoved(s: Bus, r: Bus) {
    r.posts == s.posts && r.capacity == s.capacity && r.isShutdown == s.isShutdown && r.signalled == s.signalled
  }

  /** No post but p changes. */
  ghost predicate Only(s: Bus, r: Bus, p: PostId) {
    forall q :: q != p ==> (q in r.posts <==> q in s.posts) && (q in s.posts ==> r.posts[q] == s.posts[q])
  }

  function SetPost(s: Bus, p: PostId, st: Post): Bus {
    s.(posts := s.posts[p := st])
  }

  /** Lock, check the flag, count the post. */
  function DoEnter(s: Bus, p: PostId, kind: MsgType): (r: Bus)
    ensures Aside(s, r) && Only(s, r, p)
  {
    if s.isShutdown then SetPost(s, p, Rejected)
    else SetPost(s, p, Entered(kind)).(active := s.active + 1)
  }

  /** Read the distinct channels for the kind and for "all"; with nobody listening return nil. */
  function DoSnapshot(s: Bus, p: PostId, order: seq<Chan>): (r: Bus)
    ensures Aside(s, r) && Only(s, r, p)
  {
    if order == [] then SetPost(s, p, Exiting({}, [], true))
    else SetPost(s, p, Sending((set ch | ch in order), order, false))
  }

  function DoBegin(s: Bus, p: PostId): (r: Bus)
    requires p in s.posts && s.posts[p].Sending?
    ensures Aside(s, r) && Only(s, r, p)
  {
    SetPost(s, p, s.posts[p].(inSelect := true)).(processing := s.processing + 1)
  }

  /** A send case on a closed channel panics. */
  function DoSend(s: Bus, p: PostId): (r: Bus)
    requires p in s.posts && s.posts[p].Sending? && s.posts[p].todo != [] && s.posts[p].todo[0] in s.buffers
    ensures Aside(s, r) && Only(s, r, p)
  {
    var ch := s.posts[p].todo[0];
    if ch in s.closed then s.(panicked := true)
    else SetPost(s, p, s.posts[p].(todo := s.posts[p].todo[1..], inSelect := false))
         .(buffers := s.buffers[ch := s.buffers[ch] + [p]],
           pending := s.pending + multiset{(ch, p)}, delivered := s.delivered + multiset{(ch, p)})
  }

  function DoGiveUp(s: Bus, p: PostId): (r: Bus)
    requires p in s.posts && s.posts[p].Sending?
    ensures Aside(s, r) && Only(s, r, p)
  {
    SetPost(s, p, Exiting(s.posts[p].snapshot, s.posts[p].todo, false)).(processing := s.processing - 1)
  }

  function DoFinish(s: Bus, p: PostId): (r: Bus)
    requires p in s.posts && s.posts[p].Sending?
    ensures Aside(s, r) && Only(s, r, p)
  {
    SetPost(s, p, Exiting(s.posts[p].snapshot, [], true))
  }

  /** The deferred Done of the active-posts group. */
  function DoLeave(s: Bus, p: PostId): (r: Bus)
    requires p in s.posts && s.posts[p].Exiting?
    ensures Aside(s, r) && Only(s, r, p)
  {
    SetPost(s, p, Returned(s.posts[p].snapshot, s.posts[p].todo, s.posts[p].ok)).(active := s.active - 1)
  }

  /** No type means every message. */
  function Named(kinds: seq<MsgType>): seq<MsgType> {
    if kinds == [] then [""] else kinds
  }

  ghost function DoSubscribe(s: Bus, kinds: seq<MsgType>, ch: Chan): (r: Bus)
    ensures Unmoved(s, r)
  {
    s.(subs := Joined(s.subs, Named(kinds), ch), types := s.types[ch := Named(kinds)], buffers := s.buffers[ch := []])
  }

  function DoUnsubscribe(s: Bus, ch: Chan): (r: Bus)
    requires ch in s.types
    ensures Unmoved(s, r)
  {
    s.(subs := Left(s.subs, s.types[ch], ch))
  }

  function DoReceive(s: Bus, ch: Chan): (r: Bus)
    requires ch in s.buffers && s.buffers[ch] != []
    ensures Aside(s, r)
    ensures Unmoved(s, r)
  {
    var copy := (ch, s.buffers[ch][0]);
    s.(buffers := s.buffers[ch := s.buffers[ch][1..]], pending := s.pending - multiset{copy}, held := s.held + multiset{copy})
  }

  function DoAcknowledge(s: Bus, copy: Copy): (r: Bus)
    ensures Aside(s, r)
    ensures Unmoved(s, r)
  {
    s.(held := s.held - multiset{copy}, acked := s.acked + multiset{copy}, processing := s.processing - 1)
  }

  /** Under the lock: close every distinct subscribed channel and forget the table. */
  ghost function DoCloseChannels(s: Bus): (r: Bus)
    ensures Unmoved(s, r)
  {
    if AllChans(s.subs) * s.closed != {} then s.(panicked := true)
    else s.(closed := s.closed + AllChans(s.subs), subs := map[], shutdown := Closed)
  }

  predicate Sends(s: Bus, p: PostId) {
    p in s.posts && s.posts[p].Sending?
  }

  ghost predicate Enabled(s: Bus, a: Step) {
    !s.panicked &&
    match a
    case Enter(p, kind) => p !in s.posts
    case Snapshot(p, order) => p in s.posts && s.posts[p].Entered? && NoDup(order)
                               && (set ch | ch in order) == Listening(s.subs, s.posts[p].kind)
    case Begin(p) => Sends(s, p) && s.posts[p].todo != [] && !s.posts[p].inSelect
    case Send(p) => Sends(s, p) && s.posts[p].inSelect && s.posts[p].todo != [] && s.posts[p].todo[0] in s.buffers
                    && (s.posts[p].todo[0] in s.closed || |s.buffers[s.posts[p].todo[0]]| < s.capacity)
    case GiveUp(p, sawShutdown) => Sends(s, p) && s.posts[p].inSelect && (sawShutdown ==> s.signalled)
    case Finish(p) => Sends(s, p) && s.posts[p].todo == [] && !s.posts[p].inSelect
    case Leave(p) => p in s.posts && s.posts[p].Exiting?
    case Subscribe(kinds, ch) => ch !in s.buffers
    case Unsubscribe(ch) => ch in s.types
    case Receive(ch) => ch in s.buffers && s.buffers[ch] != []
    case Acknowledge(ch, p) => (ch, p) in s.held
    case SetFlag => s.shutdown == Running
    case Signal => s.shutdown == FlagSet
    case DrainPosts => s.shutdown == Signalled && s.active == 0
    case CloseChannels => s.shutdown == PostsDrained
    case DrainMessages => s.shutdown == Closed && s.processing == 0
  }

  ghost function Next(s: Bus, a: Step): Bus
    requires Enabled(s, a)
  {
    match a
    case Enter(p, kind) => DoEnter(s, p, kind)
    case Snapshot(p, order) => DoSnapshot(s, p, order)
    case Begin(p) => DoBegin(s, p)
    case Send(p) => DoSend(s, p)
    case GiveUp(p, _) => DoGiveUp(s, p)
    case Finish(p) => DoFinish(s, p)
    case Leave(p) => DoLeave(s, p)
    case Subscribe(kinds, ch) => DoSubscribe(s, kinds, ch)
    case Unsubscribe(ch) => DoUnsubscribe(s, ch)
    case Receive(ch) => DoReceive(s, ch)
    case Acknowledge(ch, p) => DoAcknowledge(s, (ch, p))
    case SetFlag => s.(isShutdown := true, shutdown := FlagSet)
    case Signal => s.(signalled := true, shutdown := Signalled)
    case DrainPosts => s.(shutdown := PostsDrained)
    case CloseChannels => DoCloseChannels(s)
    case DrainMessages => s.(shutdown := Done)
  }

  // --- Invariant -------------------------------------------------------------------------------

  /** The shutdown flags follow the shutdown body, and past the drain no post is active. */
  ghost predicate Phases(s: Bus) {
    && (s.isShutdown <==> !s.shutdown.Running?)
    && (s.signalled <==> !s.shutdown.Running? && !s.shutdown.FlagSet?)
    && s.active == |Active(s.posts)|
    && (s.shutdown.PostsDrained? || s.shutdown.Closed? || s.shutdown.Done? ==> Active(s.posts) == {})
    && (s.closed != {} ==> s.shutdown.Closed? || s.shutdown.Done?)
  }

  /** Channels that can still be reached are open ones. */
  ghost predicate OpenChannels(s: Bus) {
    && !s.panicked
    && s.closed <= s.buffers.Keys && AllChans(s.subs) <= s.buffers.Keys && AllChans(s.subs) !! s.closed
    && forall p <- s.posts :: s.posts[p].Sending? ==> s.posts[p].snapshot <= s.buffers.Keys
  }

  /** The history of buffered copies is what the buffers hold. */
  ghost predicate PendingIsBuffered(s: Bus) {
    forall ch, p :: s.pending[(ch, p)] == if ch in s.buffers then multiset(s.buffers[ch])[p] else 0
  }

  /** The processing count, and the conservation of copies. */
  ghost predicate Counts(s: Bus) {
    && s.processing == |s.pending| + |s.held| + |Selecting(s.posts)|
    && s.delivered == s.pending + s.held + s.acked
    && (s.shutdown.Done? ==> s.processing == 0)
  }

  /** How often a post has put its message on a channel, given what is still to do. */
  ghost predicate SentExactly(s: Bus, p: PostId, snapshot: set<Chan>, todo: seq<Chan>) {
    && NoDup(todo) && (forall ch <- todo :: ch in snapshot)
    && forall ch :: s.delivered[(ch, p)] == if ch in snapshot && ch !in todo then 1 else 0
  }

  ghost predicate PostDelivers(s: Bus, p: PostId, st: Post) {
    match st
    case Entered(_) => SentExactly(s, p, {}, [])
    case Sending(snapshot, todo, inSelect) => SentExactly(s, p, snapshot, todo) && (inSelect ==> todo != [])
    case Exiting(snapshot, todo, ok) => SentExactly(s, p, snapshot, todo) && (ok ==> todo == [])
    case Returned(snapshot, todo, ok) => SentExactly(s, p, snapshot, todo) && (ok ==> todo == [])
    case Rejected => SentExactly(s, p, {}, [])
  }

  ghost predicate Deliveries(s: Bus) {
    && (forall p <- s.posts :: PostDelivers(s, p, s.posts[p]))
    && (forall copy <- s.delivered :: copy.1 in s.posts)
  }

  ghost predicate Inv(s: Bus) {
    Phases(s) && OpenChannels(s) && PendingIsBuffered(s) && Counts(s) && Deliveries(s)
  }

  // --- Every step keeps it ---------------------------------------------------------------------

  lemma InitHolds(bufferSize: int)
    ensures Inv(NewBus(bufferSize))
  {
    assert Active(map[]) == {} && Selecting(map[]) == {};
  }

  /** Replacing one post changes the sizes of the two sets by that post only. */
  lemma Replaced(posts: map<PostId, Post>, p: PostId, st: Post)
    ensures |Active(posts[p := st])| == |Active(posts)| + One(IsActive(st)) - One(p in posts && IsActive(posts[p]))
    ensures |Selecting(posts[p := st])| == |Selecting(posts)| + One(InSelect(st)) - One(p in posts && InSelect(posts[p]))
    ensures Active(posts) == {} && !IsActive(st) ==> Active(posts[p := st]) == {}
    ensures p in posts && IsActive(posts[p]) ==> Active(posts) != {}
  {
    assert Active(posts[p := st]) - {p} == Active(posts) - {p};
    assert Selecting(posts[p := st]) - {p} == Selecting(posts) - {p};
    SizeByMember(Active(posts[p := st]), Active(posts), p);
    SizeByMember(Selecting(posts[p := st]), Selecting(posts), p);
  }

  /** A step that moves post p to st and leaves the shutdown state alone. */
  lemma PhasesMove(s: Bus, s': Bus, p: PostId, st: Post)
    requires Phases(s) && s'.posts == s.posts[p := st]
    requires s'.isShutdown == s.isShutdown && s'.signalled == s.signalled && s'.shutdown == s.shutdown && s'.closed == s.closed
    requires s'.active == s.active + One(IsActive(st)) - One(p in s.posts && IsActive(s.posts[p]))
    requires IsActive(st) ==> !s.isShutdown || (p in s.posts && IsActive(s.posts[p]))
    ensures Phases(s')
  {
    hide Active, Selecting;
    Replaced(s.posts, p, st);
  }

  /** The two equations of Counts under a change of each ledger. */
  lemma CountsMove(s: Bus, s': Bus, p: PostId, st: Post, sent: multiset<Copy>)
    requires Counts(s) && Phases(s) && s'.posts == s.posts[p := st] && s'.shutdown == s.shutdown
    requires s'.held == s.held && s'.acked == s.acked
    requires s'.delivered == s.delivered + sent && s'.pending == s.pending + sent
    requires s'.processing == s.processing + |sent| + One(InSelect(st)) - One(p in s.posts && InSelect(s.posts[p]))
    requires (p in s.posts && IsActive(s.posts[p])) || s'.processing == s.processing
    ensures Counts(s')
  {
    hide Active, Selecting;
    Replaced(s.posts, p, st);
  }

  /** The other posts do not notice a step of post p that delivers nothing for them. */
  lemma DeliveriesMove(s: Bus, s': Bus, p: PostId, st: Post)
    requires Deliveries(s) && s'.posts == s.posts[p := st] && PostDelivers(s', p, st)
    requires s.delivered <= s'.delivered
    requires forall copy: Copy :: copy.1 != p ==> s'.delivered[copy] == s.delivered[copy]
    ensures Deliveries(s')
  {
    forall q <- s'.posts ensures PostDelivers(s', q, s'.posts[q]) {
      if q != p {
        assert forall ch :: s'.delivered[(ch, q)] == s.delivered[(ch, q)];
      }
    }
    forall copy <- s'.delivered ensures copy.1 in s'.posts {
      assert copy.1 != p ==> copy in s.delivered;
    }
  }

  lemma NothingDeliveredYet(s: Bus, p: PostId)
    requires Deliveries(s) && p !in s.posts
    ensures SentExactly(s, p, {}, [])
  {
    forall ch ensures s.delivered[(ch, p)] == 0 {
      assert (ch, p) in s.delivered ==> (ch, p).1 in s.posts;
    }
  }

  /** A step that only moves post p, and what it means for the rest of the invariant. */
  lemma MoveKeeps(s: Bus, s': Bus, p: PostId, st: Post)
    requires Inv(s) && s' == s.(posts := s.posts[p := st], active := s'.active, processing := s'.processing)
    requires s'.active == s.active + One(IsActive(st)) - One(p in s.posts && IsActive(s.posts[p]))
    requires s'.processing == s.processing + One(InSelect(st)) - One(p in s.posts && InSelect(s.posts[p]))
    requires IsActive(st) ==> !s.isShutdown || (p in s.posts && IsActive(s.posts[p]))
    requires (p in s.posts && IsActive(s.posts[p])) || s'.processing == s.processing
    requires st.Sending? ==> st.snapshot <= s.buffers.Keys
    requires PostDelivers(s', p, st)
    ensures Inv(s')
  {
    hide Phases, Counts, OpenChannels, PendingIsBuffered, Deliveries, PostDelivers, IsActive, InSelect;
    PhasesMove(s, s', p, st);
    CountsMove(s, s', p, st, multiset{});
    DeliveriesMove(s, s', p, st);
    OpenMove(s, s', p, st);
    PendingSame(s, s');
  }

  lemma OpenMove(s: Bus, s': Bus, p: PostId, st: Post)
    requires OpenChannels(s) && s'.panicked == s.panicked && s'.posts == s.posts[p := st] && s'.subs == s.subs && s'.closed == s.closed
    requires s.buffers.Keys == s'.buffers.Keys && (st.Sending? ==> st.snapshot <= s.buffers.Keys)
    ensures OpenChannels(s')
  {
    hide AllChans;
  }

  lemma PendingSame(s: Bus, s': Bus)
    requires PendingIsBuffered(s) && s'.buffers == s.buffers && s'.pending == s.pending
    ensures PendingIsBuffered(s')
  {
  }

  lemma EnterKeeps(s: Bus, p: PostId, kind: MsgType)
    requires Inv(s) && p !in s.posts
    ensures Inv(DoEnter(s, p, kind))
  {
    hide Active, Selecting, AllChans, Phases, Counts, OpenChannels, PendingIsBuffered;
    NothingDeliveredYet(s, p);
    var s' := DoEnter(s, p, kind);
    assert PostDelivers(s', p, s'.posts[p]);
    MoveKeeps(s, s', p, s'.posts[p]);
  }

  lemma SnapshotKeeps(s: Bus, p: PostId, order: seq<Chan>)
    requires Inv(s) && p in s.posts && s.posts[p].Entered? && NoDup(order)
    requires (set ch | ch in order) == Listening(s.subs, s.posts[p].kind)
    ensures Inv(DoSnapshot(s, p, order))
  {
    hide Only, Aside, Active, Selecting, Phases, Counts, PendingIsBuffered, Listening, AllChans;
    var s' := DoSnapshot(s, p, order);
    assert PostDelivers(s, p, s.posts[p]);
    ListeningSubscribed(s.subs, s.posts[p].kind);
    assert PostDelivers(s', p, s'.posts[p]);
    MoveKeeps(s, s', p, s'.posts[p]);
  }

  /** Begin, GiveUp, Finish and Leave change no ledger of copies. */
  lemma QuietMoveKeeps(s: Bus, a: Step)
    requires Inv(s) && Enabled(s, a) && (a.Begin? || a.GiveUp? || a.Finish? || a.Leave?)
    ensures Inv(Next(s, a))
  {
    hide Active, Selecting, AllChans, Phases, Counts, PendingIsBuffered, NoDup;
    var s' := Next(s, a);
    assert PostDelivers(s, a.p, s.posts[a.p]);
    assert PostDelivers(s', a.p, s'.posts[a.p]);
    MoveKeeps(s, s', a.p, s'.posts[a.p]);
  }

  lemma ActiveMeansOpen(s: Bus, p: PostId)
    requires Phases(s) && p in s.posts && IsActive(s.posts[p])
    ensures s.closed == {}
  {
    assert p in Active(s.posts);
  }

  lemma SendDelivers(s: Bus, s': Bus, p: PostId)
    requires p in s.posts && PostDelivers(s, p, s.posts[p]) && s.posts[p].Sending? && s.posts[p].todo != []
    requires s'.delivered == s.delivered + multiset{(s.posts[p].todo[0], p)}
    ensures PostDelivers(s', p, s.posts[p].(todo := s.posts[p].todo[1..], inSelect := false))
  {
    var todo := s.posts[p].todo;
    assert forall ch :: ch in todo <==> ch == todo[0] || ch in todo[1..];
    assert todo[0] !in todo[1..];
  }

  lemma SendPends(s: Bus, s': Bus, p: PostId, ch: Chan)
    requires PendingIsBuffered(s) && ch in s.buffers
    requires s'.buffers == s.buffers[ch := s.buffers[ch] + [p]] && s'.pending == s.pending + multiset{(ch, p)}
    ensures PendingIsBuffered(s')
  {
    assert multiset(s.buffers[ch] + [p]) == multiset(s.buffers[ch]) + multiset{p};
  }

  lemma SendKeeps(s: Bus, p: PostId)
    requires Inv(s) && Enabled(s, Send(p))
    ensures Inv(DoSend(s, p))
  {
    hide Phases, Counts, OpenChannels, PendingIsBuffered, PostDelivers, Listening, NoDup, SentExactly;
    ActiveMeansOpen(s, p);
    var s' := DoSend(s, p);
    var ch, st := s.posts[p].todo[0], s'.posts[p];
    PhasesMove(s, s', p, st);
    CountsMove(s, s', p, st, multiset{(ch, p)});
    SendDelivers(s, s', p);
    DeliveriesMove(s, s', p, st);
    SnapshotOpen(s, p);
    OpenMove(s, s', p, st);
    SendPends(s, s', p, ch);
  }

  lemma SnapshotOpen(s: Bus, p: PostId)
    requires OpenChannels(s) && p in s.posts && s.posts[p].Sending?
    ensures !s.panicked && s.posts[p].snapshot <= s.buffers.Keys
  {
  }

  /** Steps that leave posts and deliveries alone. */
  lemma SamePosts(s: Bus, s': Bus)
    requires Deliveries(s) && s'.posts == s.posts && s'.delivered == s.delivered
    ensures Deliveries(s')
  {
    forall q <- s'.posts ensures PostDelivers(s', q, s'.posts[q]) {
      assert PostDelivers(s, q, s.posts[q]);
    }
  }

  lemma SubscribeKeeps(s: Bus, kinds: seq<MsgType>, ch: Chan)
    requires Inv(s) && ch !in s.buffers
    ensures Inv(DoSubscribe(s, kinds, ch))
  {
    hide Active, Selecting, Joined, Deliveries, AllChans, Unmoved;
    var s' := DoSubscribe(s, kinds, ch);
    JoinedChans(s.subs, Named(kinds), ch);
    SamePosts(s, s');
    assert s.pending[(ch, 0)] == 0;
  }

  lemma UnsubscribeKeeps(s: Bus, kinds: seq<MsgType>, ch: Chan)
    requires Inv(s)
    ensures Inv(s.(subs := Left(s.subs, kinds, ch)))
  {
    hide Active, Selecting, Left, Deliveries, AllChans;
    LeftChans(s.subs, kinds, ch);
    SamePosts(s, s.(subs := Left(s.subs, kinds, ch)));
  }

  lemma ReceivePends(s: Bus, s': Bus, ch: Chan)
    requires PendingIsBuffered(s) && ch in s.buffers && s.buffers[ch] != []
    requires s'.buffers == s.buffers[ch := s.buffers[ch][1..]] && s'.pending == s.pending - multiset{(ch, s.buffers[ch][0])}
    ensures PendingIsBuffered(s') && (ch, s.buffers[ch][0]) in s.pending
  {
    var list := s.buffers[ch];
    assert list == [list[0]] + list[1..];
    assert multiset(list) == multiset{list[0]} + multiset(list[1..]);
  }

  lemma ReceiveKeeps(s: Bus, ch: Chan)
    requires Inv(s) && ch in s.buffers && s.buffers[ch] != []
    ensures Inv(DoReceive(s, ch))
  {
    hide Active, Selecting, AllChans, Deliveries, PendingIsBuffered;
    var s' := DoReceive(s, ch);
    ReceivePends(s, s', ch);
    SamePosts(s, s');
  }

  lemma AcknowledgeKeeps(s: Bus, copy: Copy)
    requires Inv(s) && copy in s.held
    ensures Inv(DoAcknowledge(s, copy))
  {
    hide Active, Selecting, AllChans, Deliveries, PendingIsBuffered;
    var s' := DoAcknowledge(s, copy);
    SamePosts(s, s');
    PendingSame(s, s');
  }

  /** A move of the shutdown body that fits the phases. */
  lemma StageKeeps(s: Bus, s': Bus)
    requires Inv(s) && s' == s.(isShutdown := s'.isShutdown, signalled := s'.signalled, shutdown := s'.shutdown)
    requires Phases(s') && (s'.shutdown.Done? ==> s.processing == 0)
    ensures Inv(s')
  {
    hide Selecting, AllChans, Deliveries, PendingIsBuffered, Phases;
    SamePosts(s, s');
    PendingSame(s, s');
  }

  lemma ShutdownKeeps(s: Bus, a: Step)
    requires Inv(s) && Enabled(s, a) && (a.SetFlag? || a.Signal? || a.DrainPosts? || a.DrainMessages?)
    ensures Inv(Next(s, a))
  {
    hide Selecting, Active, Counts, OpenChannels, Deliveries, PendingIsBuffered, Listening, NoDup, AllChans,
         DoEnter, DoSnapshot, DoBegin, DoSend, DoGiveUp, DoFinish, DoLeave, DoSubscribe, DoUnsubscribe, DoReceive, DoAcknowledge, DoCloseChannels;
    StageKeeps(s, Next(s, a));
  }

  lemma CloseKeeps(s: Bus)
    requires Inv(s) && s.shutdown == PostsDrained
    ensures Inv(DoCloseChannels(s))
  {
    hide Selecting, Active, AllChans, Deliveries, PendingIsBuffered;
    var s' := DoCloseChannels(s);
    SamePosts(s, s');
    PendingSame(s, s');
    NoChans();
  }

  lemma StepKeepsInv(s: Bus, a: Step)
    requires Inv(s) && Enabled(s, a)
    ensures Inv(Next(s, a))
  {
    hide Inv, DoEnter, DoSnapshot, DoBegin, DoSend, DoGiveUp, DoFinish, DoLeave, DoSubscribe, DoReceive, DoAcknowledge,
         DoCloseChannels, NoDup, Listening, Left;
    match a
    case Enter(p, kind) => EnterKeeps(s, p, kind);
    case Snapshot(p, order) => SnapshotKeeps(s, p, order);
    case Send(p) => SendKeeps(s, p);
    case Subscribe(kinds, ch) => SubscribeKeeps(s, kinds, ch);
    case Unsubscribe(ch) => UnsubscribeKeeps(s, s.types[ch], ch);
    case Receive(ch) => ReceiveKeeps(s, ch);
    case Acknowledge(ch, p) => AcknowledgeKeeps(s, (ch, p));
    case Begin(_) => QuietMoveKeeps(s, a);
    case GiveUp(_, _) => QuietMoveKeeps(s, a);
    case Finish(_) => QuietMoveKeeps(s, a);
    case Leave(_) => QuietMoveKeeps(s, a);
    case CloseChannels => CloseKeeps(s);
    case _ => ShutdownKeeps(s, a);
  }

  // --- Whole runs --------------------------------------------------------------------------------

  /** states[i + 1] results from states[i] by the enabled step steps[i], starting with a new bus. */
  ghost predicate IsRun(bufferSize: int, states: seq<Bus>, steps: seq<Step>) {
    && |states| == |steps| + 1 && states[0] == NewBus(bufferSize)
    && forall i :: 0 <= i < |steps| ==> Enabled(states[i], steps[i]) && states[i + 1] == Next(states[i], steps[i])
  }

  lemma {:induction false} RunKeepsInv(bufferSize: int, states: seq<Bus>, steps: seq<Step>, n: nat)
    requires IsRun(bufferSize, states, steps) && n < |states|
    ensures Inv(states[n])
  {
    hide Inv, Enabled, Next;
    if n == 0 {
      InitHolds(bufferSize);
    } else {
      RunKeepsInv(bufferSize, states, steps, n - 1);
      StepKeepsInv(states[n - 1], steps[n - 1]);
    }
  }

  /**
   In every reachable state: no send on a closed channel and no double close has happened, channels are
   closed only with the flag set and no post active, and the processing count is exactly the copies
   buffered, held by a consumer, or in a select.
   */
  lemma Safety(bufferSize: int, states: seq<Bus>, steps: seq<Step>, n: nat)
    requires IsRun(bufferSize, states, steps) && n < |states|
    ensures var s := states[n];
            && !s.panicked
            && (s.closed != {} ==> s.isShutdown && Active(s.posts) == {})
            && s.processing == |s.pending| + |s.held| + |Selecting(s.posts)| && s.processing >= 0
            && s.active == |Active(s.posts)|
            && s.delivered == s.pending + s.held + s.acked
            && PendingIsBuffered(s)
  {
    hide IsRun, Enabled, Next, Active, Selecting, PendingIsBuffered;
    RunKeepsInv(bufferSize, states, steps, n);
  }

  /** A Post that returned nil put its message exactly once on every channel it saw, and nowhere else. */
  lemma NilMeansDeliveredOnce(bufferSize: int, states: seq<Bus>, steps: seq<Step>, n: nat, p: PostId)
    requires IsRun(bufferSize, states, steps) && n < |states|
    requires p in states[n].posts && states[n].posts[p].Returned?
    ensures var s := states[n];
            var st := s.posts[p];
            && (st.ok ==> forall ch :: s.delivered[(ch, p)] == if ch in st.snapshot then 1 else 0)
            && (!st.ok ==> forall ch :: s.delivered[(ch, p)] <= if ch in st.snapshot then 1 else 0)
  {
    hide IsRun, Enabled, Next, Phases, OpenChannels, Counts;
    RunKeepsInv(bufferSize, states, steps, n);
    assert PostDelivers(states[n], p, states[n].posts[p]);
  }

  lemma NoMembers(list: seq<PostId>)
    ensures (forall p :: multiset(list)[p] == 0) <==> list == []
  {
    assert list != [] ==> list[0] in multiset(list);
  }

  /** When Shutdown has returned, nothing is buffered, nothing is unacknowledged and no post is under way. */
  lemma ShutdownLeavesNothing(bufferSize: int, states: seq<Bus>, steps: seq<Step>, n: nat)
    requires IsRun(bufferSize, states, steps) && n < |states| && states[n].shutdown == Done
    ensures var s := states[n];
            && (forall ch <- s.buffers :: s.buffers[ch] == [])
            && s.held == multiset{} && s.delivered == s.acked && Active(s.posts) == {}
  {
    hide IsRun, Enabled, Next, Active, Selecting;
    RunKeepsInv(bufferSize, states, steps, n);
    var s := states[n];
    assert s.pending == multiset{} && s.held == multiset{};
    forall ch <- s.buffers ensures s.buffers[ch] == [] {
      NoMembers(s.buffers[ch]);
    }
  }
}
