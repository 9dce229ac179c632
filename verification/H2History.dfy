/**
 What a run of the HTTP/2 engine (pkg/customhttp/h2client.go) amounts to, read off its events: the
 increments the peer granted, the octets the frames carried, the settings in force, the bodies handed
 in, and the octets received, accepted and handed back. The histories inside the state are shown to
 be these sums, so a law stated with them is a law about the events.
 */
module H2History {
  import opened H2Model

  type Amount = (Conn, Event) -> int

  /** The sum of an amount over the events of a run. */
  function Total(f: Amount, c: Conn, events: seq<Event>): int
    decreases |events|
  {
    if events == [] || !Possible(c, events[0]) then 0 else f(c, events[0]) + Total(f, Next(c, events[0]), events[1..])
  }

  /** A quantity that every section changes by the amount has changed by the sum. */
  lemma {:induction false} Telescopes(g: Conn -> int, f: Amount, c: Conn, events: seq<Event>, c': Conn)
    requires Leads(c, events, c')
    requires forall d, e :: Possible(d, e) ==> g(Next(d, e)) == g(d) + f(d, e)
    ensures g(c') == g(c) + Total(f, c, events)
    decreases |events|
  {
    hide Next, Possible;
    if events != [] {
      Telescopes(g, f, Next(c, events[0]), events[1..], c');
    }
  }

  // --- Granted -----------------------------------------------------------------------------------------------

  /** An increment of the connection window counts unless it would overflow an int64. */
  function ConnIncrement(c: Conn, e: Event): int {
    match e
    case EGrantConn(inc) => if c.connSend + inc <= 0x7FFF_FFFF_FFFF_FFFF then inc else 0
    case _ => 0
  }

  /** An increment of a stream's window counts while its identifier is in the table, with the same guard. */
  function StreamIncrement(k: nat): Amount {
    (c: Conn, e: Event) =>
      match e
      case EGrantStream(j, inc) =>
        if j == k < |c.objs| && c.objs[k].id in c.table && c.objs[k].send.window + inc <= 0x7FFF_FFFF_FFFF_FFFF then inc else 0
      case _ => 0
  }

  function GrantedTo(k: nat): Conn -> int {
    (c: Conn) => if k < |c.objs| then c.objs[k].send.granted else 0
  }

  lemma SettingsGrantNothing(c: Conn, settings: seq<Setting>)
    ensures var c' := ApplySettings(c, settings).0;
            && c'.connGranted == c.connGranted && c'.recv == c.recv && c'.stage == c.stage && |c'.objs| == |c.objs|
            && forall k :: 0 <= k < |c.objs| ==>
                             c'.objs[k] == c.objs[k].(send := c.objs[k].send.(window := c'.objs[k].send.window))
    decreases |settings|
  {
    hide Wrap64;
    if settings != [] {
      SettingsGrantNothing(ApplySetting(c, settings[0]).0, settings[1..]);
    }
  }

  lemma GrantStep(c: Conn, e: Event, k: nat)
    requires Possible(c, e)
    ensures Next(c, e).connGranted == c.connGranted + ConnIncrement(c, e)
    ensures GrantedTo(k)(Next(c, e)) == GrantedTo(k)(c) + StreamIncrement(k)(c, e)
  {
    hide PlanChunk, Refill, ApplySettings, Wrap64;
    if e.ESettings? {
      SettingsGrantNothing(c, e.settings);
    }
  }

  /** The histories of grants are the sums of the increments that counted. */
  lemma GrantedIsTotal(events: seq<Event>, c: Conn, k: nat)
    requires Reaches(events, c) && k < |c.objs|
    ensures c.connGranted == Total(ConnIncrement, NewConn(), events)
    ensures c.objs[k].send.granted == Total(StreamIncrement(k), NewConn(), events)
  {
    hide Next, Possible, Leads;
    ConnGrantedIsTotal(events, c);
    forall d, e | Possible(d, e) ensures GrantedTo(k)(Next(d, e)) == GrantedTo(k)(d) + StreamIncrement(k)(d, e) {
      GrantStep(d, e, k);
    }
    Telescopes(GrantedTo(k), StreamIncrement(k), NewConn(), events, c);
  }

  lemma ConnGrantedIsTotal(events: seq<Event>, c: Conn)
    requires Reaches(events, c)
    ensures c.connGranted == Total(ConnIncrement, NewConn(), events)
  {
    hide Next, Possible, Leads;
    var g := (d: Conn) => d.connGranted;
    forall d, e | Possible(d, e) ensures g(Next(d, e)) == g(d) + ConnIncrement(d, e) {
      GrantStep(d, e, 0);
    }
    Telescopes(g, ConnIncrement, NewConn(), events, c);
  }

  // --- Carried ------------------------------------------------------------------------------------------------

  /** Data and padding octets of queued frames. */
  function Carried(chunks: seq<Chunk>): int {
    if chunks == [] then 0
    else Carried(chunks[..|chunks| - 1]) + |chunks[|chunks| - 1].data| + chunks[|chunks| - 1].pad
  }

  /** Octets taken from the windows for a frame that could not be queued any more. */
  function Unqueued(s: SendSide): int {
    s.debited - Carried(s.chunks)
  }

  /** At most one frame is lost, and only on a connection whose end has been signalled. */
  ghost predicate Accounted(c: Conn, s: SendSide) {
    && 0 <= Unqueued(s) <= 0xFF_FFFF
    && (Unqueued(s) > 0 ==> s.state.Failed? && (c.stage.Signalled? || c.stage.Down?))
  }

  ghost predicate AllAccounted(c: Conn) {
    c.maxFrame <= 0xFF_FFFF && forall k :: 0 <= k < |c.objs| ==> Accounted(c, c.objs[k].send)
  }

  lemma CarriedMore(chunks: seq<Chunk>, chunk: Chunk)
    ensures Carried(chunks + [chunk]) == Carried(chunks) + |chunk.data| + chunk.pad
  {
    assert (chunks + [chunk])[..|chunks|] == chunks;
  }

  lemma SendAccounts(c: Conn, k: nat, pad: nat, queued: bool)
    requires AllAccounted(c) && Possible(c, ESendChunk(k, pad, queued))
    ensures AllAccounted(SendChunk(c, k, pad, queued))
  {
    hide Carried, PlanChunk;
    var c', s := SendChunk(c, k, pad, queued), c.objs[k].send;
    var s' := c'.objs[k].send;
    assert Accounted(c, s);
    if s'.chunks != s.chunks {
      CarriedMore(s.chunks, s'.chunks[|s.chunks|]);
    }
    forall j | 0 <= j < |c'.objs| ensures Accounted(c', c'.objs[j].send) {
      assert Accounted(c, c.objs[j].send);
    }
  }

  lemma {:induction false} SettingsAccount(c: Conn, settings: seq<Setting>)
    requires AllAccounted(c)
    ensures AllAccounted(ApplySettings(c, settings).0)
    decreases |settings|
  {
    hide Wrap64, Carried;
    if settings != [] {
      var c' := ApplySetting(c, settings[0]).0;
      forall j | 0 <= j < |c'.objs| ensures Accounted(c', c'.objs[j].send) {
        assert Accounted(c, c.objs[j].send);
      }
      SettingsAccount(c', settings[1..]);
    }
  }

  lemma StepAccounts(c: Conn, e: Event)
    requires AllAccounted(c) && Possible(c, e)
    ensures AllAccounted(Next(c, e))
  {
    hide Carried, SendChunk, ApplySettings, RecvData, AllAccounted, Accounted;
    match e
    case ESendChunk(k, pad, queued) => SendAccounts(c, k, pad, queued);
    case ESettings(settings) => SettingsAccount(c, settings);
    case _ => OtherAccounts(c, e);
  }

  lemma OtherAccounts(c: Conn, e: Event)
    requires AllAccounted(c) && Possible(c, e) && !e.ESendChunk? && !e.ESettings?
    ensures AllAccounted(Next(c, e))
  {
    hide Refill;
    var c' := Next(c, e);
    forall j | 0 <= j < |c'.objs| ensures Accounted(c', c'.objs[j].send) {
      if j < |c.objs| {
        assert Accounted(c, c.objs[j].send);
      }
    }
  }

  lemma {:induction false} RunAccounts(c: Conn, events: seq<Event>, c': Conn)
    requires AllAccounted(c) && Leads(c, events, c')
    ensures AllAccounted(c')
    decreases |events|
  {
    hide Next, Possible, AllAccounted;
    if events != [] {
      StepAccounts(c, events[0]);
      RunAccounts(Next(c, events[0]), events[1..], c');
    }
  }

  /** In every run the octets debited from a stream are those its queued frames carry, but for one lost frame at the end. */
  lemma DebitedIsCarried(events: seq<Event>, c: Conn, k: nat)
    requires Reaches(events, c) && k < |c.objs|
    ensures 0 <= Unqueued(c.objs[k].send) <= 0xFF_FFFF
    ensures Unqueued(c.objs[k].send) > 0 ==> c.objs[k].send.state.Failed? && (c.stage.Signalled? || c.stage.Down?)
  {
    hide Leads;
    RunAccounts(NewConn(), events, c);
    assert Accounted(c, c.objs[k].send);
  }

  // --- Settings in force and bodies handed in -------------------------------------------------------------------------

  datatype InForce = InForce(window: nat, frame: nat)

  /** One SETTINGS frame: entry by entry, up to the first that section 6.5.2 of RFC 9113 rules out. */
  function AfterSettings(p: InForce, settings: seq<Setting>): InForce
    decreases |settings|
  {
    if settings == [] then p else
    match settings[0]
    case InitialWindow(v) => if v > 0x7FFF_FFFF then p else AfterSettings(p.(window := v), settings[1..])
    case MaxFrameSize(v) => if 16384 <= v <= 16777215 then AfterSettings(p.(frame := v), settings[1..]) else p
    case OtherSetting => AfterSettings(p, settings[1..])
  }

  function AfterEvents(p: InForce, events: seq<Event>): InForce
    decreases |events|
  {
    if events == [] then p
    else AfterEvents(if events[0].ESettings? then AfterSettings(p, events[0].settings) else p, events[1..])
  }

  lemma {:induction false} SettingsInForce(c: Conn, settings: seq<Setting>)
    requires c.initial >= 0
    ensures var c' := ApplySettings(c, settings).0;
            c'.initial >= 0 && InForce(c'.initial, c'.maxFrame) == AfterSettings(InForce(c.initial, c.maxFrame), settings)
    decreases |settings|
  {
    hide ShiftAll;
    if settings != [] {
      SettingsInForce(ApplySetting(c, settings[0]).0, settings[1..]);
    }
  }

  lemma ForceStep(c: Conn, e: Event)
    requires Possible(c, e) && c.initial >= 0
    ensures var c', p := Next(c, e), InForce(c.initial, c.maxFrame);
            && c'.initial >= 0
            && InForce(c'.initial, c'.maxFrame) == if e.ESettings? then AfterSettings(p, e.settings) else p
  {
    hide ApplySettings, PlanChunk, Refill, AfterSettings;
    if e.ESettings? {
      SettingsInForce(c, e.settings);
    }
  }

  lemma {:induction false} RunForce(c: Conn, events: seq<Event>, c': Conn)
    requires Leads(c, events, c') && c.initial >= 0
    ensures c'.initial >= 0 && InForce(c'.initial, c'.maxFrame) == AfterEvents(InForce(c.initial, c.maxFrame), events)
    decreases |events|
  {
    hide Next, Possible, AfterSettings;
    if events != [] {
      ForceStep(c, events[0]);
      RunForce(Next(c, events[0]), events[1..], c');
    }
  }

  /** In every run the initial window and the frame limit are the last ones validly announced. */
  lemma LastAnnounced(events: seq<Event>, c: Conn)
    requires Reaches(events, c)
    ensures c.initial >= 0 && InForce(c.initial, c.maxFrame) == AfterEvents(InForce(65535, 16384), events)
  {
    hide Leads;
    RunForce(NewConn(), events, c);
  }

  /** The bodies of the requests made before the connection is stopped. */
  function Bodies(events: seq<Event>): seq<Octets>
    decreases |events|
  {
    if events == [] || events[0].EHalt? then []
    else (if events[0].EOpen? then [events[0].body] else []) + Bodies(events[1..])
  }

  function BodiesOf(c: Conn): seq<Octets> {
    seq(|c.objs|, k requires 0 <= k < |c.objs| => c.objs[k].send.body)
  }

  lemma BodyStep(c: Conn, e: Event)
    requires Possible(c, e)
    ensures BodiesOf(Next(c, e)) == BodiesOf(c) + if e.EOpen? && c.stage.Live? then [e.body] else []
    ensures Next(c, e).stage.Live? <==> c.stage.Live? && !e.EHalt?
  {
    hide ApplySettings, PlanChunk, Refill;
    if e.ESettings? {
      SettingsGrantNothing(c, e.settings);
    }
  }

  lemma {:induction false} RunBodies(c: Conn, events: seq<Event>, c': Conn)
    requires Leads(c, events, c')
    ensures BodiesOf(c') == BodiesOf(c) + if c.stage.Live? then Bodies(events) else []
    decreases |events|
  {
    hide Next, Possible, BodiesOf;
    if events != [] {
      var e, now := events[0], BodiesOf(c);
      BodyStep(c, e);
      RunBodies(Next(c, e), events[1..], c');
      if c.stage.Live? && e.EOpen? {
        assert now + [e.body] + Bodies(events[1..]) == now + ([e.body] + Bodies(events[1..]));
      }
    }
  }

  lemma {:induction false} RunLive(c: Conn, events: seq<Event>, c': Conn)
    requires Leads(c, events, c')
    ensures c'.stage.Live? <==> c.stage.Live? && forall e <- events :: !e.EHalt?
    decreases |events|
  {
    hide Next, Possible, BodiesOf;
    if events != [] {
      BodyStep(c, events[0]);
      RunLive(Next(c, events[0]), events[1..], c');
      assert forall e :: e in events <==> e == events[0] || e in events[1..];
    }
  }

  /** In every run the k-th stream has the k-th body handed in, and the connection is live until it is stopped. */
  lemma BodiesHandedIn(events: seq<Event>, c: Conn)
    requires Reaches(events, c)
    ensures |c.objs| == |Bodies(events)| && forall k :: 0 <= k < |c.objs| ==> c.objs[k].send.body == Bodies(events)[k]
    ensures c.stage.Live? <==> forall e <- events :: !e.EHalt?
  {
    hide Leads, Bodies;
    RunBodies(NewConn(), events, c);
    RunLive(NewConn(), events, c);
    assert BodiesOf(NewConn()) == [];
    assert BodiesOf(c) == Bodies(events);
    forall k | 0 <= k < |c.objs| ensures c.objs[k].send.body == Bodies(events)[k] {
      assert BodiesOf(c)[k] == c.objs[k].send.body;
    }
  }

  // --- Received -----------------------------------------------------------------------------------------------------

  /** DATA is accepted after the response headers, within both windows. */
  predicate Accepts(c: Conn, k: nat, len: nat) {
    k < |c.objs| && c.objs[k].recv.hasStatus && len <= c.recv.window && len <= c.objs[k].recv.window
  }

  /** What a window of this size gets back: all that is missing, once half of it is used up. */
  function Missing(window: int, max: int, room: bool): int {
    if 2 * window <= max && room then max - window else 0
  }

  function ConnFlow(c: Conn, e: Event): int {
    match e case EData(_, _, flow, _, _) => flow case EUnknownData(_, flow) => flow case _ => 0
  }

  function ConnAccepted(c: Conn, e: Event): int {
    match e case EData(k, len, _, _, _) => if Accepts(c, k, len) then len else 0 case _ => 0
  }

  function ConnRefill(c: Conn, e: Event): int {
    match e
    case EData(k, len, _, room, _) =>
      if len > 0 && Accepts(c, k, len) then Missing(c.recv.window - len, 8 * 1024 * 1024, room && c.stage.Live?) else 0
    case _ => 0
  }

  function ConnUpdate(c: Conn, e: Event): int {
    if ConnRefill(c, e) > 0 then 1 else 0
  }

  /** DATA for unknown streams is handed back while the connection is live. */
  function HandedBack(c: Conn, e: Event): int {
    match e case EUnknownData(len, _) => if c.stage.Live? then len else 0 case _ => 0
  }

  function Flow(k: nat): Amount {
    (c: Conn, e: Event) => match e case EData(j, _, flow, _, _) => if j == k then flow else 0 case _ => 0
  }

  function Accepted(k: nat): Amount {
    (c: Conn, e: Event) => match e case EData(j, len, _, _, _) => if j == k && Accepts(c, k, len) then len else 0 case _ => 0
  }

  function StreamRefill(k: nat): Amount {
    (c: Conn, e: Event) =>
      match e
      case EData(j, len, _, _, room) =>
        if j == k && len > 0 && Accepts(c, k, len)
        then Missing(c.objs[k].recv.window - len, 4 * 1024 * 1024, room && c.stage.Live?) else 0
      case _ => 0
  }

  function StreamUpdate(k: nat): Amount {
    (c: Conn, e: Event) => if StreamRefill(k)(c, e) > 0 then 1 else 0
  }

  function RecvOf(k: nat): Conn -> RecvSide {
    (c: Conn) => if k < |c.objs| then c.objs[k].recv else RecvSide(STREAM_WINDOW, false, 0, 0, 0, 0, 0)
  }

  /** Both windows are within their maximum, so that nothing is missing from a full one. */
  ghost predicate Bounded(c: Conn) {
    c.recv.window <= 8 * 1024 * 1024 && forall k :: 0 <= k < |c.objs| ==> c.objs[k].recv.window <= 4 * 1024 * 1024
  }

  lemma ConnDataStep(c: Conn, e: Event)
    requires Bounded(c) && Possible(c, e) && (e.EData? || e.EUnknownData?)
    ensures Bounded(Next(c, e))
    ensures var q, q' := c.recv, Next(c, e).recv;
            && q'.peerSent == q.peerSent + ConnFlow(c, e) && q'.accepted == q.accepted + ConnAccepted(c, e)
            && q'.credited == q.credited + ConnRefill(c, e) && q'.updates == q.updates + ConnUpdate(c, e)
            && q'.direct == q.direct + HandedBack(c, e)
  {
    if e.EData? {
      assert c.objs[e.k].recv.window <= 4 * 1024 * 1024;
    }
  }

  lemma StreamDataStep(c: Conn, e: Event, k: nat)
    requires Bounded(c) && Possible(c, e) && (e.EData? || e.EUnknownData?)
    ensures var r, r' := RecvOf(k)(c), RecvOf(k)(Next(c, e));
            && r'.peerSent == r.peerSent + Flow(k)(c, e) && r'.accepted == r.accepted + Accepted(k)(c, e)
            && r'.credited == r.credited + StreamRefill(k)(c, e) && r'.updates == r.updates + StreamUpdate(k)(c, e)
            && r'.hasStatus == r.hasStatus
  {
    if e.EData? {
      assert c.objs[e.k].recv.window <= 4 * 1024 * 1024;
    }
  }

  lemma QuietStep(c: Conn, e: Event, k: nat)
    requires Bounded(c) && Possible(c, e) && !e.EData? && !e.EUnknownData?
    ensures Bounded(Next(c, e)) && Next(c, e).recv == c.recv
    ensures RecvOf(k)(Next(c, e)) == RecvOf(k)(c).(hasStatus := RecvOf(k)(c).hasStatus || e == EStatus(k))
  {
    hide PlanChunk, ApplySettings;
    if e.ESettings? {
      SettingsGrantNothing(c, e.settings);
    }
  }

  /** What arrived on the connection between two states, in sums over the events. */
  ghost predicate ConnReceived(c: Conn, events: seq<Event>, c': Conn) {
    var q, q' := c.recv, c'.recv;
    && q'.peerSent == q.peerSent + Total(ConnFlow, c, events) && q'.accepted == q.accepted + Total(ConnAccepted, c, events)
    && q'.credited == q.credited + Total(ConnRefill, c, events) && q'.updates == q.updates + Total(ConnUpdate, c, events)
    && q'.direct == q.direct + Total(HandedBack, c, events)
  }

  ghost predicate StreamReceived(c: Conn, events: seq<Event>, c': Conn, k: nat) {
    var r, r' := RecvOf(k)(c), RecvOf(k)(c');
    && r'.peerSent == r.peerSent + Total(Flow(k), c, events) && r'.accepted == r.accepted + Total(Accepted(k), c, events)
    && r'.credited == r.credited + Total(StreamRefill(k), c, events) && r'.updates == r.updates + Total(StreamUpdate(k), c, events)
    && (r'.hasStatus <==> r.hasStatus || EStatus(k) in events)
  }

  lemma OneReceives(c: Conn, events: seq<Event>, c': Conn, k: nat)
    requires events != [] && Bounded(c) && Possible(c, events[0])
    requires ConnReceived(Next(c, events[0]), events[1..], c') && StreamReceived(Next(c, events[0]), events[1..], c', k)
    ensures Bounded(Next(c, events[0])) && ConnReceived(c, events, c') && StreamReceived(c, events, c', k)
  {
    hide Next, Possible, Bounded, RecvOf, Accepts, Missing;
    var e := events[0];
    if e.EData? || e.EUnknownData? {
      ConnDataStep(c, e);
      StreamDataStep(c, e, k);
    } else {
      QuietStep(c, e, k);
    }
  }

  lemma {:induction false} RunReceives(c: Conn, events: seq<Event>, c': Conn, k: nat)
    requires Leads(c, events, c') && Bounded(c)
    ensures ConnReceived(c, events, c') && StreamReceived(c, events, c', k)
    decreases |events|
  {
    hide Next, Possible, Bounded, RecvOf;
    if events != [] {
      if events[0].EData? || events[0].EUnknownData? {
        ConnDataStep(c, events[0]);
      } else {
        QuietStep(c, events[0], k);
      }
      RunReceives(Next(c, events[0]), events[1..], c', k);
      OneReceives(c, events, c', k);
    }
  }

  /** In every run the histories of the receive side are what the events say. */
  lemma ReceivedIsTotal(events: seq<Event>, c: Conn, k: nat)
    requires Reaches(events, c) && k < |c.objs|
    ensures c.recv.peerSent == Total(ConnFlow, NewConn(), events) && c.recv.accepted == Total(ConnAccepted, NewConn(), events)
    ensures c.recv.credited == Total(ConnRefill, NewConn(), events) && c.recv.updates == Total(ConnUpdate, NewConn(), events)
    ensures c.recv.direct == Total(HandedBack, NewConn(), events)
    ensures var r := c.objs[k].recv;
            && r.peerSent == Total(Flow(k), NewConn(), events) && r.accepted == Total(Accepted(k), NewConn(), events)
            && r.credited == Total(StreamRefill(k), NewConn(), events) && r.updates == Total(StreamUpdate(k), NewConn(), events)
            && (r.hasStatus <==> EStatus(k) in events)
  {
    hide Leads, Total;
    RunReceives(NewConn(), events, c, k);
  }
}
