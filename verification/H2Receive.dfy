/**
 Receive-side flow control of the HTTP/2 engine (pkg/customhttp/h2client.go): window bounds,
 the peer's credit, and the cost of window updates.
 */
module H2Receive {
  import opened H2Model
  import opened H2History

  /** One window that is debited by what arrives and refilled to its maximum. */
  ghost predicate WindowOk(window: int, max: int, accepted: int, credited: int, updates: int) {
    && 0 <= window <= max
    && window == max - accepted + credited
    && 0 <= updates && updates * (max - max / 2) <= credited
  }

  ghost predicate StreamOk(r: RecvSide) {
    WindowOk(r.window, STREAM_WINDOW, r.accepted, r.credited, r.updates) && r.accepted <= r.peerSent && r.bodyLen <= MAX_BODY
  }

  ghost predicate ConnOk(q: ConnRecv) {
    WindowOk(q.window, CONN_WINDOW, q.accepted, q.credited, q.updates) && q.accepted + q.direct <= q.peerSent
  }

  ghost predicate RecvInv(c: Conn) {
    ConnOk(c.recv) && forall k :: 0 <= k < |c.objs| ==> StreamOk(c.objs[k].recv)
  }

  /** Accepting len octets and refilling or not. */
  lemma WindowStep(window: int, max: int, accepted: int, credited: int, updates: int, len: int, room: bool)
    requires WindowOk(window, max, accepted, credited, updates) && 0 < len <= window && max > 0
    ensures var up := Refill(window - len, max, room);
            && up >= 0
            && WindowOk(window - len + up, max, accepted + len, credited + up, updates + if up > 0 then 1 else 0)
  {
    var up := Refill(window - len, max, room);
    if up > 0 {
      assert up >= max - max / 2;
      assert (updates + 1) * (max - max / 2) == updates * (max - max / 2) + (max - max / 2);
    }
  }

  lemma DataKeeps(c: Conn, k: nat, len: nat, flow: nat, roomConn: bool, roomStream: bool)
    requires RecvInv(c) && k < |c.objs| && len <= flow
    ensures RecvInv(RecvData(c, k, len, flow, roomConn, roomStream).0)
  {
    hide WindowOk, Refill;
    var r, q := c.objs[k].recv, c.recv;
    assert StreamOk(r);
    Bounds(r, q);
    if r.hasStatus && 0 < len <= q.window && len <= r.window {
      WindowStep(q.window, CONN_WINDOW, q.accepted, q.credited, q.updates, len, roomConn && c.stage.Live?);
      WindowStep(r.window, STREAM_WINDOW, r.accepted, r.credited, r.updates, len, roomStream && c.stage.Live?);
    }
  }

  lemma Bounds(r: RecvSide, q: ConnRecv)
    requires StreamOk(r) && ConnOk(q)
    ensures 0 <= r.window <= STREAM_WINDOW && 0 <= q.window <= CONN_WINDOW
    ensures q.window == CONN_WINDOW - q.accepted + q.credited && r.window == STREAM_WINDOW - r.accepted + r.credited
  {
  }

  /** The receive sides of all objects are what they were, new ones being fresh. */
  lemma RecvSame(c: Conn, c': Conn)
    requires RecvInv(c) && c'.recv == c.recv && |c.objs| <= |c'.objs|
    requires forall k :: 0 <= k < |c.objs| ==> c'.objs[k].recv == c.objs[k].recv
    requires forall k :: |c.objs| <= k < |c'.objs| ==> c'.objs[k].recv == RecvSide(STREAM_WINDOW, false, 0, 0, 0, 0, 0)
    ensures RecvInv(c')
  {
  }

  lemma {:induction false} SettingsLeaveRecv(c: Conn, settings: seq<Setting>)
    ensures var c' := ApplySettings(c, settings).0;
            c'.recv == c.recv && |c'.objs| == |c.objs| && forall k :: 0 <= k < |c.objs| ==> c'.objs[k].recv == c.objs[k].recv
    decreases |settings|
  {
    hide Wrap64;
    if settings != [] {
      SettingsLeaveRecv(ApplySetting(c, settings[0]).0, settings[1..]);
    }
  }

  lemma SendSideKeeps(c: Conn, e: Event)
    requires RecvInv(c) && Possible(c, e) && !e.EData? && !e.EUnknownData? && !e.EStatus? && !e.ESettings?
    ensures RecvInv(Next(c, e))
  {
    hide StreamOk, ConnOk, PlanChunk;
    RecvSame(c, Next(c, e));
  }

  lemma StepKeeps(c: Conn, e: Event)
    requires RecvInv(c) && Possible(c, e)
    ensures RecvInv(Next(c, e))
  {
    hide WindowOk, RecvData, Open, Remove, Finalize, Drain, SendChunk, FailSend, GrantConn, GrantStream, ApplySettings;
    match e
    case EData(k, len, flow, rc, rs) => DataKeeps(c, k, len, flow, rc, rs);
    case ESettings(settings) =>
      SettingsLeaveRecv(c, settings);
      RecvSame(c, Next(c, e));
    case EUnknownData(len, flow) =>
    case EStatus(k) =>
    case _ => SendSideKeeps(c, e);
  }

  lemma {:induction false} RunKeeps(c: Conn, events: seq<Event>, c': Conn)
    requires RecvInv(c) && Leads(c, events, c')
    ensures RecvInv(c')
    decreases |events|
  {
    hide Next, Possible, RecvInv;
    if events != [] {
      StepKeeps(c, events[0]);
      RunKeeps(Next(c, events[0]), events[1..], c');
    }
  }

  lemma ReachesRecvInv(events: seq<Event>, c: Conn)
    requires Reaches(events, c)
    ensures RecvInv(c)
  {
    hide Leads;
    RunKeeps(NewConn(), events, c);
  }

  // --- What it means ---------------------------------------------------------------------------------------

  /** What the peer may still send on the connection: everything ever advertised minus everything it sent. */
  function ConnCredit(events: seq<Event>): int {
    8 * 1024 * 1024 + Total(ConnRefill, NewConn(), events) + Total(HandedBack, NewConn(), events) - Total(ConnFlow, NewConn(), events)
  }

  function StreamCredit(events: seq<Event>, k: nat): int {
    4 * 1024 * 1024 + Total(StreamRefill(k), NewConn(), events) - Total(Flow(k), NewConn(), events)
  }

  /**
   In every run, a frame within the credit advertised to the peer is never answered with a flow-control
   error: the connection survives, and a stream error has another cause.
   */
  lemma ObedientPeerIsSafe(events: seq<Event>, c: Conn, k: nat, len: nat, flow: nat, roomConn: bool, roomStream: bool)
    requires Reaches(events, c) && k < |c.objs| && len <= flow
    requires flow <= ConnCredit(events) && flow <= StreamCredit(events, k)
    ensures var reply := RecvData(c, k, len, flow, roomConn, roomStream).1;
            && reply != ConnError
            && (reply == StreamError ==> EStatus(k) !in events || c.objs[k].recv.bodyLen + len > 32 * 1024 * 1024)
  {
    hide Reaches, WindowOk, Refill, Total;
    ReachesRecvInv(events, c);
    ReceivedIsTotal(events, c, k);
    assert StreamOk(c.objs[k].recv);
    Bounds(c.objs[k].recv, c.recv);
  }

  /**
   In every run the windows are an upper bound of the peer's credit; the gap is exactly what it sent and the
   code never counted: padding and refused frames are not handed back.
   */
  lemma CreditGap(events: seq<Event>, c: Conn, k: nat)
    requires Reaches(events, c) && k < |c.objs|
    ensures c.recv.window - ConnCredit(events)
            == Total(ConnFlow, NewConn(), events) - Total(ConnAccepted, NewConn(), events) - Total(HandedBack, NewConn(), events) >= 0
    ensures c.objs[k].recv.window - StreamCredit(events, k)
            == Total(Flow(k), NewConn(), events) - Total(Accepted(k), NewConn(), events) >= 0
  {
    hide Reaches, Total;
    ReachesRecvInv(events, c);
    ReceivedIsTotal(events, c, k);
    assert StreamOk(c.objs[k].recv);
  }

  /** In every run both windows stay between zero and their maximum. */
  lemma WindowsBounded(events: seq<Event>, c: Conn, k: nat)
    requires Reaches(events, c) && k < |c.objs|
    ensures 0 <= c.recv.window <= 8 * 1024 * 1024 && 0 <= c.objs[k].recv.window <= 4 * 1024 * 1024
    ensures c.objs[k].recv.bodyLen <= 32 * 1024 * 1024
  {
    hide Reaches;
    ReachesRecvInv(events, c);
    assert StreamOk(c.objs[k].recv);
  }

  /** In every run an update costs at least half a window of accepted octets. */
  lemma UpdatesAreRare(events: seq<Event>, c: Conn, k: nat)
    requires Reaches(events, c) && k < |c.objs|
    ensures Total(ConnUpdate, NewConn(), events) * (4 * 1024 * 1024) <= Total(ConnAccepted, NewConn(), events)
    ensures Total(StreamUpdate(k), NewConn(), events) * (2 * 1024 * 1024) <= Total(Accepted(k), NewConn(), events)
  {
    hide Reaches, Total;
    ReachesRecvInv(events, c);
    ReceivedIsTotal(events, c, k);
    assert StreamOk(c.objs[k].recv);
  }
}
