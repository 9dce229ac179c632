/**
 The HTTP/2 connection engine (pkg/customhttp/h2client.go) as a state and its critical
 sections: every function below is what one section under the client's mutex does. Lengths
 are in the code's own accounting, data plus padding octets; the Pad Length octet is not
 counted.
 */
module H2Model {

  type Octets = seq<bv8>

  const MAX_INT64: int := 0x7FFF_FFFF_FFFF_FFFF
  const TWO64: int := 0x1_0000_0000_0000_0000
  const TWO32: int := 0x1_0000_0000
  const TWO31: int := 0x8000_0000

  const DEFAULT_WINDOW := 65535
  const DEFAULT_MAX_FRAME := 16384
  const MAX_MAX_FRAME := 0xFF_FFFF
  const CONN_WINDOW := 8 * 1024 * 1024
  const STREAM_WINDOW := 4 * 1024 * 1024
  const MAX_BODY := 32 * 1024 * 1024

  /** Two's complement addition as int64 does it. */
  function Wrap64(x: int): (r: int)
    ensures -MAX_INT64 - 1 <= r <= MAX_INT64
    ensures -MAX_INT64 - 1 <= x <= MAX_INT64 ==> r == x
  {
    (x + MAX_INT64 + 1) % TWO64 - MAX_INT64 - 1
  }

  /** A queued DATA frame. */
  datatype Chunk = Chunk(data: Octets, pad: nat, endStream: bool)

  /** The goroutine that sends the body of a stream; `Sent` means that every chunk has been queued. */
  datatype Sender = Sending | Sent | Failed

  /** `granted` and `debited` are history: window increments accepted, octets taken from the window. */
  datatype SendSide = SendSide(window: int, body: Octets, rest: Octets, chunks: seq<Chunk>, state: Sender, granted: int, debited: int)

  /** History: octets accepted, refills queued (their sum and number), flow-controlled octets the peer sent. */
  datatype RecvSide = RecvSide(window: int, hasStatus: bool, bodyLen: nat, accepted: nat, credited: nat, updates: nat, peerSent: nat)

  /** `outcomes` counts the sends on DoneChan. */
  datatype Stream = Stream(id: nat, send: SendSide, recv: RecvSide, outcomes: nat)

  /** Progress of the one effective shutdown; `Live` is isConnected. */
  datatype Stage = Live | Halted | Signalled | Down

  /** Connection-level receive accounting; `direct` are updates written straight for unknown streams. */
  datatype ConnRecv = ConnRecv(window: int, accepted: nat, credited: nat, updates: nat, direct: nat, peerSent: nat)

  /**
   Stream objects are numbered in order of allocation and stay in `objs` after they leave the table, as
   their goroutines keep pointers to them. `closes` counts closings of doneChan.
   */
  datatype Conn = Conn(stage: Stage, closes: nat, nextId: nat, objs: seq<Stream>, table: map<nat, nat>,
                       connSend: int, connGranted: int, connDebited: int, initial: int, maxFrame: nat, recv: ConnRecv)

  function NewConn(): Conn {
    Conn(Live, 0, 1, [], map[], DEFAULT_WINDOW, 0, 0, DEFAULT_WINDOW, DEFAULT_MAX_FRAME, ConnRecv(CONN_WINDOW, 0, 0, 0, 0, 0))
  }

  function Bytes(chunks: seq<Chunk>): Octets {
    if chunks == [] then [] else Bytes(chunks[..|chunks| - 1]) + chunks[|chunks| - 1].data
  }

  function Debits(objs: seq<Stream>): int {
    if objs == [] then 0 else Debits(objs[..|objs| - 1]) + objs[|objs| - 1].send.debited
  }

  // --- Opening and closing streams -----------------------------------------------------------------

  function NewStream(id: nat, window: int, body: Octets): Stream {
    Stream(id, SendSide(window, body, body, [], if body == [] then Sent else Sending, 0, 0),
           RecvSide(STREAM_WINDOW, false, 0, 0, 0, 0, 0), 0)
  }

  /** initializeStream; refused once the connection is no longer live. */
  function Open(c: Conn, body: Octets): Conn {
    if !c.stage.Live? then c
    else c.(nextId := (c.nextId + 2) % TWO32, objs := c.objs + [NewStream(c.nextId, c.initial, body)],
            table := c.table[c.nextId := |c.objs|])
  }

  function SetObj(c: Conn, k: nat, st: Stream): Conn
    requires k < |c.objs|
  {
    c.(objs := c.objs[k := st])
  }

  /** The table entry of this very object. */
  predicate InTable(c: Conn, k: nat)
    requires k < |c.objs|
  {
    c.objs[k].id in c.table && c.table[c.objs[k].id] == k
  }

  /** cleanupStream: one outcome for the object the table names, which then leaves it. */
  function Remove(c: Conn, id: nat): Conn {
    if id in c.table && c.table[id] < |c.objs| then
      var k := c.table[id];
      SetObj(c, k, c.objs[k].(outcomes := c.objs[k].outcomes + 1)).(table := c.table - {id})
    else c
  }

  /** finalizeStream for object k: the table is asked for the identifier, the outcome goes to the object. */
  function Finalize(c: Conn, k: nat): Conn
    requires k < |c.objs|
  {
    if c.objs[k].id in c.table then
      SetObj(c, k, c.objs[k].(outcomes := c.objs[k].outcomes + 1)).(table := c.table - {c.objs[k].id})
    else c
  }

  /** First section of shutdown. */
  function Halt(c: Conn): Conn {
    if c.stage.Live? then c.(stage := Halted) else c
  }

  /** Between the two sections: doneChan is closed and the socket shut. */
  function SignalDone(c: Conn): Conn {
    if c.stage.Halted? then c.(stage := Signalled, closes := c.closes + 1) else c
  }

  /** Second section: an outcome for everything still in the table. */
  function Drain(c: Conn): Conn {
    if c.stage.Signalled? then
      c.(stage := Down, table := map[],
         objs := seq(|c.objs|, k requires 0 <= k < |c.objs| =>
                     if InTable(c, k) then c.objs[k].(outcomes := c.objs[k].outcomes + 1) else c.objs[k]))
    else c
  }

  // --- Sending -----------------------------------------------------------------------------------------

  function Min(a: int, b: int): int {
    if a <= b then a else b
  }

  datatype Plan = Blocked | Take(size: nat)

  /** How many octets the next DATA frame carries; len(data) is compared as a uint32. */
  function PlanChunk(left: nat, pad: nat, conn: int, stream: int, maxFrame: nat): (p: Plan)
    ensures p.Take? ==> p.size <= left && p.size + pad <= Min(Min(conn, stream), maxFrame)
    ensures left > 0 && maxFrame > 0 ==> (p.Blocked? <==> pad >= conn || pad >= stream || pad >= maxFrame)
    ensures left > 0 && maxFrame > 0 && p.Take? ==> p.size > 0
    ensures left > 0 && maxFrame > 0 && p.Take? && p.size < left ==> p.size + pad == Min(Min(conn, stream), maxFrame)
  {
    var size := if left % TWO32 > maxFrame then maxFrame else left;
    var limit := Min(Min(conn, stream), maxFrame);
    if size + pad > limit then (if limit - pad <= 0 then Blocked else Take(limit - pad)) else Take(size)
  }

  /**
   One pass of sendData's locked section for object k; pad is what the padding strategy answers. When the
   frame cannot be queued because doneChan is closed, the windows stay debited and the sender fails.
   */
  function SendChunk(c: Conn, k: nat, pad: nat, queued: bool): Conn
    requires k < |c.objs|
  {
    var st := c.objs[k];
    var s := st.send;
    if !s.state.Sending? then c
    else if c.connSend <= 0 || s.window <= 0 then
      if !c.stage.Live? || st.id !in c.table then SetObj(c, k, st.(send := s.(state := Failed))) else c
    else
      match PlanChunk(|s.rest|, pad, c.connSend, s.window, c.maxFrame)
      case Blocked => c
      case Take(n) =>
        var used := n + pad;
        var s' := s.(window := s.window - used, debited := s.debited + used);
        var s'' := if queued then
                     s'.(rest := s.rest[n..], chunks := s.chunks + [Chunk(s.rest[..n], pad, n == |s.rest|)],
                         state := if n == |s.rest| then Sent else Sending)
                   else s'.(state := Failed);
        SetObj(c, k, st.(send := s'')).(connSend := c.connSend - used, connDebited := c.connDebited + used)
  }

  /** The writer reports an error for a queued frame, possibly the last: sendData returns it. */
  function FailSend(c: Conn, k: nat): Conn
    requires k < |c.objs|
  {
    if c.objs[k].send.chunks != [] then SetObj(c, k, c.objs[k].(send := c.objs[k].send.(state := Failed))) else c
  }

  // --- Frames from the peer ------------------------------------------------------------------------------

  datatype Reply = Fine | StreamError | ConnError

  /** WINDOW_UPDATE for the connection. */
  function GrantConn(c: Conn, inc: nat): (Conn, Reply) {
    if inc == 0 || c.connSend > MAX_INT64 - inc then (c, ConnError)
    else (c.(connSend := c.connSend + inc, connGranted := c.connGranted + inc), Fine)
  }

  /** WINDOW_UPDATE for a stream object found in the table earlier. */
  function GrantStream(c: Conn, k: nat, inc: nat): (Conn, Reply)
    requires k < |c.objs|
  {
    var s := c.objs[k].send;
    if inc == 0 then (c, StreamError)
    else if c.objs[k].id !in c.table then (c, Fine)
    else if s.window > MAX_INT64 - inc then (c, StreamError)
    else (SetObj(c, k, c.objs[k].(send := s.(window := s.window + inc, granted := s.granted + inc))), Fine)
  }

  datatype Setting = InitialWindow(val: nat) | MaxFrameSize(val: nat) | OtherSetting

  /** Every stream in the table moves by the difference, in int64 arithmetic. */
  function ShiftAll(c: Conn, delta: int): seq<Stream> {
    seq(|c.objs|, k requires 0 <= k < |c.objs| =>
        if InTable(c, k) then c.objs[k].(send := c.objs[k].send.(window := Wrap64(c.objs[k].send.window + delta))) else c.objs[k])
  }

  /** One entry of a SETTINGS frame; a value of 2^31 or more is negative as an int32. */
  function ApplySetting(c: Conn, s: Setting): (Conn, Reply) {
    match s
    case InitialWindow(v) =>
      if v >= TWO31 then (c, ConnError) else (c.(objs := ShiftAll(c, v - c.initial), initial := v), Fine)
    case MaxFrameSize(v) =>
      if v < DEFAULT_MAX_FRAME || v > MAX_MAX_FRAME then (c, ConnError) else (c.(maxFrame := v), Fine)
    case OtherSetting => (c, Fine)
  }

  /** The entries in order, up to the first bad one. */
  function ApplySettings(c: Conn, settings: seq<Setting>): (Conn, Reply)
    decreases |settings|
  {
    if settings == [] then (c, Fine)
    else
      var (c', r) := ApplySetting(c, settings[0]);
      if r.Fine? then ApplySettings(c', settings[1..]) else (c', r)
  }

  /** maybeSendWindowUpdate: a refill to the maximum once half is used up, if the writer has room. */
  function Refill(window: int, max: int, room: bool): (r: int)
    ensures r >= 0
  {
    if window <= max / 2 && max - window > 0 && room then max - window else 0
  }

  /**
   A DATA frame with `len` data octets and `flow` flow-controlled octets for a known stream object. The two
   flags say whether the write queue has room for the connection's and the stream's update.
   */
  function RecvData(c: Conn, k: nat, len: nat, flow: nat, roomConn: bool, roomStream: bool): (Conn, Reply)
    requires k < |c.objs|
  {
    var r, q := c.objs[k].recv.(peerSent := c.objs[k].recv.peerSent + flow), c.recv.(peerSent := c.recv.peerSent + flow);
    var seen := SetObj(c, k, c.objs[k].(recv := r)).(recv := q);
    if !r.hasStatus then (seen, StreamError)
    else if len == 0 then (seen, Fine)
    else if q.window < len then (seen, ConnError)
    else if r.window < len then (seen, StreamError)
    else
      var cu := Refill(q.window - len, CONN_WINDOW, roomConn && c.stage.Live?);
      var su := Refill(r.window - len, STREAM_WINDOW, roomStream && c.stage.Live?);
      var fits := r.bodyLen + len <= MAX_BODY;
      var q' := q.(window := q.window - len + cu, accepted := q.accepted + len, credited := q.credited + (if cu > 0 then cu else 0),
                   updates := q.updates + if cu > 0 then 1 else 0);
      var r' := r.(window := r.window - len + su, accepted := r.accepted + len, credited := r.credited + (if su > 0 then su else 0),
                   updates := r.updates + (if su > 0 then 1 else 0), bodyLen := if fits then r.bodyLen + len else r.bodyLen);
      (SetObj(c, k, c.objs[k].(recv := r')).(recv := q'), if fits then Fine else StreamError)
  }

  /** DATA for a stream that is not in the table: the octets are handed back at once. */
  function RecvUnknown(c: Conn, len: nat, flow: nat): Conn {
    c.(recv := c.recv.(peerSent := c.recv.peerSent + flow, direct := c.recv.direct + if c.stage.Live? then len else 0))
  }

  /** Response headers arrived. */
  function GotStatus(c: Conn, k: nat): Conn
    requires k < |c.objs|
  {
    SetObj(c, k, c.objs[k].(recv := c.objs[k].recv.(hasStatus := true)))
  }

  // --- Events and runs -------------------------------------------------------------------------------------

  datatype Event =
    | EOpen(body: Octets) | ERemove(id: nat) | EFinalize(k: nat) | EHalt | ESignal | EDrain
    | ESendChunk(k: nat, pad: nat, queued: bool) | EFailSend(k: nat)
    | EGrantConn(inc: nat) | EGrantStream(k: nat, inc: nat) | ESettings(settings: seq<Setting>)
    | EData(k: nat, len: nat, flow: nat, roomConn: bool, roomStream: bool) | EUnknownData(len: nat, flow: nat) | EStatus(k: nat)

  /** Goroutines hold objects that exist; padding is one octet; increments have 31 bits; padding only adds to a frame's length. */
  predicate Possible(c: Conn, e: Event) {
    match e
    case ESendChunk(k, pad, queued) => k < |c.objs| && pad < 256 && (!queued ==> c.stage.Signalled? || c.stage.Down?)
    case EFailSend(k) => k < |c.objs|
    case EFinalize(k) => k < |c.objs|
    case EGrantConn(inc) => inc < TWO31
    case EGrantStream(k, inc) => k < |c.objs| && inc < TWO31
    case EData(k, len, flow, _, _) => k < |c.objs| && len <= flow
    case EUnknownData(len, flow) => len <= flow
    case EStatus(k) => k < |c.objs|
    case _ => true
  }

  function Next(c: Conn, e: Event): Conn
    requires Possible(c, e)
  {
    match e
    case EOpen(body) => Open(c, body)
    case ERemove(id) => Remove(c, id)
    case EFinalize(k) => Finalize(c, k)
    case EHalt => Halt(c)
    case ESignal => SignalDone(c)
    case EDrain => Drain(c)
    case ESendChunk(k, pad, queued) => SendChunk(c, k, pad, queued)
    case EFailSend(k) => FailSend(c, k)
    case EGrantConn(inc) => GrantConn(c, inc).0
    case EGrantStream(k, inc) => GrantStream(c, k, inc).0
    case ESettings(settings) => ApplySettings(c, settings).0
    case EData(k, len, flow, rc, rs) => RecvData(c, k, len, flow, rc, rs).0
    case EUnknownData(len, flow) => RecvUnknown(c, len, flow)
    case EStatus(k) => GotStatus(c, k)
  }

  /** The events, each possible when it happens, lead from c to c'. */
  predicate Leads(c: Conn, events: seq<Event>, c': Conn)
    decreases |events|
  {
    if events == [] then c == c' else Possible(c, events[0]) && Leads(Next(c, events[0]), events[1..], c')
  }

  /** c is the state after some run of a new connection. */
  predicate Reaches(events: seq<Event>, c: Conn) {
    Leads(NewConn(), events, c)
  }
}
