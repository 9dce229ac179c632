/**
 Send-side flow control of the HTTP/2 engine (pkg/customhttp/h2client.go): the window ledger
 through retroactive SETTINGS changes (section 6.9.2 of RFC 9113), conservation between the
 two levels, and the integrity of the chunked body.
 */
module H2Send {
  import opened H2Model
  import opened H2History

  // --- int64 arithmetic ------------------------------------------------------------------------------

  lemma WrapAdd(x: int, y: int)
    ensures Wrap64(Wrap64(x) + y) == Wrap64(x + y)
  {
    var m := MAX_INT64 + 1;
    var q := (x + m) / TWO64;
    assert x + m == q * TWO64 + (x + m) % TWO64;
    assert Wrap64(x) + y + m == x + y + m - q * TWO64;
    ModShift(x + y + m, q);
  }

  lemma ModShift(a: int, q: int)
    ensures (a - q * TWO64) % TWO64 == a % TWO64
  {
    var p := a / TWO64;
    assert a - q * TWO64 == (p - q) * TWO64 + a % TWO64;
  }

  /** A non-negative window that came from a total not far below zero stays in step when it is debited. */
  lemma WrapDebit(total: int, used: int)
    requires total >= -TWO31 && 0 <= used <= Wrap64(total)
    ensures total - used >= 0 && Wrap64(total - used) == Wrap64(total) - used
  {
    WrapAdd(total, -used);
    var m := MAX_INT64 + 1;
    var q := (total + m) / TWO64;
    assert total + m == q * TWO64 + (total + m) % TWO64;
    assert total == Wrap64(total) + q * TWO64;
    assert q >= 0;
  }

  // --- Invariant ---------------------------------------------------------------------------------------

  /** The queued chunks and what is left make up the body; END_STREAM marks the last chunk and nothing else. */
  ghost predicate ChunksOk(s: SendSide) {
    && Bytes(s.chunks) + s.rest == s.body
    && (forall i :: 0 <= i < |s.chunks| ==> s.chunks[i].data != [])
    && (forall i :: 0 <= i < |s.chunks| ==> (s.chunks[i].endStream <==> i == |s.chunks| - 1 && s.rest == []))
    && (s.state.Sending? ==> s.rest != []) && (s.state.Sent? ==> s.rest == [])
  }

  /** What SETTINGS, increments and sent octets add up to. */
  function Ledger(c: Conn, s: SendSide): int {
    c.initial + s.granted - s.debited
  }

  ghost predicate WindowOk(c: Conn, k: nat)
    requires k < |c.objs|
  {
    var s := c.objs[k].send;
    && -MAX_INT64 - 1 <= s.window <= MAX_INT64 && s.granted >= 0 && s.debited >= 0
    && (InTable(c, k) ==> s.window == Wrap64(Ledger(c, s)) && s.granted - s.debited > -TWO31)
  }

  ghost predicate ConnOk(c: Conn) {
    && 0 <= c.connSend <= MAX_INT64 && c.connSend == DEFAULT_WINDOW + c.connGranted - c.connDebited
    && 0 <= c.initial < TWO31 && DEFAULT_MAX_FRAME <= c.maxFrame <= MAX_MAX_FRAME
    && c.connDebited == Debits(c.objs)
  }

  ghost predicate TableOk(c: Conn) {
    forall id <- c.table :: c.table[id] < |c.objs| && c.objs[c.table[id]].id == id
  }

  ghost predicate SendInv(c: Conn) {
    && ConnOk(c) && TableOk(c)
    && (forall k :: 0 <= k < |c.objs| ==> WindowOk(c, k))
    && (forall k :: 0 <= k < |c.objs| ==> ChunksOk(c.objs[k].send))
  }

  // --- Ledger sums ---------------------------------------------------------------------------------------

  lemma {:induction false} DebitsUpdate(objs: seq<Stream>, k: nat, st: Stream)
    requires k < |objs|
    ensures Debits(objs[k := st]) == Debits(objs) - objs[k].send.debited + st.send.debited
  {
    var n := |objs| - 1;
    if k == n {
      assert objs[k := st][..n] == objs[..n];
    } else {
      assert objs[k := st][..n] == objs[..n][k := st];
      DebitsUpdate(objs[..n], k, st);
    }
  }

  lemma {:induction false} DebitsSame(a: seq<Stream>, b: seq<Stream>)
    requires |a| == |b| && forall k :: 0 <= k < |a| ==> a[k].send.debited == b[k].send.debited
    ensures Debits(a) == Debits(b)
  {
    if a != [] {
      DebitsSame(a[..|a| - 1], b[..|b| - 1]);
    }
  }

  // --- Steps -------------------------------------------------------------------------------------------------

  /** Steps that touch no send window, no body and only shrink the table. */
  lemma SendSame(c: Conn, c': Conn)
    requires SendInv(c)
    requires c'.connSend == c.connSend && c'.connGranted == c.connGranted && c'.connDebited == c.connDebited
    requires c'.initial == c.initial && c'.maxFrame == c.maxFrame && |c'.objs| == |c.objs|
    requires forall k :: 0 <= k < |c.objs| ==> c'.objs[k].send == c.objs[k].send && c'.objs[k].id == c.objs[k].id
    requires forall id <- c'.table :: id in c.table && c'.table[id] == c.table[id]
    ensures SendInv(c')
  {
    hide ChunksOk, Wrap64;
    DebitsSame(c.objs, c'.objs);
    forall k | 0 <= k < |c'.objs| ensures WindowOk(c', k) {
      assert WindowOk(c, k);
    }
  }

  /** Steps that replace the send side of one object. */
  lemma SendReplaced(c: Conn, c': Conn, k: nat, s: SendSide)
    requires SendInv(c) && k < |c.objs|
    requires c' == c.(objs := c.objs[k := c.objs[k].(send := s)], connSend := c'.connSend, connGranted := c'.connGranted, connDebited := c'.connDebited)
    requires c'.connDebited == c.connDebited + s.debited - c.objs[k].send.debited
    requires 0 <= c'.connSend <= MAX_INT64 && c'.connSend == DEFAULT_WINDOW + c'.connGranted - c'.connDebited
    requires ChunksOk(s) && WindowOk(c', k)
    ensures SendInv(c')
  {
    hide ChunksOk, Wrap64;
    DebitsUpdate(c.objs, k, c.objs[k].(send := s));
    forall j | 0 <= j < |c'.objs| && j != k ensures WindowOk(c', j) {
      assert WindowOk(c, j);
    }
  }

  lemma NothingSent(id: nat, window: int, body: Octets)
    ensures ChunksOk(NewStream(id, window, body).send)
  {
  }

  lemma OpenWindows(c: Conn, body: Octets, k: nat)
    requires SendInv(c) && c.stage.Live? && k <= |c.objs|
    ensures WindowOk(Open(c, body), k) && ChunksOk(Open(c, body).objs[k].send)
  {
    hide Wrap64, ChunksOk, Debits;
    if k < |c.objs| {
      assert WindowOk(c, k);
    } else {
      NothingSent(c.nextId, c.initial, body);
    }
  }

  lemma OpenMore(c: Conn, body: Octets)
    ensures if c.stage.Live? then |Open(c, body).objs| == |c.objs| + 1 else Open(c, body) == c
  {
  }

  lemma OpenConn(c: Conn, body: Octets)
    requires ConnOk(c) && TableOk(c)
    ensures ConnOk(Open(c, body)) && TableOk(Open(c, body))
  {
    assert c.stage.Live? ==> Open(c, body).objs[..|c.objs|] == c.objs;
  }

  lemma BytesAppend(chunks: seq<Chunk>, chunk: Chunk)
    ensures Bytes(chunks + [chunk]) == Bytes(chunks) + chunk.data
  {
    assert (chunks + [chunk])[..|chunks|] == chunks;
  }

  lemma CutAndJoined(sent: Octets, rest: Octets, n: nat)
    requires n <= |rest|
    ensures sent + rest[..n] + rest[n..] == sent + rest
  {
  }

  lemma ChunkAppended(s: SendSide, s': SendSide, n: nat)
    requires ChunksOk(s) && s.state.Sending? && 0 < n <= |s.rest| && s'.body == s.body && s'.rest == s.rest[n..]
    requires |s'.chunks| == |s.chunks| + 1 && s'.chunks[..|s.chunks|] == s.chunks
    requires s'.chunks[|s.chunks|].data != [] && s'.chunks[|s.chunks|].endStream == (n == |s.rest|)
    requires Bytes(s'.chunks) + s'.rest == Bytes(s.chunks) + s.rest
    requires s'.state == if n == |s.rest| then Sent else Sending
    ensures ChunksOk(s')
  {
    hide Bytes;
    assert forall i :: 0 <= i < |s.chunks| ==> s'.chunks[i] == s.chunks[i];
  }

  lemma DebitKeeps(c: Conn, k: nat, used: int, s: SendSide)
    requires SendInv(c) && k < |c.objs| && 0 < used <= Min(c.connSend, c.objs[k].send.window)
    requires s.window == c.objs[k].send.window - used && s.debited == c.objs[k].send.debited + used
    requires s.granted == c.objs[k].send.granted && ChunksOk(s)
    ensures SendInv(SetObj(c, k, c.objs[k].(send := s)).(connSend := c.connSend - used, connDebited := c.connDebited + used))
  {
    hide ChunksOk, Wrap64;
    var c' := SetObj(c, k, c.objs[k].(send := s)).(connSend := c.connSend - used, connDebited := c.connDebited + used);
    assert WindowOk(c, k);
    assert InTable(c', k) <==> InTable(c, k);
    if InTable(c, k) {
      WrapDebit(Ledger(c, c.objs[k].send), used);
    }
    assert WindowOk(c', k);
    SendReplaced(c, c', k, s);
  }

  lemma SendChunkKeeps(c: Conn, k: nat, pad: nat, queued: bool)
    requires SendInv(c) && k < |c.objs|
    ensures SendInv(SendChunk(c, k, pad, queued))
  {
    hide ChunksOk, Wrap64, WindowOk, TableOk, PlanChunk, Debits, Bytes;
    var st := c.objs[k];
    var s := st.send;
    assert ChunksOk(s) && WindowOk(c, k);
    if s.state.Sending? {
      SendingHasRest(s);
      if c.connSend <= 0 || s.window <= 0 {
        FailedKeeps(c, k);
      } else {
        match PlanChunk(|s.rest|, pad, c.connSend, s.window, c.maxFrame)
        case Blocked =>
        case Take(n) =>
          var used := n + pad;
          if queued {
            var s' := SendChunk(c, k, pad, queued).objs[k].send;
            BytesAppend(s.chunks, Chunk(s.rest[..n], pad, n == |s.rest|));
            CutAndJoined(Bytes(s.chunks), s.rest, n);
            ChunkAppended(s, s', n);
          } else {
            FailedChunks(s, s.window - used, s.debited + used);
          }
          DebitKeeps(c, k, used, SendChunk(c, k, pad, queued).objs[k].send);
      }
    }
  }

  lemma SendingHasRest(s: SendSide)
    requires ChunksOk(s) && s.state.Sending?
    ensures s.rest != []
  {
  }

  lemma FailedChunks(s: SendSide, window: int, debited: int)
    requires ChunksOk(s)
    ensures ChunksOk(s.(window := window, debited := debited, state := Failed))
  {
  }

  lemma FailedKeeps(c: Conn, k: nat)
    requires SendInv(c) && k < |c.objs|
    ensures SendInv(SetObj(c, k, c.objs[k].(send := c.objs[k].send.(state := Failed))))
  {
    hide Wrap64, ChunksOk;
    var s := c.objs[k].send;
    assert ChunksOk(s) && WindowOk(c, k);
    FailedChunks(s, s.window, s.debited);
    assert s.(window := s.window, debited := s.debited, state := Failed) == s.(state := Failed);
    var c' := SetObj(c, k, c.objs[k].(send := s.(state := Failed)));
    assert WindowOk(c', k);
    SendReplaced(c, c', k, s.(state := Failed));
  }

  lemma GrantStreamKeeps(c: Conn, k: nat, inc: nat)
    requires SendInv(c) && k < |c.objs|
    ensures SendInv(GrantStream(c, k, inc).0)
  {
    hide ChunksOk, Wrap64;
    var c', s := GrantStream(c, k, inc).0, c.objs[k].send;
    assert ChunksOk(s) && WindowOk(c, k);
    if c' != c {
      var s' := s.(window := s.window + inc, granted := s.granted + inc);
      GrantChunks(s, s.window + inc, s.granted + inc);
      WrapAdd(Ledger(c, s), inc);
      assert WindowOk(c', k);
      SendReplaced(c, c', k, s');
    }
  }

  lemma GrantChunks(s: SendSide, window: int, granted: int)
    requires ChunksOk(s)
    ensures ChunksOk(s.(window := window, granted := granted))
  {
  }

  lemma ShiftedWindow(c: Conn, v: nat, k: nat)
    requires SendInv(c) && v < TWO31 && k < |c.objs|
    ensures var c' := c.(objs := ShiftAll(c, v - c.initial), initial := v);
            WindowOk(c', k) && ChunksOk(c'.objs[k].send)
  {
    hide ChunksOk, Wrap64, Debits;
    var s, delta := c.objs[k].send, v - c.initial;
    assert WindowOk(c, k) && ChunksOk(s);
    GrantChunks(s, Wrap64(s.window + delta), s.granted);
    assert s.(window := Wrap64(s.window + delta), granted := s.granted) == s.(window := Wrap64(s.window + delta));
    WrapAdd(Ledger(c, s), delta);
  }

  /** The retroactive shift: every open stream keeps its ledger, with the new initial value in it. */
  lemma InitialWindowKeeps(c: Conn, v: nat)
    requires SendInv(c) && v < TWO31
    ensures SendInv(c.(objs := ShiftAll(c, v - c.initial), initial := v))
  {
    hide Wrap64, ChunksOk, WindowOk;
    var c' := c.(objs := ShiftAll(c, v - c.initial), initial := v);
    DebitsSame(c.objs, c'.objs);
    forall k | 0 <= k < |c'.objs| ensures WindowOk(c', k) && ChunksOk(c'.objs[k].send) {
      ShiftedWindow(c, v, k);
    }
  }

  lemma OneSettingKeeps(c: Conn, setting: Setting)
    requires SendInv(c)
    ensures SendInv(ApplySetting(c, setting).0)
  {
    hide ChunksOk, WindowOk, Wrap64, ShiftAll, TableOk, Debits;
    if setting.InitialWindow? && setting.val < TWO31 {
      InitialWindowKeeps(c, setting.val);
    } else {
      MaxFrameKeeps(c, ApplySetting(c, setting).0.maxFrame);
    }
  }

  lemma {:induction false} SettingsKeep(c: Conn, settings: seq<Setting>)
    requires SendInv(c)
    ensures SendInv(ApplySettings(c, settings).0)
    decreases |settings|
  {
    hide SendInv, ApplySetting;
    if settings != [] {
      OneSettingKeeps(c, settings[0]);
      SettingsKeep(ApplySetting(c, settings[0]).0, settings[1..]);
    }
  }

  lemma MaxFrameKeeps(c: Conn, v: nat)
    requires SendInv(c) && (v == c.maxFrame || DEFAULT_MAX_FRAME <= v <= MAX_MAX_FRAME)
    ensures SendInv(c.(maxFrame := v))
  {
    hide ChunksOk, Wrap64;
    forall k | 0 <= k < |c.objs| ensures WindowOk(c.(maxFrame := v), k) {
      assert WindowOk(c, k);
    }
  }

  lemma GrantConnKeeps(c: Conn, inc: nat)
    requires SendInv(c)
    ensures SendInv(GrantConn(c, inc).0)
  {
    hide ChunksOk, Wrap64;
    var c' := GrantConn(c, inc).0;
    forall k | 0 <= k < |c.objs| ensures WindowOk(c', k) {
      assert WindowOk(c, k);
    }
  }

  /** Steps of the receive side and of the stream lifecycle. */
  lemma OtherKeeps(c: Conn, e: Event)
    requires SendInv(c) && Possible(c, e)
    requires e.ERemove? || e.EFinalize? || e.EHalt? || e.ESignal? || e.EDrain? || e.EData? || e.EUnknownData? || e.EStatus?
    ensures SendInv(Next(c, e))
  {
    hide ChunksOk, WindowOk, ConnOk, Refill;
    SendSame(c, Next(c, e));
  }

  lemma FailSendKeeps(c: Conn, k: nat)
    requires SendInv(c) && k < |c.objs|
    ensures SendInv(FailSend(c, k))
  {
    hide SendInv;
    FailedKeeps(c, k);
  }

  lemma StepKeeps(c: Conn, e: Event)
    requires SendInv(c) && Possible(c, e)
    ensures SendInv(Next(c, e))
  {
    hide ChunksOk, WindowOk, TableOk, Debits, Open, SendChunk, FailSend, GrantConn, GrantStream, ApplySettings, Remove, Finalize, Drain, RecvData;
    match e
    case EOpen(body) =>
      OpenConn(c, body);
      OpenMore(c, body);
      if c.stage.Live? {
        forall k | 0 <= k < |Next(c, e).objs| ensures WindowOk(Next(c, e), k) && ChunksOk(Next(c, e).objs[k].send) {
          OpenWindows(c, body, k);
        }
      }
    case ESendChunk(k, pad, queued) => SendChunkKeeps(c, k, pad, queued);
    case EFailSend(k) => FailSendKeeps(c, k);
    case EGrantConn(inc) => GrantConnKeeps(c, inc);
    case EGrantStream(k, inc) => GrantStreamKeeps(c, k, inc);
    case ESettings(settings) => SettingsKeep(c, settings);
    case _ => OtherKeeps(c, e);
  }

  // --- Whole runs ----------------------------------------------------------------------------------------------

  lemma {:induction false} RunKeeps(c: Conn, events: seq<Event>, c': Conn)
    requires SendInv(c) && Leads(c, events, c')
    ensures SendInv(c')
    decreases |events|
  {
    hide Next, Possible, SendInv;
    if events != [] {
      StepKeeps(c, events[0]);
      RunKeeps(Next(c, events[0]), events[1..], c');
    }
  }

  lemma ReachesSendInv(events: seq<Event>, c: Conn)
    requires Reaches(events, c)
    ensures SendInv(c)
  {
    hide Leads;
    assert SendInv(NewConn());
    RunKeeps(NewConn(), events, c);
  }

  /** Octets carried by all frames queued on the connection. */
  function AllCarried(objs: seq<Stream>): int {
    if objs == [] then 0 else AllCarried(objs[..|objs| - 1]) + Carried(objs[|objs| - 1].send.chunks)
  }

  lemma {:induction false} DebitsAreCarried(objs: seq<Stream>)
    requires forall k :: 0 <= k < |objs| ==> Unqueued(objs[k].send) >= 0
    ensures Debits(objs) >= AllCarried(objs)
    ensures (forall k :: 0 <= k < |objs| ==> Unqueued(objs[k].send) == 0) ==> Debits(objs) == AllCarried(objs)
  {
    hide Carried;
    if objs != [] {
      DebitsAreCarried(objs[..|objs| - 1]);
    }
  }

  /**
   In every run the connection window is within int64, never negative, and the default plus the increments
   that counted minus the octets the queued frames carry; less only once the connection's end is signalled.
   */
  lemma ConnectionWindow(events: seq<Event>, c: Conn)
    requires Reaches(events, c)
    ensures 0 <= c.connSend <= MAX_INT64
    ensures c.connSend <= 65535 + Total(ConnIncrement, NewConn(), events) - AllCarried(c.objs)
    ensures c.stage.Live? || c.stage.Halted? ==> c.connSend == 65535 + Total(ConnIncrement, NewConn(), events) - AllCarried(c.objs)
  {
    hide Reaches, Total, AllCarried, Carried;
    ReachesSendInv(events, c);
    ConnGrantedIsTotal(events, c);
    forall k | 0 <= k < |c.objs| ensures Unqueued(c.objs[k].send) >= 0 && (c.stage.Live? || c.stage.Halted? ==> Unqueued(c.objs[k].send) == 0) {
      DebitedIsCarried(events, c, k);
    }
    DebitsAreCarried(c.objs);
  }

  /** SETTINGS never moves the connection window. */
  lemma {:induction false} SettingsLeaveConnection(c: Conn, settings: seq<Setting>)
    ensures ApplySettings(c, settings).0.connSend == c.connSend
    decreases |settings|
  {
    hide ShiftAll;
    if settings != [] {
      SettingsLeaveConnection(ApplySetting(c, settings[0]).0, settings[1..]);
    }
  }

  /** The initial window last announced, plus the increments that counted, minus the octets of the stream's frames. */
  function Balance(events: seq<Event>, k: nat, s: SendSide): int {
    AfterEvents(InForce(65535, 16384), events).window + Total(StreamIncrement(k), NewConn(), events) - Carried(s.chunks) - Unqueued(s)
  }

  /**
   In every run and for every stream in the table the window is that balance in int64 arithmetic; it is exact,
   and at least -(2^31 - 1), precisely while the balance fits an int64. A frame that was not queued is in it
   only after a failure on a connection whose end is signalled.
   */
  lemma StreamWindow(events: seq<Event>, c: Conn, k: nat)
    requires Reaches(events, c) && k < |c.objs| && InTable(c, k)
    ensures var s := c.objs[k].send;
            && s.window == Wrap64(Balance(events, k, s))
            && (s.window == Balance(events, k, s) <==> Balance(events, k, s) <= 0x7FFF_FFFF_FFFF_FFFF)
            && (Balance(events, k, s) <= 0x7FFF_FFFF_FFFF_FFFF ==> s.window > -0x8000_0000)
            && 0 <= Unqueued(s) <= 0xFF_FFFF && (Unqueued(s) > 0 ==> s.state.Failed? && (c.stage.Signalled? || c.stage.Down?))
  {
    hide Reaches, Wrap64, Total, Carried, AfterEvents;
    ReachesSendInv(events, c);
    assert WindowOk(c, k);
    GrantedIsTotal(events, c, k);
    LastAnnounced(events, c);
    DebitedIsCarried(events, c, k);
  }

  /** A SETTINGS value keeps an exact window exact if and only if the shifted window still fits an int64. */
  lemma SettingKeepsExactIff(events: seq<Event>, c: Conn, k: nat, v: nat)
    requires Reaches(events, c) && k < |c.objs| && InTable(c, k) && v < TWO31
    requires c.objs[k].send.window == Ledger(c, c.objs[k].send)
    ensures var c' := ApplySetting(c, InitialWindow(v)).0;
            c'.objs[k].send.window == Ledger(c', c'.objs[k].send) <==> c.objs[k].send.window + v - c.initial <= MAX_INT64
  {
    hide Reaches, Wrap64;
    ReachesSendInv(events, c);
    assert WindowOk(c, k);
  }

  // --- A run that wraps a window ---------------------------------------------------------------------------

  function GrantMore(n: nat): seq<Event> {
    if n == 0 then [] else [EGrantStream(0, TWO31 - 1)] + GrantMore(n - 1)
  }

  /** The first stream after `n` of the largest increments. */
  function Granted(c: Conn, n: nat): Conn
    requires c.objs != []
  {
    var s := c.objs[0].send;
    SetObj(c, 0, c.objs[0].(send := s.(window := s.window + n * (TWO31 - 1), granted := s.granted + n * (TWO31 - 1))))
  }

  lemma {:induction false} GrantsLead(c: Conn, n: nat, rest: seq<Event>, c': Conn)
    requires c.objs != [] && InTable(c, 0) && c.objs[0].send.window + n * (TWO31 - 1) <= MAX_INT64
    requires Leads(Granted(c, n), rest, c')
    ensures Leads(c, GrantMore(n) + rest, c')
    decreases n
  {
    var events := GrantMore(n) + rest;
    if n == 0 {
      assert events == rest && Granted(c, 0) == c;
    } else {
      assert events[1..] == GrantMore(n - 1) + rest;
      var next := Granted(c, 1);
      assert n * (TWO31 - 1) == (TWO31 - 1) + (n - 1) * (TWO31 - 1);
      assert (n - 1) * (TWO31 - 1) >= 0;
      assert Next(c, events[0]) == next;
      assert Granted(next, n - 1) == Granted(c, n);
      GrantsLead(next, n - 1, rest, c');
    }
  }

  /** The stream table of the run below, with the window and the ledger of its one stream. */
  function OneStream(initial: int, window: int, granted: int, body: Octets): Conn {
    var st := NewStream(1, DEFAULT_WINDOW, body);
    NewConn().(nextId := 3, table := map[1 := 0], initial := initial,
               objs := [st.(send := st.send.(window := window, granted := granted))])
  }

  lemma Resettled(initial: nat, v: nat, window: int, granted: int, body: Octets)
    requires v < TWO31
    ensures Next(OneStream(initial, window, granted, body), ESettings([InitialWindow(v)]))
            == OneStream(v, Wrap64(window + v - initial), granted, body)
  {
    hide Wrap64;
    var c, settings := OneStream(initial, window, granted, body), [InitialWindow(v)];
    var c' := ApplySetting(c, settings[0]).0;
    assert settings[1..] == [];
    assert ApplySettings(c', []) == (c', Fine);
    assert c'.objs == OneStream(v, Wrap64(window + v - initial), granted, body).objs;
  }

  /**
   The SETTINGS branch has no upper guard: a peer can raise a window to the top of int64 with accepted
   increments and then throw it to the bottom by raising the initial window by one.
   */
  lemma WrapIsReached(body: Octets) returns (events: seq<Event>, c: Conn)
    ensures Reaches(events, c) && |c.objs| == 1 && InTable(c, 0)
    ensures Ledger(c, c.objs[0].send) == MAX_INT64 + 1 && c.objs[0].send.window == -MAX_INT64 - 1
  {
    var n := 0x1_0000_0002;
    var last := [ESettings([InitialWindow(2)])];
    var low, high := OneStream(1, 1, 0, body), OneStream(1, MAX_INT64, MAX_INT64 - 1, body);
    c := OneStream(2, Wrap64(MAX_INT64 + 1), MAX_INT64 - 1, body);
    Resettled(1, 2, MAX_INT64, MAX_INT64 - 1, body);
    assert last[1..] == [];
    assert Leads(high, last, c);
    assert Granted(low, n) == high;
    GrantsLead(low, n, last, c);
    var first, second := EOpen(body), ESettings([InitialWindow(1)]);
    var opening := OneStream(DEFAULT_WINDOW, DEFAULT_WINDOW, 0, body);
    assert Next(NewConn(), first) == opening;
    Resettled(DEFAULT_WINDOW, 1, DEFAULT_WINDOW, 0, body);
    assert Next(opening, second) == low;
    events := [first, second] + (GrantMore(n) + last);
    assert events[1..][1..] == GrantMore(n) + last;
    assert Leads(opening, events[1..], c);
  }

  /**
   In every run the DATA frames queued for the k-th stream spell a prefix of the k-th body handed in, none is empty, and END_STREAM
   is on the last one exactly when nothing is left; a sender that has queued everything has queued the body.
   */
  lemma BodyIntegrity(events: seq<Event>, c: Conn, k: nat)
    requires Reaches(events, c) && k < |c.objs|
    ensures var s := c.objs[k].send;
            && |c.objs| == |Bodies(events)| && s.body == Bodies(events)[k] && Bytes(s.chunks) <= s.body
            && (forall i :: 0 <= i < |s.chunks| ==> s.chunks[i].data != [])
            && (forall i :: 0 <= i < |s.chunks| ==> s.chunks[i].endStream ==> i == |s.chunks| - 1)
            && (s.state.Sent? ==> Bytes(s.chunks) == s.body)
            && (s.body != [] ==> (Bytes(s.chunks) == s.body <==> s.chunks != [] && s.chunks[|s.chunks| - 1].endStream))
  {
    hide Reaches, WindowOk, Bodies;
    ReachesSendInv(events, c);
    BodiesHandedIn(events, c);
    var s := c.objs[k].send;
    assert ChunksOk(s);
    assert s.rest == [] ==> Bytes(s.chunks) == s.body;
    assert s.chunks == [] ==> Bytes(s.chunks) == [];
  }

  /** A queued frame fitted all three limits at the moment it was debited. */
  lemma ChunkFits(c: Conn, k: nat, pad: nat, queued: bool)
    requires SendInv(c) && k < |c.objs|
    ensures var s, s' := c.objs[k].send, SendChunk(c, k, pad, queued).objs[k].send;
            s'.chunks != s.chunks ==>
              && |s'.chunks| == |s.chunks| + 1
              && var last := s'.chunks[|s.chunks|];
                 0 < |last.data| && |last.data| + last.pad <= Min(Min(c.connSend, s.window), c.maxFrame)
  {
    hide WindowOk, TableOk, Debits;
    assert ChunksOk(c.objs[k].send);
  }
}
