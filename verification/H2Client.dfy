/**
 The client object (pkg/customhttp/h2client.go) with its fields and the bodies of its critical
 sections. Every method is proved to do what the corresponding function of the model does, and
 to keep the three invariants.
 */
module H2Client {
  import opened Basics
  import opened H2Model
  import H2History
  import H2Send
  import H2Receive
  import H2Lifecycle

  class Client {
    var stage: Stage
    var closes: nat
    var nextStreamID: nat
    var objects: seq<Stream>
    var streams: map<nat, nat>
    var connSendWindow: int
    var initialStreamSendWindow: int
    var maxFrameSize: nat
    var connRecv: ConnRecv
    ghost var connGranted: int
    ghost var connDebited: int

    ghost function View(): Conn
      reads this
    {
      Conn(stage, closes, nextStreamID, objects, streams, connSendWindow, connGranted, connDebited,
           initialStreamSendWindow, maxFrameSize, connRecv)
    }

    ghost predicate Valid()
      reads this
    {
      Consistent(View())
    }

    constructor ()
      ensures Valid() && View() == NewConn()
    {
      stage, closes, nextStreamID, objects, streams := Live, 0, 1, [], map[];
      connSendWindow, initialStreamSendWindow, maxFrameSize := DEFAULT_WINDOW, DEFAULT_WINDOW, DEFAULT_MAX_FRAME;
      connRecv := ConnRecv(CONN_WINDOW, 0, 0, 0, 0, 0);
      connGranted, connDebited := 0, 0;
      new;
      StartConsistent();
    }

    method InitializeStream(body: Octets) returns (r: Option<nat>)
      requires Valid()
      modifies this
      ensures Valid() && View() == Next(old(View()), EOpen(body))
      ensures old(stage) != Live ==> r == None && View() == old(View())
      ensures old(stage) == Live ==>
                && r == Some(|old(objects)|) && |objects| == |old(objects)| + 1 && objects[..|old(objects)|] == old(objects)
                && streams == old(streams)[old(nextStreamID) := |old(objects)|] && nextStreamID == (old(nextStreamID) + 2) % 0x1_0000_0000
                && var st := objects[|old(objects)|];
                   && st.id == old(nextStreamID) && st.outcomes == 0 && st.recv.window == 4 * 1024 * 1024 && !st.recv.hasStatus
                   && st.send.window == initialStreamSendWindow && st.send.body == body && st.send.rest == body && st.send.chunks == []
    {
      hide Consistent;
      KeepConsistent(View(), EOpen(body));
      if stage != Live {
        return None;
      }
      var streamID := nextStreamID;
      nextStreamID := (nextStreamID + 2) % TWO32;
      r := Some(|objects|);
      streams := streams[streamID := |objects|];
      objects := objects + [NewStream(streamID, initialStreamSendWindow, body)];
    }

    method CleanupStream(streamID: nat)
      requires Valid()
      modifies this
      ensures Valid() && View() == Next(old(View()), ERemove(streamID))
      ensures streams == old(streams) - {streamID} && |objects| == |old(objects)|
      ensures forall k :: 0 <= k < |objects| ==>
                            objects[k] == if streamID in old(streams) && old(streams)[streamID] == k then Told(old(objects)[k]) else old(objects)[k]
    {
      hide Consistent;
      KeepConsistent(View(), ERemove(streamID));
      TableIndexes(View());
      if streamID in streams {
        var k := streams[streamID];
        objects := objects[k := objects[k].(outcomes := objects[k].outcomes + 1)];
        streams := streams - {streamID};
      }
    }

    /** finalizeStream; the response itself is not modelled. */
    method FinalizeStream(k: nat)
      requires Valid() && k < |objects|
      modifies this
      ensures Valid() && View() == Next(old(View()), EFinalize(k))
      ensures streams == old(streams) - {old(objects)[k].id}
      ensures objects == if old(objects)[k].id in old(streams) then old(objects)[k := Told(old(objects)[k])] else old(objects)
    {
      hide Consistent;
      KeepConsistent(View(), EFinalize(k));
      var stream := objects[k];
      if stream.id !in streams {
        return;
      }
      objects := objects[k := stream.(outcomes := stream.outcomes + 1)];
      streams := streams - {stream.id};
    }

    /** First locked part of shutdown; the caller goes on only if it was the one to stop the connection. */
    method BeginShutdown() returns (first: bool)
      requires Valid()
      modifies this
      ensures Valid() && View() == Next(old(View()), EHalt) && first == old(stage).Live?
      ensures stage == (if old(stage) == Live then Halted else old(stage)) && objects == old(objects) && streams == old(streams)
    {
      hide Consistent;
      KeepConsistent(View(), EHalt);
      first := stage == Live;
      if first {
        stage := Halted;
      }
    }

    /** The loop of shutdown over the streams that are still open. */
    method DeliverToAll()
      requires H2Send.TableOk(View())
      modifies this`objects
      ensures |objects| == |old(objects)|
      ensures forall k :: 0 <= k < |objects| ==>
                            objects[k] == if InTable(old(View()), k) then Told(old(objects)[k]) else old(objects)[k]
    {
      ghost var c := View();
      var todo := streams.Keys;
      while todo != {}
        invariant todo <= c.table.Keys && |objects| == |c.objs|
        invariant forall k :: 0 <= k < |objects| ==>
                                objects[k] == if InTable(c, k) && c.objs[k].id !in todo
                                              then c.objs[k].(outcomes := c.objs[k].outcomes + 1) else c.objs[k]
      {
        var id :| id in todo;
        var k := streams[id];
        assert InTable(c, k) && c.objs[k].id == id;
        assert forall j :: 0 <= j < |objects| && InTable(c, j) && c.objs[j].id == id ==> j == k;
        objects := objects[k := objects[k].(outcomes := objects[k].outcomes + 1)];
        todo := todo - {id};
      }
    }

    /** Between the locked parts: close doneChan, once. */
    method SignalShutdown()
      requires Valid() && stage == Halted
      modifies this
      ensures Valid() && View() == Next(old(View()), ESignal)
      ensures stage == Signalled && closes == old(closes) + 1 && objects == old(objects) && streams == old(streams)
    {
      hide Consistent;
      KeepConsistent(View(), ESignal);
      stage, closes := Signalled, closes + 1;
    }

    /** Second locked part: an error to every stream that is still open. */
    method EndShutdown()
      requires Valid() && stage == Signalled
      modifies this
      ensures Valid() && View() == Next(old(View()), EDrain)
      ensures stage == Down && streams == map[] && |objects| == |old(objects)|
      ensures forall k :: 0 <= k < |objects| ==>
                            objects[k] == if old(objects)[k].id in old(streams) && old(streams)[old(objects)[k].id] == k
                                          then Told(old(objects)[k]) else old(objects)[k]
    {
      hide Consistent;
      ghost var c := View();
      KeepConsistent(c, EDrain);
      TableIndexes(c);
      DeliverToAll();
      streams, stage := map[], Down;
      assert objects == Drain(c).objs;
    }

    /** The size computation of sendData; None means wait for more window. */
    method ChunkSize(left: nat, pad: nat, available: int) returns (size: Option<nat>)
      ensures var plan := PlanChunk(left, pad, connSendWindow, available, maxFrameSize);
              if plan.Blocked? then size == None else size == Some(plan.size)
    {
      var chunkSize := left;
      if chunkSize % TWO32 > maxFrameSize {
        chunkSize := maxFrameSize;
      }
      var limit := connSendWindow;
      if available < limit {
        limit := available;
      }
      if maxFrameSize < limit {
        limit := maxFrameSize;
      }
      if chunkSize + pad > limit {
        var reduced := limit - pad;
        if reduced <= 0 {
          return None;
        }
        chunkSize := reduced;
      }
      return Some(chunkSize);
    }

    /**
     One locked pass of sendData. Without window it waits, or gives up when the connection or the stream is gone;
     otherwise the largest chunk that fits beside the padding is cut off, debited from both windows and queued.
     */
    method SendDataPass(k: nat, pad: nat, queued: bool)
      requires Valid() && Possible(View(), ESendChunk(k, pad, queued))
      modifies this
      ensures Valid() && View() == Next(old(View()), ESendChunk(k, pad, queued))
      ensures Passed(old(View()), View(), k, pad, queued)
    {
      hide Consistent, PlanChunk, Passed;
      KeepConsistent(View(), ESendChunk(k, pad, queued));
      PassIs(View(), k, pad, queued);
      var stream := objects[k];
      var send := stream.send;
      if send.state != Sending {
        return;
      }
      if connSendWindow <= 0 || send.window <= 0 {
        if stage != Live || stream.id !in streams {
          objects := objects[k := stream.(send := send.(state := Failed))];
        }
        return;
      }
      var size := ChunkSize(|send.rest|, pad, send.window);
      if size.None? {
        return;
      }
      var chunkSize := size.value;
      var chunk, rest := send.rest[..chunkSize], send.rest[chunkSize..];
      var consumed := chunkSize + pad;
      connSendWindow, connDebited := connSendWindow - consumed, connDebited + consumed;
      send := send.(window := send.window - consumed, debited := send.debited + consumed);
      if queued {
        send := send.(rest := rest, chunks := send.chunks + [Chunk(chunk, pad, |rest| == 0)],
                      state := if |rest| == 0 then Sent else Sending);
      } else {
        send := send.(state := Failed);
      }
      objects := objects[k := stream.(send := send)];
    }

    method ProcessConnWindowUpdate(increment: nat) returns (reply: Reply)
      requires Valid() && increment < TWO31
      modifies this
      ensures Valid() && (View(), reply) == GrantConn(old(View()), increment)
      ensures 0 < increment && old(connSendWindow) + increment <= 0x7FFF_FFFF_FFFF_FFFF ==>
                reply == Fine && connSendWindow == old(connSendWindow) + increment && objects == old(objects)
      ensures increment == 0 || old(connSendWindow) + increment > 0x7FFF_FFFF_FFFF_FFFF ==> reply == ConnError && View() == old(View())
    {
      hide Consistent;
      KeepConsistent(View(), EGrantConn(increment));
      if increment == 0 {
        return ConnError;
      }
      if connSendWindow > MAX_INT64 - increment {
        return ConnError;
      }
      connSendWindow, connGranted := connSendWindow + increment, connGranted + increment;
      return Fine;
    }

    method ProcessStreamWindowUpdate(k: nat, increment: nat) returns (reply: Reply)
      requires Valid() && increment < TWO31 && k < |objects|
      modifies this
      ensures Valid() && (View(), reply) == GrantStream(old(View()), k, increment)
      ensures connSendWindow == old(connSendWindow)
      ensures var st := old(objects)[k];
              var over := st.send.window + increment > 0x7FFF_FFFF_FFFF_FFFF;
              && (reply == StreamError <==> increment == 0 || (st.id in old(streams) && over)) && reply != ConnError
              && (st.id in old(streams) && increment > 0 && !over ==>
                    |objects| == |old(objects)| && objects[k].send.window == st.send.window + increment
                    && forall j :: 0 <= j < |objects| && j != k ==> objects[j] == old(objects)[j])
              && (increment == 0 || st.id !in old(streams) || over ==> View() == old(View()))
    {
      hide Consistent;
      KeepConsistent(View(), EGrantStream(k, increment));
      if increment == 0 {
        return StreamError;
      }
      var stream := objects[k];
      if stream.id !in streams {
        return Fine;
      }
      if stream.send.window > MAX_INT64 - increment {
        return StreamError;
      }
      objects := objects[k := stream.(send := stream.send.(window := stream.send.window + increment,
                                                           granted := stream.send.granted + increment))];
      return Fine;
    }

    /** The loop over the open streams inside the SETTINGS handler. */
    method ShiftWindows(delta: int)
      requires H2Send.TableOk(View())
      modifies this`objects
      ensures objects == ShiftAll(old(View()), delta)
    {
      ghost var c := View();
      var todo := streams.Keys;
      while todo != {}
        invariant todo <= c.table.Keys && |objects| == |c.objs|
        invariant forall k :: 0 <= k < |objects| ==>
                                objects[k] == if InTable(c, k) && c.objs[k].id !in todo
                                              then c.objs[k].(send := c.objs[k].send.(window := Wrap64(c.objs[k].send.window + delta)))
                                              else c.objs[k]
      {
        var id :| id in todo;
        var k := streams[id];
        assert InTable(c, k) && c.objs[k].id == id;
        assert forall j :: 0 <= j < |objects| && InTable(c, j) && c.objs[j].id == id ==> j == k;
        objects := objects[k := objects[k].(send := objects[k].send.(window := Wrap64(objects[k].send.window + delta)))];
        todo := todo - {id};
      }
      assert objects == ShiftAll(c, delta);
    }

    method ApplyOne(setting: Setting) returns (reply: Reply)
      requires H2Send.TableOk(View())
      modifies this
      ensures (View(), reply) == ApplySetting(old(View()), setting)
    {
      match setting
      case InitialWindow(v) =>
        if v >= TWO31 {
          return ConnError;
        }
        var delta := v - initialStreamSendWindow;
        ShiftWindows(delta);
        initialStreamSendWindow := v;
        return Fine;
      case MaxFrameSize(v) =>
        if v < DEFAULT_MAX_FRAME || v > MAX_MAX_FRAME {
          return ConnError;
        }
        maxFrameSize := v;
        return Fine;
      case OtherSetting =>
        return Fine;
    }

    method ProcessSettings(settings: seq<Setting>) returns (reply: Reply)
      requires Valid()
      modifies this
      ensures Valid() && (View(), reply) == ApplySettings(old(View()), settings)
      ensures Resettled(old(View()), View(), settings, reply)
    {
      hide Resettled;
      ghost var c := View();
      SettingsIs(c, settings);
      KeepConsistent(c, ESettings(settings));
      assert settings[0..] == settings;
      for i := 0 to |settings|
        invariant H2Send.SendInv(View()) && ApplySettings(View(), settings[i..]) == ApplySettings(c, settings)
      {
        H2Send.OneSettingKeeps(View(), settings[i]);
        UnfoldSettings(View(), settings, i);
        reply := ApplyOne(settings[i]);
        if reply != Fine {
          return;
        }
      }
      reply := Fine;
    }

    /**
     maybeSendWindowUpdate; the octets to add, zero when no update was queued. An update brings the window
     back to its maximum and is worth at least half of it.
     */
    method MaybeSendWindowUpdate(current: int, max: int, room: bool) returns (increment: int)
      ensures increment >= 0
      ensures increment > 0 ==> current + increment == max && increment >= max - max / 2
      ensures increment > 0 <==> current <= max / 2 && current < max && room && stage.Live?
    {
      var threshold := max / 2;
      if current <= threshold {
        var missing := max - current;
        if missing > 0 && stage == Live && room {
          return missing;
        }
      }
      return 0;
    }

    method ProcessData(k: nat, len: nat, flow: nat, roomConn: bool, roomStream: bool) returns (reply: Reply)
      requires Valid() && k < |objects| && len <= flow
      modifies this
      ensures Valid() && (View(), reply) == RecvData(old(View()), k, len, flow, roomConn, roomStream)
      ensures Received(old(View()), View(), k, len, roomConn, roomStream, reply)
    {
      hide Consistent, Refill, Received;
      DataIs(View(), k, len, flow, roomConn, roomStream);
      KeepConsistent(View(), EData(k, len, flow, roomConn, roomStream));
      var stream := objects[k];
      var r, q := stream.recv, connRecv;
      r, q := r.(peerSent := r.peerSent + flow), q.(peerSent := q.peerSent + flow);
      objects, connRecv := objects[k := stream.(recv := r)], q;
      if !r.hasStatus {
        return StreamError;
      }
      if len == 0 {
        return Fine;
      }
      if q.window < len {
        return ConnError;
      }
      if r.window < len {
        return StreamError;
      }
      q := q.(window := q.window - len, accepted := q.accepted + len);
      r := r.(window := r.window - len, accepted := r.accepted + len);
      var connUpdate := MaybeSendWindowUpdate(q.window, CONN_WINDOW, roomConn);
      var streamUpdate := MaybeSendWindowUpdate(r.window, STREAM_WINDOW, roomStream);
      RefillIs(q.window, CONN_WINDOW, roomConn && stage.Live?, connUpdate);
      RefillIs(r.window, STREAM_WINDOW, roomStream && stage.Live?, streamUpdate);
      if connUpdate > 0 {
        q := q.(window := q.window + connUpdate, credited := q.credited + connUpdate, updates := q.updates + 1);
      }
      if streamUpdate > 0 {
        r := r.(window := r.window + streamUpdate, credited := r.credited + streamUpdate, updates := r.updates + 1);
      }
      if r.bodyLen + len > MAX_BODY {
        reply := StreamError;
      } else {
        reply := Fine;
        r := r.(bodyLen := r.bodyLen + len);
      }
      objects, connRecv := objects[k := stream.(recv := r)], q;
      assert objects == old(objects)[k := stream.(recv := r)];
    }
  }

  /** The stream after one more outcome. */
  function Told(st: Stream): Stream {
    st.(outcomes := st.outcomes + 1)
  }

  /** An entry that section 6.5.2 of RFC 9113 allows. */
  predicate Acceptable(s: Setting) {
    match s
    case InitialWindow(v) => v <= 0x7FFF_FFFF
    case MaxFrameSize(v) => 16384 <= v <= 16777215
    case OtherSetting => true
  }

  /** However often a frame changes the initial window, an open stream moves by the difference, and all others stay. */
  lemma {:induction false} SettingsShift(c: Conn, settings: seq<Setting>)
    requires H2Send.SendInv(c)
    ensures var (c', reply) := ApplySettings(c, settings);
            && (reply == Fine <==> forall s <- settings :: Acceptable(s))
            && |c'.objs| == |c.objs| && c'.table == c.table
            && forall k :: 0 <= k < |c.objs| ==>
                             && c'.objs[k].id == c.objs[k].id
                             && c'.objs[k].send.window == if InTable(c, k) then Wrap64(c.objs[k].send.window + c'.initial - c.initial)
                                                          else c.objs[k].send.window
    decreases |settings|
  {
    hide Wrap64, H2Send.SendInv;
    WindowsFit(c);
    if settings != [] {
      var (d, r) := ApplySetting(c, settings[0]);
      assert r == Fine <==> Acceptable(settings[0]);
      if r == Fine {
        H2Send.OneSettingKeeps(c, settings[0]);
        SettingsShift(d, settings[1..]);
        var c' := ApplySettings(c, settings).0;
        forall k | 0 <= k < |c.objs| && InTable(c, k)
          ensures c'.objs[k].send.window == Wrap64(c.objs[k].send.window + c'.initial - c.initial) {
          H2Send.WrapAdd(c.objs[k].send.window + d.initial - c.initial, c'.initial - d.initial);
        }
        assert forall s :: s in settings <==> s == settings[0] || s in settings[1..];
      }
    }
  }

  /** What a SETTINGS frame may do: the last valid values in force, open streams moved by the difference, nothing else. */
  ghost predicate Resettled(c: Conn, c': Conn, settings: seq<Setting>, reply: Reply) {
    && c.initial >= 0 && c'.initial >= 0
    && H2History.InForce(c'.initial, c'.maxFrame) == H2History.AfterSettings(H2History.InForce(c.initial, c.maxFrame), settings)
    && (reply == Fine <==> forall s <- settings :: Acceptable(s))
    && c'.connSend == c.connSend && |c'.objs| == |c.objs| && c'.table == c.table
    && (forall k :: 0 <= k < |c.objs| ==>
          c'.objs[k].send.window == if InTable(c, k) then Wrap64(c.objs[k].send.window + c'.initial - c.initial) else c.objs[k].send.window)
  }

  lemma SettingsIs(c: Conn, settings: seq<Setting>)
    requires Consistent(c)
    ensures var (c', reply) := ApplySettings(c, settings); Resettled(c, c', settings, reply)
  {
    hide Wrap64, ApplySettings;
    SettingsShift(c, settings);
    H2Send.SettingsLeaveConnection(c, settings);
    H2History.SettingsInForce(c, settings);
  }

  /** What a pass of sendData does to the stream k and to the connection window, and to nothing else. */
  ghost predicate Passed(c: Conn, c': Conn, k: nat, pad: nat, queued: bool)
    requires k < |c.objs|
  {
    && |c'.objs| == |c.objs| && (forall j :: 0 <= j < |c.objs| && j != k ==> c'.objs[j] == c.objs[j])
    && c'.objs[k] == c.objs[k].(send := c'.objs[k].send) && c'.table == c.table
    && var s, s', limit := c.objs[k].send, c'.objs[k].send, Min(Min(c.connSend, c.objs[k].send.window), c.maxFrame);
       && (s.state != Sending || (limit > 0 && pad >= limit) ==> s' == s && c'.connSend == c.connSend)
       && (s.state == Sending && limit <= 0 ==>
             c'.connSend == c.connSend && s' == if c.stage != Live || c.objs[k].id !in c.table then s.(state := Failed) else s)
       && (s.state == Sending && pad < limit ==>
             var n := Min(|s.rest|, limit - pad);
             && c'.connSend == c.connSend - n - pad && s'.window == s.window - n - pad && s'.body == s.body
             && (queued ==> s'.chunks == s.chunks + [Chunk(s.rest[..n], pad, n == |s.rest|)] && s'.rest == s.rest[n..]
                            && s'.state == if n == |s.rest| then Sent else Sending)
             && (!queued ==> s'.state == Failed && s'.chunks == s.chunks && s'.rest == s.rest))
  }

  lemma PassIs(c: Conn, k: nat, pad: nat, queued: bool)
    requires Consistent(c) && k < |c.objs|
    ensures Passed(c, SendChunk(c, k, pad, queued), k, pad, queued)
  {
    hide Consistent, PlanChunk;
    SenderFacts(c, k);
  }

  lemma SenderFacts(c: Conn, k: nat)
    requires Consistent(c) && k < |c.objs|
    ensures c.maxFrame > 0 && (c.objs[k].send.state.Sending? ==> |c.objs[k].send.rest| > 0)
  {
    assert H2Send.ChunksOk(c.objs[k].send);
  }

  /** How DATA is answered, and what an accepted frame does to the two windows. */
  ghost predicate Received(c: Conn, c': Conn, k: nat, len: nat, roomConn: bool, roomStream: bool, reply: Reply)
    requires k < |c.objs|
  {
    && |c'.objs| == |c.objs|
    && var r, r', q, q' := c.objs[k].recv, c'.objs[k].recv, c.recv, c'.recv;
       && (reply == ConnError <==> r.hasStatus && len > 0 && len > q.window)
       && (reply == StreamError <==> !r.hasStatus || (len > 0 && len <= q.window && (len > r.window || r.bodyLen + len > 32 * 1024 * 1024)))
       && (r.hasStatus && 0 < len <= q.window && len <= r.window ==>
             && q'.window == q.window - len + H2History.Missing(q.window - len, 8 * 1024 * 1024, roomConn && c.stage == Live)
             && r'.window == r.window - len + H2History.Missing(r.window - len, 4 * 1024 * 1024, roomStream && c.stage == Live)
             && r'.bodyLen == if reply == Fine then r.bodyLen + len else r.bodyLen)
       && (!r.hasStatus || len == 0 || len > q.window || len > r.window ==>
             q'.window == q.window && r'.window == r.window && r'.bodyLen == r.bodyLen)
  }

  lemma DataIs(c: Conn, k: nat, len: nat, flow: nat, roomConn: bool, roomStream: bool)
    requires Consistent(c) && k < |c.objs|
    ensures var (c', reply) := RecvData(c, k, len, flow, roomConn, roomStream);
            Received(c, c', k, len, roomConn, roomStream, reply)
  {
    hide H2Send.SendInv, H2Lifecycle.LifeInv;
    assert H2Receive.StreamOk(c.objs[k].recv);
  }

  lemma WindowsFit(c: Conn)
    requires H2Send.SendInv(c)
    ensures forall k :: 0 <= k < |c.objs| ==> Wrap64(c.objs[k].send.window) == c.objs[k].send.window
  {
    hide Wrap64;
    forall k | 0 <= k < |c.objs| ensures Wrap64(c.objs[k].send.window) == c.objs[k].send.window {
      assert H2Send.WindowOk(c, k);
    }
  }

  ghost predicate Consistent(c: Conn) {
    H2Send.SendInv(c) && H2Receive.RecvInv(c) && H2Lifecycle.LifeInv(c)
  }

  /** What a caller knows of an update determines it. */
  lemma RefillIs(current: int, max: int, room: bool, increment: int)
    requires increment >= 0 && (increment > 0 ==> current + increment == max)
    requires increment > 0 <==> current <= max / 2 && current < max && room
    ensures increment == Refill(current, max, room)
  {
  }

  lemma StartConsistent()
    ensures Consistent(NewConn())
  {
  }

  lemma KeepConsistent(c: Conn, e: Event)
    requires Consistent(c) && Possible(c, e)
    ensures Consistent(Next(c, e))
  {
    hide H2Send.SendInv, H2Receive.RecvInv, H2Lifecycle.LifeInv, Next, Possible;
    H2Send.StepKeeps(c, e);
    H2Receive.StepKeeps(c, e);
    H2Lifecycle.StepKeeps(c, e);
  }

  lemma TableIndexes(c: Conn)
    requires Consistent(c)
    ensures forall id <- c.table :: c.table[id] < |c.objs| && c.objs[c.table[id]].id == id
  {
    assert H2Send.TableOk(c);
  }

  lemma UnfoldSettings(c: Conn, settings: seq<Setting>, i: nat)
    requires i < |settings|
    ensures var (c', r) := ApplySetting(c, settings[i]);
            ApplySettings(c, settings[i..]) == if r.Fine? then ApplySettings(c', settings[i + 1..]) else (c', r)
  {
    assert settings[i..][0] == settings[i] && settings[i..][1..] == settings[i + 1..];
  }
}
