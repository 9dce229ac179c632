/**
 Stream identifiers (section 5.1.1 of RFC 9113) and the delivery of exactly one outcome per
 stream, through every interleaving of finalizeStream, cleanupStream and shutdown
 (pkg/customhttp/h2client.go).
 */
module H2Lifecycle {
  import opened H2Model

  /** The k-th allocated identifier: odd, wrapping as a uint32. */
  function IdOf(k: nat): (id: nat)
    ensures id % 2 == 1
  {
    (1 + 2 * k) % TWO32
  }

  ghost predicate IdsOk(c: Conn) {
    && c.nextId == IdOf(|c.objs|)
    && (forall k :: 0 <= k < |c.objs| ==> c.objs[k].id == IdOf(k))
    && (forall id <- c.table :: c.table[id] < |c.objs| && IdOf(c.table[id]) == id)
  }

  /** In the table without an outcome, or out of it with exactly one. */
  ghost predicate Settled(c: Conn, k: nat)
    requires k < |c.objs|
  {
    c.objs[k].outcomes == if InTable(c, k) then 0 else 1
  }

  /** Out of the table with no outcome: whoever waits for this stream waits in vain. */
  ghost predicate Lost(c: Conn, k: nat)
    requires k < |c.objs|
  {
    c.objs[k].outcomes == 0 && !InTable(c, k)
  }

  ghost predicate AllSettled(c: Conn) {
    forall k :: 0 <= k < |c.objs| ==> Settled(c, k)
  }

  ghost predicate SomeLost(c: Conn) {
    exists k :: 0 <= k < |c.objs| && Lost(c, k)
  }

  /**
   The two ways an identifier that is in use can be taken for another stream's: a new stream displaces its
   table entry, or a late finalizeStream of a former bearer removes it. Both need the identifiers to wrap.
   */
  predicate Confuses(c: Conn, e: Event) {
    match e
    case EOpen(_) => c.stage.Live? && c.nextId in c.table
    case EFinalize(k) => k < |c.objs| && c.objs[k].id in c.table && c.table[c.objs[k].id] != k
    case _ => false
  }

  ghost predicate LifeInv(c: Conn) {
    && IdsOk(c)
    && (c.stage.Down? ==> c.table == map[])
    && c.closes == (if c.stage.Signalled? || c.stage.Down? then 1 else 0)
    && (forall k :: 0 <= k < |c.objs| ==> InTable(c, k) ==> c.objs[k].outcomes == 0)
  }

  /** Identifiers repeat only after 2^31 of them. */
  lemma IdsDiffer(i: nat, j: nat)
    requires i < j
    ensures j < TWO31 ==> IdOf(i) != IdOf(j)
    ensures j == i + TWO31 ==> IdOf(i) == IdOf(j)
  {
  }

  // --- Every section keeps the table in step -----------------------------------------------------------------

  lemma OpenKeeps(c: Conn, body: Octets)
    requires LifeInv(c)
    ensures LifeInv(Open(c, body))
  {
    var c' := Open(c, body);
    assert forall k :: 0 <= k < |c.objs| ==> c'.objs[k] == c.objs[k];
  }

  /** Sections that change neither the table, nor an identifier, nor an outcome. */
  ghost predicate SameLife(c: Conn, c': Conn) {
    && c'.stage == c.stage && c'.closes == c.closes && c'.nextId == c.nextId && c'.table == c.table
    && |c'.objs| == |c.objs|
    && forall k :: 0 <= k < |c.objs| ==> c'.objs[k].id == c.objs[k].id && c'.objs[k].outcomes == c.objs[k].outcomes
  }

  lemma LifeSame(c: Conn, c': Conn)
    requires LifeInv(c) && SameLife(c, c')
    ensures LifeInv(c')
  {
    hide IdOf;
  }

  /** The section of one stream that leaves the table, or of all. */
  lemma LeavingKeeps(c: Conn, e: Event)
    requires LifeInv(c) && Possible(c, e) && (e.ERemove? || e.EFinalize? || e.EHalt? || e.ESignal? || e.EDrain?)
    ensures LifeInv(Next(c, e))
  {
    hide IdOf;
  }

  lemma {:induction false} SettingsLeaveLife(c: Conn, settings: seq<Setting>)
    ensures SameLife(c, ApplySettings(c, settings).0)
    decreases |settings|
  {
    hide Wrap64;
    if settings != [] {
      SettingsLeaveLife(ApplySetting(c, settings[0]).0, settings[1..]);
    }
  }

  predicate FlowEvent(e: Event) {
    !(e.EOpen? || e.ERemove? || e.EFinalize? || e.EHalt? || e.ESignal? || e.EDrain?)
  }

  lemma FlowLeavesLife(c: Conn, e: Event)
    requires Possible(c, e) && FlowEvent(e)
    ensures SameLife(c, Next(c, e))
  {
    hide PlanChunk, Refill, ApplySettings;
    if e.ESettings? {
      SettingsLeaveLife(c, e.settings);
    }
  }

  lemma StepKeeps(c: Conn, e: Event)
    requires LifeInv(c) && Possible(c, e)
    ensures LifeInv(Next(c, e))
  {
    hide LifeInv, SameLife, Next;
    if e.EOpen? {
      OpenKeeps(c, e.body);
      OpenIs(c, e);
    } else if FlowEvent(e) {
      FlowLeavesLife(c, e);
      LifeSame(c, Next(c, e));
    } else {
      LeavingKeeps(c, e);
    }
  }

  lemma OpenIs(c: Conn, e: Event)
    requires e.EOpen?
    ensures Possible(c, e) && Next(c, e) == Open(c, e.body)
  {
  }

  // --- Outcomes --------------------------------------------------------------------------------------------------

  /** A section that confuses no identifier leaves every stream settled. */
  lemma StepSettles(c: Conn, e: Event)
    requires LifeInv(c) && AllSettled(c) && Possible(c, e) && !Confuses(c, e)
    ensures AllSettled(Next(c, e))
  {
    hide IdOf, SameLife;
    var c' := Next(c, e);
    if e.EOpen? {
      OpenSettles(c, e.body);
    } else if FlowEvent(e) {
      FlowLeavesLife(c, e);
      SettledSame(c, c');
    } else {
      LeavingSettles(c, e);
    }
  }

  lemma SettledSame(c: Conn, c': Conn)
    requires SameLife(c, c')
    ensures AllSettled(c) ==> AllSettled(c')
    ensures SomeLost(c) ==> SomeLost(c')
  {
    if AllSettled(c) {
      forall k | 0 <= k < |c'.objs| ensures Settled(c', k) {
        assert Settled(c, k);
      }
    }
    if SomeLost(c) {
      var k :| 0 <= k < |c.objs| && Lost(c, k);
      assert Lost(c', k);
    }
  }

  lemma OpenSettles(c: Conn, body: Octets)
    requires LifeInv(c) && AllSettled(c) && !Confuses(c, EOpen(body))
    ensures AllSettled(Open(c, body))
  {
    hide IdOf;
    var c' := Open(c, body);
    if c.stage.Live? {
      forall k | 0 <= k < |c'.objs| ensures Settled(c', k) {
        if k < |c.objs| {
          assert Settled(c, k) && c'.objs[k] == c.objs[k];
        }
      }
    }
  }

  lemma LeavingSettles(c: Conn, e: Event)
    requires LifeInv(c) && AllSettled(c) && Possible(c, e) && !Confuses(c, e)
    requires e.ERemove? || e.EFinalize? || e.EHalt? || e.ESignal? || e.EDrain?
    ensures AllSettled(Next(c, e))
  {
    hide IdOf;
    var c' := Next(c, e);
    forall k | 0 <= k < |c'.objs| ensures Settled(c', k) {
      assert Settled(c, k);
    }
  }

  /** A section that confuses an identifier loses the stream that bears it. */
  lemma ConfusionLoses(c: Conn, e: Event)
    requires LifeInv(c) && Possible(c, e) && Confuses(c, e)
    ensures SomeLost(Next(c, e))
  {
    hide IdOf;
    var c' := Next(c, e);
    var k := if e.EOpen? then c.table[c.nextId] else c.table[c.objs[e.k].id];
    assert InTable(c, k);
    assert Lost(c', k);
  }

  /** Somebody stays lost: only another confusion could deliver to a lost stream, and that loses another one. */
  lemma LossStays(c: Conn, e: Event)
    requires LifeInv(c) && Possible(c, e) && SomeLost(c)
    ensures SomeLost(Next(c, e))
  {
    hide IdOf, SameLife;
    if Confuses(c, e) {
      ConfusionLoses(c, e);
    } else if FlowEvent(e) {
      FlowLeavesLife(c, e);
      SettledSame(c, Next(c, e));
    } else {
      var k :| 0 <= k < |c.objs| && Lost(c, k);
      StaysLost(c, e, k);
    }
  }

  lemma StaysLost(c: Conn, e: Event, k: nat)
    requires LifeInv(c) && Possible(c, e) && k < |c.objs| && Lost(c, k) && !FlowEvent(e) && !Confuses(c, e)
    ensures k < |Next(c, e).objs| && Lost(Next(c, e), k)
  {
    hide IdOf;
  }

  // --- Whole runs ----------------------------------------------------------------------------------------------------

  /** No section of the run confuses an identifier. */
  ghost predicate Orderly(c: Conn, events: seq<Event>)
    decreases |events|
  {
    events != [] && Possible(c, events[0]) ==> !Confuses(c, events[0]) && Orderly(Next(c, events[0]), events[1..])
  }

  lemma {:induction false} RunKeeps(c: Conn, events: seq<Event>, c': Conn)
    requires LifeInv(c) && Leads(c, events, c')
    ensures LifeInv(c')
    ensures AllSettled(c) && Orderly(c, events) ==> AllSettled(c')
    ensures SomeLost(c) || !Orderly(c, events) ==> SomeLost(c')
    decreases |events|
  {
    hide Next, Possible, LifeInv, Confuses, AllSettled, SomeLost;
    if events != [] {
      var e := events[0];
      StepKeeps(c, e);
      if SomeLost(c) {
        LossStays(c, e);
      }
      if Confuses(c, e) {
        ConfusionLoses(c, e);
      } else if AllSettled(c) {
        StepSettles(c, e);
      }
      RunKeeps(Next(c, e), events[1..], c');
    }
  }

  lemma ReachesLife(events: seq<Event>, c: Conn)
    requires Reaches(events, c)
    ensures LifeInv(c)
    ensures Orderly(NewConn(), events) ==> AllSettled(c)
    ensures !Orderly(NewConn(), events) ==> SomeLost(c)
  {
    hide Leads, Orderly, SomeLost;
    RunKeeps(NewConn(), events, c);
  }

  // --- What it means ---------------------------------------------------------------------------------------

  /** In every run all identifiers are odd, and they are pairwise different exactly up to 2^31 streams. */
  lemma IdsUniqueIff(events: seq<Event>, c: Conn)
    requires Reaches(events, c)
    ensures forall k :: 0 <= k < |c.objs| ==> c.objs[k].id % 2 == 1
    ensures (forall i, j :: 0 <= i < j < |c.objs| ==> c.objs[i].id != c.objs[j].id) <==> |c.objs| <= TWO31
  {
    hide Reaches;
    ReachesLife(events, c);
    if |c.objs| <= TWO31 {
      forall i, j | 0 <= i < j < |c.objs| ensures c.objs[i].id != c.objs[j].id {
        IdsDiffer(i, j);
      }
    } else {
      IdsDiffer(0, TWO31);
      assert c.objs[0].id == c.objs[TWO31].id;
    }
  }

  /**
   At every lock boundary of a run: every stream has no outcome while it is in the table and exactly one once it
   is out of it, if and only if no section took an identifier in use for another stream's.
   */
  lemma OneOutcomeEachIff(events: seq<Event>, c: Conn)
    requires Reaches(events, c)
    ensures (forall k :: 0 <= k < |c.objs| ==> c.objs[k].outcomes == if InTable(c, k) then 0 else 1) <==> Orderly(NewConn(), events)
  {
    hide Reaches, IdOf, Orderly;
    ReachesLife(events, c);
    if Orderly(NewConn(), events) {
      forall k | 0 <= k < |c.objs| ensures c.objs[k].outcomes == if InTable(c, k) then 0 else 1 {
        assert Settled(c, k);
      }
    } else {
      var k :| 0 <= k < |c.objs| && Lost(c, k);
    }
  }

  /** In every run doneChan is closed at most once, and after shutdown the table is empty: everybody has been told. */
  lemma DoneOnce(events: seq<Event>, c: Conn)
    requires Reaches(events, c)
    ensures c.closes <= 1 && (c.stage.Down? ==> c.table == map[])
    ensures c.stage.Down? && Orderly(NewConn(), events) ==> forall k :: 0 <= k < |c.objs| ==> c.objs[k].outcomes == 1
  {
    hide Reaches, IdOf, Orderly;
    ReachesLife(events, c);
    if c.stage.Down? && Orderly(NewConn(), events) {
      forall k | 0 <= k < |c.objs| ensures c.objs[k].outcomes == 1 {
        assert Settled(c, k);
      }
    }
  }

  // --- Runs without wrap-around are orderly ----------------------------------------------------------------------

  lemma StepOrderly(c: Conn, e: Event)
    requires LifeInv(c) && Possible(c, e) && |Next(c, e).objs| <= TWO31
    ensures !Confuses(c, e)
  {
    hide IdOf;
    if Confuses(c, e) {
      var k := if e.EOpen? then c.table[c.nextId] else c.table[c.objs[e.k].id];
      if e.EOpen? {
        IdsDiffer(k, |c.objs|);
      } else if k < e.k {
        IdsDiffer(k, e.k);
      } else {
        IdsDiffer(e.k, k);
      }
    }
  }

  lemma StepGrows(c: Conn, e: Event)
    requires Possible(c, e)
    ensures |c.objs| <= |Next(c, e).objs|
  {
    hide SameLife;
    if FlowEvent(e) {
      FlowLeavesLife(c, e);
      LengthSame(c, Next(c, e));
    }
  }

  lemma LengthSame(c: Conn, c': Conn)
    requires SameLife(c, c')
    ensures |c'.objs| == |c.objs|
  {
  }

  lemma {:induction false} ShortRunIsOrderly(c: Conn, events: seq<Event>, c': Conn)
    requires LifeInv(c) && Leads(c, events, c') && |c'.objs| <= TWO31
    ensures Orderly(c, events) && |c.objs| <= |c'.objs|
    decreases |events|
  {
    hide Next, Possible, LifeInv, Confuses;
    if events != [] {
      StepKeeps(c, events[0]);
      StepGrows(c, events[0]);
      ShortRunIsOrderly(Next(c, events[0]), events[1..], c');
      StepOrderly(c, events[0]);
    }
  }

  /** Short of 2^31 streams no interleaving drops or duplicates an outcome. */
  lemma OneOutcomeEach(events: seq<Event>, c: Conn, k: nat)
    requires Reaches(events, c) && k < |c.objs| <= TWO31
    ensures c.objs[k].outcomes == if InTable(c, k) then 0 else 1
  {
    hide Leads, Orderly;
    ShortRunIsOrderly(NewConn(), events, c);
    OneOutcomeEachIff(events, c);
  }
}
