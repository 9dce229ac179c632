/**
 The loops of the mind (internal/agent/llm_mind.go) in the shape of the code: each method makes
 the locked sections in the order the source has them, with arbitrary interference by the other
 goroutines in between. Every such execution is proved to be a run of the step system of module
 Mind, so the laws of that module hold for it.
 */
module MindLoops {
  import opened Mind

  /** What the foreign calls of one decision cycle do; `conclude` is the kind of action decided on. */
  datatype World = World(gather: Outcome, decide: Outcome, conclude: bool, record: Outcome, post: Outcome, status: Outcome)

  /** Who is executing: interference is by everybody else. */
  datatype Role = Decider | Watcher | Setter

  predicate OwnStep(me: Role, a: Step) {
    match me
    case Decider => !(a.Observe? || a.Process? || a.ObserverFails? || a.ObserverStops? || a.SetMission? || a.Recorded?)
    case Watcher => a.Observe? || a.Process? || a.ObserverFails? || a.ObserverStops?
    case Setter => false
  }

  /** What a goroutine may rely on while others take a step; another caller of SetMission is counted besides it. */
  ghost predicate Rely(me: Role, s: State, s': State) {
    && (me == Decider ==> s'.pc == s.pc && s'.concluded == s.concluded && s'.posts == s.posts && (s.ready ==> s'.ready))
    && (me == Watcher ==> s'.observer == s.observer)
    && (me == Setter && s.setters > 0 ==> s'.setters > 0)
  }

  /** Every step of somebody else keeps what is relied on. */
  lemma RelyIsKept(me: Role, s: State, a: Step)
    requires Enabled(s, a) && !OwnStep(me, a) && (me == Setter && a.Recorded? ==> s.setters > 1)
    ensures Rely(me, s, Next(s, a))
  {
  }

  /** The mode is the one aimed at, unless a terminal one has absorbed it. */
  predicate Landed(m: Mode, target: Mode) {
    m == target || m == Completed || m == Failed
  }

  /** A cycle gets past its guard with a mission, and neither ended nor paused. */
  predicate PassesGuard(mission: bool, m: Mode) {
    mission && m != Completed && m != Failed && m != Paused
  }

  /** A cycle that gets past its guard panics when the first call that does not succeed panics. */
  predicate CyclePanics(w: World) {
    || w.gather == Panics
    || (w.gather == Ok && w.decide == Panics)
    || (w.gather == Ok && w.decide == Ok && w.record == Panics)
    || (w.gather == Ok && w.decide == Ok && w.record == Ok && (w.post == Panics || (w.post == Err && w.status == Panics)))
  }

  datatype Run = Run(states: seq<State>, steps: seq<Step>)

  /** A run of the step system that has come to the state s. */
  ghost predicate At(r: Run, s: State) {
    IsRun(r.states, r.steps) && r.states[|r.steps|] == s
  }

  ghost predicate Extends(before: Run, r: Run) {
    before.steps <= r.steps && before.states <= r.states
  }

  lemma RunsOn(before: Run, r: Run, s: State, a: Step)
    requires At(r, s) && Extends(before, r) && Enabled(s, a)
    ensures At(Run(r.states + [Next(s, a)], r.steps + [a]), Next(s, a))
    ensures Extends(before, Run(r.states + [Next(s, a)], r.steps + [a]))
  {
    hide Enabled, Next;
  }

  class LLMMind {
    var currentState: Mode
    var hasMission: bool
    var stateReady: bool
    ghost var pc: Pc
    ghost var observer: Observer
    ghost var setters: nat
    ghost var concluded: bool
    ghost var posts: seq<bool>
    ghost var run: Run

    ghost function View(): State
      reads this
    {
      State(currentState, hasMission, stateReady, pc, observer, setters, concluded, posts)
    }

    /** What happened so far is a run of the step system, continues `before`, and stands here. */
    ghost predicate Valid(before: Run)
      reads this
    {
      At(run, View()) && Extends(before, run)
    }

    constructor ()
      ensures Valid(Run([START], [])) && View() == START
    {
      currentState, hasMission, stateReady := Initializing, false, false;
      pc, observer, setters, concluded, posts := Starting, Idle, 0, false, [];
      run := Run([START], []);
    }

    /** updateState: terminal states absorb. */
    method UpdateState(newState: Mode)
      modifies this`currentState
      ensures currentState == Updated(old(currentState), newState)
      ensures old(currentState) == Completed || old(currentState) == Failed ==> currentState == old(currentState)
      ensures old(currentState) != Completed && old(currentState) != Failed ==> currentState == newState
    {
      if currentState == newState {
        return;
      }
      if currentState == Failed || currentState == Completed {
        return;
      }
      currentState := newState;
    }

    /** signalStateReady: a full channel keeps its one signal. */
    method SignalStateReady()
      modifies this`stateReady
      ensures stateReady
    {
      stateReady := true;
    }

    /** The real fields have made the step `a` from `s`; the history follows. */
    ghost method Note(before: Run, s: State, a: Step)
      requires At(run, s) && Extends(before, run) && Enabled(s, a)
      requires currentState == Next(s, a).mode && hasMission == Next(s, a).mission && stateReady == Next(s, a).ready
      modifies this`pc, this`observer, this`setters, this`concluded, this`posts, this`run
      ensures Valid(before) && View() == Next(s, a)
    {
      hide Next, Enabled, At, Extends;
      RunsOn(before, run, s, a);
      var s' := Next(s, a);
      pc, observer, setters, concluded, posts := s'.pc, s'.observer, s'.setters, s'.concluded, s'.posts;
      run := Run(run.states + [s'], run.steps + [a]);
    }

    /** Any steps of the other goroutines; a caller knows only that they are steps and not its own. */
    method Others(ghost before: Run, ghost me: Role)
      requires Valid(before)
      modifies this
      ensures Valid(before) && Rely(me, old(View()), View())
    {
    }

    /** Interference cannot undo a terminal state. */
    method Interfered(ghost before: Run)
      requires Valid(before)
      modifies this
      ensures Valid(before) && pc == old(pc) && concluded == old(concluded) && posts == old(posts)
      ensures (old(Terminal(currentState)) ==> Terminal(currentState)) && (old(stateReady) ==> stateReady)
    {
      hide At, Extends;
      ghost var r, s := run, View();
      Refl(r);
      Others(r, Decider);
      Stays(before, r, s, run, View());
    }

    /** The decision loop moves the state and goes on at `to`. */
    method Advance(ghost before: Run, target: Mode, ghost a: Step, ghost to: Pc)
      requires Valid(before)
      requires forall s: State :: s.pc == pc ==> Enabled(s, a) && Next(s, a) == s.(mode := Updated(s.mode, target), pc := to)
      modifies this
      ensures Valid(before) && pc == to && concluded == old(concluded) && posts == old(posts)
      ensures Terminal(target) || old(Terminal(currentState)) ==> Terminal(currentState)
      ensures Landed(currentState, target) && (currentState == Completed ==> concluded)
    {
      hide At, Extends, Next, Enabled, Updated;
      Interfered(before);
      ghost var s := View();
      UpdateState(target);
      Note(before, s, a);
      CompletedIsConcluded(run, View());
    }

    /** One cycle of the decision loop, from the guard to its end or to a panic. */
    method ExecuteDecisionCycle(ghost before: Run, w: World) returns (panics: bool)
      requires Valid(before) && pc == Reading
      modifies this
      ensures Valid(before) && pc == if panics then Recovering else Waiting
      ensures !old(PassesGuard(hasMission, currentState)) ==> posts == old(posts) && !panics && currentState == old(currentState)
      ensures old(PassesGuard(hasMission, currentState)) ==>
                && posts == (if w.gather == Ok && w.decide == Ok && w.record == Ok then old(posts) + [w.conclude] else old(posts))
                && (panics <==> CyclePanics(w))
                && (w.gather == Err || (w.gather == Ok && w.decide == Err) ==> Landed(currentState, Observing))
                && (w.gather == Ok && w.decide == Ok && w.record == Err ==>
                      Terminal(currentState) && (!old(concluded) && !w.conclude ==> currentState == Failed))
                && (w.gather == Ok && w.decide == Ok && w.conclude ==> Terminal(currentState))
                && (w.gather == Ok && w.decide == Ok && w.record == Ok && w.post == Ok && !w.conclude ==> Landed(currentState, Observing))
    {
      hide At, Extends;
      panics := false;
      ghost var s := View();
      Note(before, s, Read);
      if !hasMission || currentState == Completed || currentState == Failed || currentState == Paused {
        return;
      }
      var ok;
      panics, ok := OrientPhase(before, w);
      if panics || !ok {
        return;
      }
      panics, ok := DecidePhase(before, w);
      if panics || !ok {
        return;
      }
      panics := ActPhase(before, w);
    }

    method OrientPhase(ghost before: Run, w: World) returns (panics: bool, ok: bool)
      requires Valid(before) && pc == Orient
      modifies this
      ensures Valid(before) && posts == old(posts) && concluded == old(concluded)
      ensures (panics <==> w.gather == Panics) && (ok <==> w.gather == Ok) && (w.gather == Err ==> Landed(currentState, Observing))
      ensures pc == if panics then Recovering else if ok then Decide else Waiting
    {
      hide At, Extends;
      panics, ok := w.gather == Panics, w.gather == Ok;
      Advance(before, Orienting, ToOrienting, Gathering);
      if panics {
        Note(before, View(), Panic);
        return;
      }
      Note(before, View(), Gather(ok));
      if !ok {
        Advance(before, Observing, ToObserving, Waiting);
      }
    }

    method DecidePhase(ghost before: Run, w: World) returns (panics: bool, ok: bool)
      requires Valid(before) && pc == Decide
      modifies this
      ensures Valid(before) && posts == old(posts) && concluded == (old(concluded) || (ok && w.conclude))
      ensures (panics <==> w.decide == Panics) && (ok <==> w.decide == Ok) && (w.decide == Err ==> Landed(currentState, Observing))
      ensures pc == if panics then Recovering else if ok then Decided(w.conclude) else Waiting
    {
      hide At, Extends;
      panics, ok := w.decide == Panics, w.decide == Ok;
      Advance(before, Deciding, ToDeciding, Asking);
      if panics {
        Note(before, View(), Panic);
        return;
      }
      Note(before, View(), Ask(ok, w.conclude));
      if !ok {
        Advance(before, Observing, ToObserving, Waiting);
      }
    }

    method ActPhase(ghost before: Run, w: World) returns (panics: bool)
      requires Valid(before) && pc == Decided(w.conclude)
      modifies this
      ensures Valid(before) && pc == if panics then Recovering else Waiting
      ensures posts == if w.record == Ok then old(posts) + [w.conclude] else old(posts)
      ensures panics <==> w.record == Panics || (w.record == Ok && (w.post == Panics || (w.post == Err && w.status == Panics)))
      ensures w.conclude ==> Terminal(currentState)
      ensures w.record == Err ==> Terminal(currentState) && (!old(concluded) ==> currentState == Failed)
      ensures w.record == Ok && w.post == Ok && !w.conclude ==> Landed(currentState, Observing)
    {
      hide At, Extends;
      if w.conclude {
        Advance(before, Completed, ToCompletedOrActing, Recording(true));
      } else {
        Advance(before, Acting, ToCompletedOrActing, Recording(false));
      }
      panics := RecordAction(before, w);
    }

    /** Without a record of the action in the graph nothing is posted. */
    method RecordAction(ghost before: Run, w: World) returns (panics: bool)
      requires Valid(before) && pc == Recording(w.conclude) && (w.conclude ==> Terminal(currentState))
      modifies this
      ensures Valid(before) && pc == if panics then Recovering else Waiting
      ensures posts == if w.record == Ok then old(posts) + [w.conclude] else old(posts)
      ensures panics <==> w.record == Panics || (w.record == Ok && (w.post == Panics || (w.post == Err && w.status == Panics)))
      ensures w.conclude ==> Terminal(currentState)
      ensures w.record == Err ==> Terminal(currentState) && (!old(concluded) ==> currentState == Failed)
      ensures w.record == Ok && w.post == Ok && !w.conclude ==> Landed(currentState, Observing)
    {
      hide At, Extends;
      Interfered(before);
      panics := w.record == Panics;
      if panics {
        Note(before, View(), Panic);
        return;
      }
      Note(before, View(), Record(w.record == Ok));
      if w.record != Ok {
        Advance(before, Failed, ToFailed, Waiting);
        return;
      }
      panics := PostAction(before, w);
    }

    /** Post, and the bookkeeping after it. */
    method PostAction(ghost before: Run, w: World) returns (panics: bool)
      requires Valid(before) && pc == Posting(w.conclude) && (w.conclude ==> Terminal(currentState))
      modifies this
      ensures Valid(before) && pc == (if panics then Recovering else Waiting) && posts == old(posts) + [w.conclude]
      ensures panics <==> w.post == Panics || (w.post == Err && w.status == Panics)
      ensures w.conclude ==> Terminal(currentState)
      ensures w.post == Ok && !w.conclude ==> Landed(currentState, Observing)
    {
      hide At, Extends;
      Interfered(before);
      Note(before, View(), Post(w.post));
      panics := w.post == Panics;
      if panics {
        return;
      }
      if w.post == Ok {
        Interfered(before);
        ghost var s := View();
        if !w.conclude {
          UpdateState(Observing);
        }
        Note(before, s, AfterPost);
        return;
      }
      panics := PostFailure(before, w);
    }

    method PostFailure(ghost before: Run, w: World) returns (panics: bool)
      requires Valid(before) && pc == PostFailed(w.conclude) && (w.conclude ==> Terminal(currentState))
      modifies this
      ensures Valid(before) && pc == (if panics then Recovering else Waiting) && posts == old(posts)
      ensures (panics <==> w.status == Panics) && (w.conclude ==> Terminal(currentState))
      ensures (w.status == Err ==> Terminal(currentState)) && (w.status == Ok && !w.conclude ==> Landed(currentState, Observing))
    {
      hide At, Extends;
      Interfered(before);
      panics := w.status == Panics;
      ghost var s := View();
      if panics {
        Note(before, s, Panic);
        return;
      }
      if w.status != Ok {
        UpdateState(Failed);
      } else if !w.conclude {
        UpdateState(Observing);
      }
      Note(before, s, AfterPostFailure(w.status == Ok));
    }

    /** One turn of the loop of Start: a pending signal starts a cycle, and a panic in it is recovered. */
    method Turn(ghost before: Run, w: World) returns (ran: bool)
      requires Valid(before) && pc == Waiting
      modifies this
      ensures Valid(before) && pc == Waiting && (old(stateReady) ==> ran)
      ensures posts == old(posts) || (ran && w.gather == Ok && w.decide == Ok && w.record == Ok && posts == old(posts) + [w.conclude])
    {
      hide At, Extends;
      Interfered(before);
      ran := stateReady;
      if ran {
        ghost var s := View();
        stateReady := false;
        Note(before, s, Take);
        Interfered(before);
        var panics := ExecuteDecisionCycle(before, w);
        if panics {
          Advance(before, Observing, Recover, Waiting);
        }
      }
    }

    /** The loop of Start over as many turns as there are: at most one CONCLUDE is posted, and nothing after it. */
    method DecisionLoop(ghost before: Run, turns: seq<World>)
      requires Valid(before) && pc == Starting
      modifies this
      ensures Valid(before) && pc == Stopped
      ensures forall k :: 0 <= k < |posts| && posts[k] ==> k == |posts| - 1
    {
      hide At, Extends;
      Advance(before, Observing, Begin, Waiting);
      for i := 0 to |turns|
        invariant Valid(before) && pc == Waiting
      {
        var _ := Turn(before, turns[i]);
      }
      Note(before, View(), Stop);
      ConcludedOnce(run, View());
    }

    /** One message of the observer loop; `false` ends the loop. */
    method ObserveOne(ghost before: Run, critical: bool) returns (goOn: bool)
      requires Valid(before) && observer == Idle
      modifies this
      ensures Valid(before) && goOn == !critical
      ensures observer == (if goOn then Idle else Gone) && (critical ==> Terminal(currentState)) && (!critical ==> stateReady)
    {
      hide At, Extends;
      Others(before, Watcher);
      ghost var s := View();
      UpdateState(Observing);
      Note(before, s, Observe);
      goOn := FinishObservation(before, critical);
    }

    method FinishObservation(ghost before: Run, critical: bool) returns (goOn: bool)
      requires Valid(before) && observer == Announced
      modifies this
      ensures Valid(before) && goOn == !critical
      ensures observer == (if goOn then Idle else Gone) && (critical ==> Terminal(currentState)) && (!critical ==> stateReady)
    {
      hide At, Extends;
      Others(before, Watcher);
      if !critical {
        ghost var s := View();
        SignalStateReady();
        Note(before, s, Process(true));
        return true;
      }
      Note(before, View(), Process(false));
      Others(before, Watcher);
      ghost var s := View();
      UpdateState(Failed);
      Note(before, s, ObserverFails);
      return false;
    }

    /** SetMission; `recorded` says whether the mission node exists or could be added. */
    method SetMission(ghost before: Run, nonempty: bool, recorded: bool)
      requires Valid(before)
      modifies this
      ensures Valid(before) && (recorded ==> stateReady) && (!recorded ==> Terminal(currentState))
    {
      hide At, Extends;
      Others(before, Setter);
      AssignMission(before, nonempty);
      MissionRecorded(before, recorded);
    }

    /** The locked section of SetMission. */
    method AssignMission(ghost before: Run, nonempty: bool)
      requires Valid(before)
      modifies this
      ensures Valid(before) && hasMission == nonempty && setters > 0 && stateReady == old(stateReady)
      ensures currentState == if old(currentState) == Initializing then Observing else old(currentState)
    {
      hide At, Extends;
      ghost var s := View();
      hasMission := nonempty;
      if currentState == Initializing || currentState == Observing {
        currentState := Observing;
      }
      Note(before, s, Step.SetMission(nonempty));
    }

    method MissionRecorded(ghost before: Run, recorded: bool)
      requires Valid(before) && setters > 0
      modifies this
      ensures Valid(before) && (recorded ==> stateReady) && (!recorded ==> Terminal(currentState))
    {
      hide At, Extends;
      Others(before, Setter);
      ghost var s := View();
      if recorded {
        SignalStateReady();
      } else {
        UpdateState(Failed);
      }
      Note(before, s, Recorded(recorded));
    }
  }

  lemma Refl(r: Run)
    ensures Extends(r, r)
  {
  }

  /** Whatever happens in between, a terminal state is not left. */
  lemma Stays(before: Run, r: Run, s: State, r': Run, s': State)
    requires Extends(before, r) && At(r, s) && Extends(r, r') && At(r', s')
    ensures Extends(before, r') && (Terminal(s.mode) ==> Terminal(s'.mode))
  {
    if Terminal(s.mode) {
      TerminalForever(r'.states, r'.steps, |r.steps|, |r'.steps|);
    }
  }

  lemma CompletedIsConcluded(r: Run, s: State)
    requires At(r, s)
    ensures s.mode == Completed ==> s.concluded
  {
    RunKeepsInv(r.states, r.steps, |r.steps|);
  }

  lemma ConcludedOnce(r: Run, s: State)
    requires At(r, s)
    ensures forall k :: 0 <= k < |s.posts| && s.posts[k] ==> k == |s.posts| - 1
  {
    forall k | 0 <= k < |s.posts| && s.posts[k] ensures k == |s.posts| - 1 {
      ConcludeIsLast(r.states, r.steps, |r.steps|, k);
    }
  }
}
