/**
 The state machine of the mind (internal/agent/llm_mind.go): the decision loop, the observer
 loop and callers of SetMission interleave at the granularity of updateState and of the other
 locked sections. Every call the mind makes to the graph, the model or the bus may succeed,
 fail or panic.
 */
module Mind {

  datatype Mode = Initializing | Observing | Orienting | Deciding | Acting | Paused | Completed | Failed

  predicate Terminal(m: Mode) {
    m == Completed || m == Failed
  }

  /** updateState: no move out of a terminal state. */
  function Updated(m: Mode, target: Mode): (r: Mode)
    ensures Terminal(m) ==> r == m
    ensures !Terminal(m) ==> r == target
  {
    if m == target then m else if Terminal(m) then m else target
  }

  /** Positions of the decision loop; `c` says whether the decided action is CONCLUDE. */
  datatype Pc =
    | Starting | Waiting | Reading | Orient | Gathering | Decide | Asking
    | Decided(c: bool) | Recording(c: bool) | Posting(c: bool) | Posted(c: bool) | PostFailed(c: bool)
    | BackToObserving | GivingUp | Recovering | Stopped

  datatype Observer = Idle | Announced | FailedToRecord | Gone

  /** `posts` lists the calls of Post by the decision loop, true for CONCLUDE; `concluded` is set when CONCLUDE is decided. */
  datatype State = State(mode: Mode, mission: bool, ready: bool, pc: Pc, observer: Observer, setters: nat,
                         concluded: bool, posts: seq<bool>)

  const START := State(Initializing, false, false, Starting, Idle, 0, false, [])

  datatype Outcome = Ok | Err | Panics

  /** Panic is a panic inside a foreign call; nothing else between two locked sections can panic. */
  datatype Step =
    | Begin | Take | Read | ToOrienting | Gather(ok: bool) | ToDeciding | Ask(ok: bool, conclude: bool)
    | ToCompletedOrActing | Record(ok: bool) | Post(result: Outcome) | AfterPost | AfterPostFailure(statusOk: bool)
    | ToObserving | ToFailed | Panic | Recover | Stop
    | Observe | Process(ok: bool) | ObserverFails | ObserverStops
    | SetMission(nonempty: bool) | Recorded(ok: bool)

  predicate InForeignCall(pc: Pc) {
    pc.Gathering? || pc.Asking? || pc.Recording? || pc.PostFailed?
  }

  predicate Enabled(s: State, a: Step) {
    match a
    case Begin => s.pc == Starting
    case Take => s.pc == Waiting && s.ready
    case Read => s.pc == Reading
    case ToOrienting => s.pc == Orient
    case Gather(_) => s.pc == Gathering
    case ToDeciding => s.pc == Decide
    case Ask(_, _) => s.pc == Asking
    case ToCompletedOrActing => s.pc.Decided?
    case Record(_) => s.pc.Recording?
    case Post(_) => s.pc.Posting?
    case AfterPost => s.pc.Posted?
    case AfterPostFailure(_) => s.pc.PostFailed?
    case ToObserving => s.pc == BackToObserving
    case ToFailed => s.pc == GivingUp
    case Panic => InForeignCall(s.pc)
    case Recover => s.pc == Recovering
    case Stop => s.pc == Waiting || s.pc == Starting
    case Observe => s.observer == Idle
    case Process(_) => s.observer == Announced
    case ObserverFails => s.observer == FailedToRecord
    case ObserverStops => s.observer == Idle
    case SetMission(_) => true
    case Recorded(_) => s.setters > 0
  }

  function Next(s: State, a: Step): State
    requires Enabled(s, a)
  {
    match a
    case Begin => s.(mode := Updated(s.mode, Observing), pc := Waiting)
    case Take => s.(ready := false, pc := Reading)
    case Read => s.(pc := if !s.mission || Terminal(s.mode) || s.mode == Paused then Waiting else Orient)
    case ToOrienting => s.(mode := Updated(s.mode, Orienting), pc := Gathering)
    case Gather(ok) => s.(pc := if ok then Decide else BackToObserving)
    case ToDeciding => s.(mode := Updated(s.mode, Deciding), pc := Asking)
    case Ask(ok, conclude) =>
      if ok then s.(pc := Decided(conclude), concluded := s.concluded || conclude) else s.(pc := BackToObserving)
    case ToCompletedOrActing => s.(mode := Updated(s.mode, if s.pc.c then Completed else Acting), pc := Recording(s.pc.c))
    case Record(ok) => s.(pc := if ok then Posting(s.pc.c) else GivingUp)
    case Post(r) =>
      s.(posts := s.posts + [s.pc.c], pc := match r case Ok => Posted(s.pc.c) case Err => PostFailed(s.pc.c) case Panics => Recovering)
    case AfterPost => s.(mode := if s.pc.c then s.mode else Updated(s.mode, Observing), pc := Waiting)
    case AfterPostFailure(statusOk) =>
      s.(mode := if !statusOk then Updated(s.mode, Failed) else if s.pc.c then s.mode else Updated(s.mode, Observing), pc := Waiting)
    case ToObserving => s.(mode := Updated(s.mode, Observing), pc := Waiting)
    case ToFailed => s.(mode := Updated(s.mode, Failed), pc := Waiting)
    case Panic => s.(pc := Recovering)
    case Recover => s.(mode := Updated(s.mode, Observing), pc := Waiting)
    case Stop => s.(pc := Stopped)
    case Observe => s.(mode := Updated(s.mode, Observing), observer := Announced)
    case Process(ok) => if ok then s.(ready := true, observer := Idle) else s.(observer := FailedToRecord)
    case ObserverFails => s.(mode := Updated(s.mode, Failed), observer := Gone)
    case ObserverStops => s.(observer := Gone)
    case SetMission(nonempty) =>
      s.(mission := nonempty, setters := s.setters + 1,
         mode := if s.mode == Initializing || s.mode == Observing then Observing else s.mode)
    case Recorded(ok) =>
      if ok then s.(setters := s.setters - 1, ready := true)
      else s.(setters := s.setters - 1, mode := Updated(s.mode, Failed))
  }

  /** A conclusion that has been decided and not been posted yet. */
  predicate ConclusionPending(pc: Pc) {
    (pc.Decided? || pc.Recording? || pc.Posting?) && pc.c
  }

  /** Positions the loop can be in once it has decided to conclude. */
  predicate AfterConclusion(pc: Pc) {
    ConclusionPending(pc) || ((pc.Posted? || pc.PostFailed?) && pc.c)
    || pc.Waiting? || pc.Reading? || pc.GivingUp? || pc.Recovering? || pc.Stopped?
  }

  ghost predicate Inv(s: State) {
    && (s.concluded ==> AfterConclusion(s.pc) && (s.pc == Decided(true) || Terminal(s.mode)))
    && (!s.concluded || ConclusionPending(s.pc) ==> true !in s.posts)
    && (!s.concluded && (s.pc.Decided? || s.pc.Recording? || s.pc.Posting? || s.pc.Posted? || s.pc.PostFailed?) ==> !s.pc.c)
    && (forall i :: 0 <= i < |s.posts| - 1 ==> !s.posts[i])
    && (s.mode == Completed ==> s.concluded)
  }

  lemma PostKeepsInv(s: State, r: Outcome)
    requires Inv(s) && s.pc.Posting?
    ensures Inv(Next(s, Post(r)))
  {
    assert forall i :: 0 <= i < |s.posts| ==> (true !in s.posts ==> !s.posts[i]);
  }

  lemma StepKeepsInv(s: State, a: Step)
    requires Inv(s) && Enabled(s, a)
    ensures Inv(Next(s, a))
  {
    if a.Post? {
      PostKeepsInv(s, a.result);
    }
  }

  /** The mode after each step that is not absorbed by a terminal one. */
  lemma StepModes(s: State, a: Step)
    requires Enabled(s, a) && !Terminal(s.mode)
    ensures a in {Begin, ToObserving, Recover, Observe} ==> Next(s, a).mode == Observing
    ensures (a == ToOrienting ==> Next(s, a).mode == Orienting) && (a == ToDeciding ==> Next(s, a).mode == Deciding)
    ensures a == ToCompletedOrActing ==> Next(s, a).mode == if s.pc.c then Completed else Acting
    ensures a in {ToFailed, ObserverFails, Recorded(false), AfterPostFailure(false)} ==> Next(s, a).mode == Failed
    ensures a in {AfterPost, AfterPostFailure(true)} ==> Next(s, a).mode == if s.pc.c then s.mode else Observing
    ensures a.SetMission? ==> Next(s, a).mode == (if s.mode == Initializing then Observing else s.mode) && (Next(s, a).mission <==> a.nonempty)
    ensures a.Take? || a.Read? || a.Gather? || a.Ask? || a.Record? || a.Post? || a.Panic? || a.Stop? || a.Process? || a.ObserverStops?
            ==> Next(s, a).mode == s.mode
  {
  }

  /** What one step may do to a terminal mode and to the posts of a loop that has decided to conclude. */
  lemma StepAfterTheEnd(s: State, a: Step)
    requires Inv(s) && Enabled(s, a)
    ensures Terminal(s.mode) ==> Next(s, a).mode == s.mode
    ensures s.concluded ==> Next(s, a).concluded
    ensures s.concluded ==> Next(s, a).posts == s.posts || (true !in s.posts && Next(s, a).posts == s.posts + [true])
  {
  }

  ghost predicate IsRun(states: seq<State>, steps: seq<Step>) {
    && |states| == |steps| + 1 && states[0] == START
    && forall i :: 0 <= i < |steps| ==> Enabled(states[i], steps[i]) && states[i + 1] == Next(states[i], steps[i])
  }

  lemma {:induction false} RunKeepsInv(states: seq<State>, steps: seq<Step>, n: nat)
    requires IsRun(states, steps) && n < |states|
    ensures Inv(states[n])
  {
    if n > 0 {
      RunKeepsInv(states, steps, n - 1);
      StepKeepsInv(states[n - 1], steps[n - 1]);
    }
  }

  /** COMPLETED and FAILED are never left, by any interleaving. */
  lemma {:induction false} TerminalForever(states: seq<State>, steps: seq<Step>, i: nat, j: nat)
    requires IsRun(states, steps) && i <= j < |states| && Terminal(states[i].mode)
    ensures states[j].mode == states[i].mode
  {
    hide Inv, Enabled, Next;
    if i < j {
      TerminalForever(states, steps, i, j - 1);
      RunKeepsInv(states, steps, j - 1);
      StepAfterTheEnd(states[j - 1], steps[j - 1]);
    }
  }

  /** CONCLUDE is posted at most once, and nothing is posted after it. */
  lemma ConcludeIsLast(states: seq<State>, steps: seq<Step>, n: nat, k: nat)
    requires IsRun(states, steps) && n < |states| && k < |states[n].posts| && states[n].posts[k]
    ensures k == |states[n].posts| - 1
  {
    RunKeepsInv(states, steps, n);
  }

  /** From the moment CONCLUDE is decided the loop posts that one action or nothing. */
  lemma {:induction false} NothingAfterTheDecision(states: seq<State>, steps: seq<Step>, i: nat, j: nat)
    requires IsRun(states, steps) && i <= j < |states| && states[i].concluded
    ensures states[j].concluded
    ensures states[j].posts == states[i].posts || states[j].posts == states[i].posts + [true]
    ensures true in states[i].posts ==> states[j].posts == states[i].posts
  {
    hide Inv, Enabled, Next;
    if i < j {
      NothingAfterTheDecision(states, steps, i, j - 1);
      RunKeepsInv(states, steps, j - 1);
      StepAfterTheEnd(states[j - 1], steps[j - 1]);
    }
  }

  /** The decision makes the mode terminal before the next cycle can start: later cycles stop at the guard. */
  lemma ConcludedMeansTerminal(states: seq<State>, steps: seq<Step>, n: nat)
    requires IsRun(states, steps) && n < |states| && states[n].concluded && states[n].pc == Reading
    ensures Terminal(states[n].mode) && Next(states[n], Read).pc == Waiting
  {
    RunKeepsInv(states, steps, n);
  }
}
