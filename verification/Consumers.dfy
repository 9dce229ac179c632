/**
 The two consumers of the cognitive bus: the agent's action loop (internal/agent/agent.go)
 and the body of the mind's observer loop (internal/agent/llm_mind.go). The step system of the
 bus lets a consumer acknowledge each received copy once; this file shows that the code does
 so exactly once on every path, panics included.
 */
module Consumers {

  /** What a call that this code cannot see does. */
  datatype Call<+T> = Returns(value: T) | Panics

  datatype Action = Conclude | EvolveCodebase | Other

  datatype Payload = AnAction(action: Action) | SomethingElse

  /** `(result, err)` with nil-ness only. */
  datatype Pair = Pair(result: bool, err: bool)

  /**
   The outcome of every foreign call one message may lead to. The three `...Fails` entries are the
   steps of concludeMission; `evolve` and `execute` report a nil result as false.
   */
  datatype World = World(gatherFails: Call<bool>, marshalFails: Call<bool>, generateFails: Call<bool>,
                         evolve: Call<bool>, execute: Call<Pair>, postObservation: Call<()>, finish: Call<()>)

  /** Never (nil, nil) and never both: a failed summary is replaced by a fixed text. */
  function ConcludeMission(w: World): (r: Call<Pair>)
    ensures r.Returns? ==> r.value.result != r.value.err
    ensures r == Returns(Pair(true, false)) <==> w.gatherFails == Returns(false) && w.marshalFails == Returns(false) && w.generateFails.Returns?
  {
    if w.gatherFails.Panics? then Panics
    else if w.gatherFails.value then Returns(Pair(false, true))
    else if w.marshalFails.Panics? then Panics
    else if w.marshalFails.value then Returns(Pair(false, true))
    else if w.generateFails.Panics? then Panics
    else Returns(Pair(true, false))
  }

  datatype Flow = Stop | Continue | Panicking

  /** The conclusion succeeds: context gathered and marshalled, and a summary, generated or fixed. */
  predicate Concludes(w: World) {
    w.gatherFails == Returns(false) && w.marshalFails == Returns(false) && !w.generateFails.Panics?
  }

  /** Some call of the ordinary path panics before the observation is out. */
  predicate ActionPanics(action: Action, w: World) {
    || (action == EvolveCodebase && w.evolve.Panics?)
    || ((action == Other || w.evolve == Returns(false)) && w.execute.Panics?)
    || w.postObservation.Panics?
  }

  /**
   The message processing proper, up to the point where it returns or panics; `observed` and `finished` say
   whether an observation was posted and whether the mission was finished.
   */
  method ProcessBody(payload: Payload, w: World) returns (flow: Flow, acks: nat, acknowledged: bool, observed: bool, finished: bool)
    ensures acks == if acknowledged then 1 else 0
    ensures flow != Panicking ==> acknowledged
    ensures flow == Stop <==> payload == AnAction(Conclude) && Concludes(w) && !w.finish.Panics?
    ensures observed <==> payload.AnAction? && payload.action != Conclude && !ActionPanics(payload.action, w)
    ensures finished <==> payload == AnAction(Conclude) && Concludes(w)
  {
    acks, acknowledged, observed, finished := 0, false, false, false;
    if payload.SomethingElse? {
      acks, acknowledged := acks + 1, true;
      flow := Continue;
      return;
    }
    var execResult := false;
    match payload.action {
      case Conclude =>
        var concluded := ConcludeMission(w);
        if concluded.Panics? {
          flow := Panicking;
          return;
        }
        if concluded.value.err {
          acks, acknowledged := acks + 1, true;
          flow := Continue;
          return;
        }
        if concluded.value.result {
          acks, acknowledged, finished := acks + 1, true, true;
          if w.finish.Panics? {
            flow := Panicking;
            return;
          }
        }
        flow := Stop;
        return;
      case EvolveCodebase =>
        if w.evolve.Panics? {
          flow := Panicking;
          return;
        }
        execResult := w.evolve.value;
      case Other =>
    }
    if !execResult {
      if w.execute.Panics? {
        flow := Panicking;
        return;
      }
      // an error or a nil result is replaced by a fallback result
      execResult := true;
    }
    if w.postObservation.Panics? {
      flow := Panicking;
      return;
    }
    observed := true;
    acks, acknowledged := acks + 1, true;
    flow := Continue;
  }

  /**
   With the deferred recovery: exactly one acknowledgement whatever happens. The loop stops exactly on a
   successful conclusion, every other action that does not panic is answered by an observation.
   */
  method ProcessActionMessage(payload: Payload, w: World) returns (stopLoop: bool, acks: nat, observed: bool, finished: bool)
    ensures acks == 1
    ensures stopLoop <==> payload == AnAction(Conclude) && Concludes(w) && !w.finish.Panics?
    ensures observed <==> payload.AnAction? && payload.action != Conclude && !ActionPanics(payload.action, w)
    ensures finished <==> payload == AnAction(Conclude) && Concludes(w)
  {
    var flow, sent, acknowledged;
    flow, sent, acknowledged, observed, finished := ProcessBody(payload, w);
    acks := sent;
    if flow == Panicking {
      if !acknowledged {
        acks := acks + 1;
      }
      stopLoop := false;
      return;
    }
    stopLoop := flow == Stop;
  }

  /** The message after which the loop leaves. */
  predicate Ends(m: (Payload, World)) {
    m.0 == AnAction(Conclude) && Concludes(m.1) && !m.1.finish.Panics?
  }

  /** The loop over whatever arrives before the channel is closed or the context is cancelled. */
  method ActionLoop(arriving: seq<(Payload, World)>) returns (received: nat, acks: nat)
    ensures acks == received <= |arriving|
    ensures received < |arriving| ==> received > 0 && arriving[received - 1].0 == AnAction(Conclude)
    ensures forall i :: 0 <= i < received - 1 ==> !Ends(arriving[i])
    ensures received < |arriving| ==> Ends(arriving[received - 1])
  {
    received, acks := 0, 0;
    while received < |arriving|
      invariant acks == received <= |arriving|
      invariant forall i :: 0 <= i < received ==> !Ends(arriving[i])
    {
      var stop, sent, _, _ := ProcessActionMessage(arriving[received].0, arriving[received].1);
      received, acks := received + 1, acks + sent;
      if stop {
        return;
      }
    }
  }

  /** Processing of an observation: an error may or may not be the critical one. */
  datatype Processed = Fine | MinorError | CriticalError

  /** One observation: the acknowledgement is deferred first, so it runs after the recovery. */
  method ObserveMessage(isObservation: bool, process: Call<Processed>) returns (acks: nat, processingFailed: bool, ready: bool)
    ensures acks == 1
    ensures processingFailed <==> isObservation && (process.Panics? || process.value == CriticalError)
    ensures ready <==> !processingFailed
  {
    acks, processingFailed, ready := 0, false, false;
    var panicking := false;
    if isObservation {
      if process.Panics? {
        panicking := true;
      } else if process.value == CriticalError {
        processingFailed := true;
      }
    }
    if !panicking && !processingFailed {
      ready := true;
    }
    if panicking {
      processingFailed := true;
    }
    acks := acks + 1;
  }
}
