/**
 The long-term memory of the agent (internal/agent/long_term_memory.go): a cache of
 observations with a second index by payload hash, filled by the mind's single observation
 loop and emptied by a janitor that may run between any two critical sections.
 */
module LongTermMemory {
  import opened Basics

  type ObsId = string
  type Hash = seq<nat>

  datatype Cached = Cached(payload: seq<nat>, hash: Hash, timestamp: int)

  datatype Flag = IsCritical | IsRedundant | IsError | IsVulnerability

  /** `payload` is the marshalled data, absent when marshalling fails. */
  datatype Observation = Observation(id: ObsId, failedWithCode: bool, findings: nat, evolutionResult: bool,
                                     payload: Option<seq<nat>>)

  /** The two tables. */
  datatype Memory = Memory(cache: map<ObsId, Cached>, hashes: map<Hash, ObsId>) {

    /** The hash index is the inverse of the cache's hash column. */
    ghost predicate Bijective() {
      && (forall id <- cache :: cache[id].hash in hashes && hashes[cache[id].hash] == id)
      && (forall h <- hashes :: hashes[h] in cache && cache[hashes[h]].hash == h)
    }

    function Added(id: ObsId, entry: Cached): Memory {
      if id in cache then this else Memory(cache[id := entry], hashes[entry.hash := id])
    }

    /** What a purge at time `now` must leave: nothing older than the time to live, everything else. */
    ghost function Purged(now: int, ttl: int): Memory {
      Memory(map id | id in cache && now - cache[id].timestamp <= ttl :: cache[id],
             map h | h in hashes && (forall id <- cache :: cache[id].hash == h ==> now - cache[id].timestamp <= ttl) :: hashes[h])
    }
  }

  const DEFAULT_TTL: int := 300 * 1_000_000_000

  /** A configured value of zero or less means five minutes. */
  function EffectiveTtl(configuredSeconds: int): (ttl: int)
    ensures ttl > 0
    ensures configuredSeconds > 0 ==> ttl == 1_000_000_000 * configuredSeconds
    ensures configuredSeconds <= 0 ==> ttl == 5 * 60 * 1_000_000_000
  {
    if configuredSeconds <= 0 then DEFAULT_TTL else configuredSeconds * 1_000_000_000
  }

  function HeuristicFlags(obs: Observation): (r: set<Flag>)
    ensures IsError in r <==> obs.failedWithCode
    ensures IsVulnerability in r <==> obs.findings > 0
    ensures IsCritical in r <==> obs.failedWithCode || obs.findings > 0 || obs.evolutionResult
    ensures IsRedundant !in r
  {
    (if obs.failedWithCode then {IsError, IsCritical} else {})
    + (if obs.findings > 0 then {IsVulnerability, IsCritical} else {})
    + (if obs.evolutionResult then {IsCritical} else {})
  }

  class LTM {
    const ttl: int
    const hashOf: seq<nat> -> Hash
    var cache: map<ObsId, Cached>
    var payloadHashes: map<Hash, ObsId>

    ghost function View(): Memory
      reads this
    {
      Memory(cache, payloadHashes)
    }

    constructor (configuredSeconds: int, hashOf: seq<nat> -> Hash)
      ensures View() == Memory(map[], map[]) && View().Bijective()
      ensures ttl == EffectiveTtl(configuredSeconds) && this.hashOf == hashOf
    {
      ttl, this.hashOf := EffectiveTtl(configuredSeconds), hashOf;
      cache, payloadHashes := map[], map[];
    }

    /** On consistent tables the index answers for the cache. */
    method CheckRedundant(hash: Hash) returns (r: bool)
      requires View().Bijective()
      ensures r <==> exists id :: id in cache && cache[id].hash == hash
    {
      r := hash in payloadHashes;
    }

    /**
     After the call the identifier is cached and every other entry is as it was; tables that were inverse to
     each other stay so exactly when the identifier was known or the hash is new.
     */
    method AddObservationToCache(id: ObsId, entry: Cached)
      modifies this
      ensures View() == old(View()).Added(id, entry)
      ensures cache.Keys == old(cache).Keys + {id} && forall x <- old(cache) :: cache[x] == old(cache)[x]
      ensures forall h <- old(payloadHashes) :: h in payloadHashes && (h != entry.hash ==> payloadHashes[h] == old(payloadHashes)[h])
      ensures id !in old(cache) ==> cache[id] == entry && entry.hash in payloadHashes && payloadHashes[entry.hash] == id
      ensures old(View()).Bijective() ==> (View().Bijective() <==> id in old(cache) || entry.hash !in old(payloadHashes))
    {
      if View().Bijective() {
        AddKeepsBijectionIff(View(), id, entry);
      }
      if id in cache {
        return;
      }
      cache := cache[id := entry];
      payloadHashes := payloadHashes[entry.hash := id];
    }

    /** One pass over the cache in arbitrary order, deleting from both tables. */
    method PurgeExpiredCache(now: int)
      modifies this
      requires View().Bijective()
      ensures View() == old(View()).Purged(now, ttl) && View().Bijective()
      ensures forall id :: id in cache <==> id in old(cache) && now - old(cache)[id].timestamp <= ttl
      ensures forall id <- cache :: cache[id] == old(cache)[id]
      ensures forall h :: h in payloadHashes <==> h in old(payloadHashes) && old(payloadHashes)[h] in cache
    {
      ghost var start := View();
      var todo := cache.Keys;
      while todo != {}
        invariant todo <= start.cache.Keys
        invariant PurgedSoFar(start, View(), todo, now, ttl)
      {
        var id :| id in todo;
        var entry := cache[id];
        if now - entry.timestamp > ttl {
          cache := cache - {id};
          payloadHashes := payloadHashes - {entry.hash};
        }
        todo := todo - {id};
      }
      PurgedSoFarDone(start, View(), now, ttl);
      PurgedKeeps(start, now, ttl);
    }

    /** The check and the insertion are separate critical sections; the janitor may purge in between. */
    method ProcessAndFlagObservation(obs: Observation, now: int, purgesBetween: seq<int>) returns (flags: set<Flag>)
      requires View().Bijective()
      modifies this
      ensures View().Bijective()
      ensures View() == Observed(old(View()), obs, now, purgesBetween, ttl, hashOf).0
      ensures flags == Observed(old(View()), obs, now, purgesBetween, ttl, hashOf).1
      ensures IsError in flags <==> obs.failedWithCode
      ensures IsVulnerability in flags <==> obs.findings > 0
      ensures IsCritical in flags <==> obs.failedWithCode || obs.findings > 0 || obs.evolutionResult
      ensures IsRedundant in flags <==>
              obs.payload.Some? && exists id :: id in old(cache) && old(cache)[id].hash == hashOf(obs.payload.value)
      ensures obs.payload.Some? && IsRedundant !in flags ==>
                obs.id in cache && (obs.id !in old(cache) ==> cache[obs.id] == Cached(obs.payload.value, hashOf(obs.payload.value), now))
    {
      hide PurgedAll;
      flags := HeuristicFlags(obs);
      if obs.payload.None? {
        return;
      }
      var hash := hashOf(obs.payload.value);
      var redundant := CheckRedundant(hash);
      ghost var checked := View();
      JanitorRuns(purgesBetween);
      PurgedAllKeeps(checked, purgesBetween, ttl);
      if redundant {
        flags := flags + {IsRedundant};
      } else {
        HashIsNew(checked, purgesBetween, ttl, hash, obs.id);
        AddObservationToCache(obs.id, Cached(obs.payload.value, hash, now));
      }
    }

    /** The janitor's purges between two critical sections of somebody else. */
    method JanitorRuns(times: seq<int>)
      requires View().Bijective()
      modifies this
      ensures View() == PurgedAll(old(View()), times, ttl) && View().Bijective()
    {
      hide Memory.Purged, Memory.Bijective;
      for k := 0 to |times|
        invariant View().Bijective() && View() == PurgedAll(old(View()), times[..k], ttl)
      {
        assert times[..k + 1][..k] == times[..k];
        PurgeExpiredCache(times[k]);
      }
      assert times[..|times|] == times;
    }
  }

  /** What was not there before the purges is not there after them. */
  lemma HashIsNew(m: Memory, times: seq<int>, ttl: int, hash: Hash, id: ObsId)
    requires m.Bijective() && !exists x :: x in m.cache && m.cache[x].hash == hash
    ensures hash !in PurgedAll(m, times, ttl).hashes && (id !in m.cache ==> id !in PurgedAll(m, times, ttl).cache)
  {
    PurgedAllKeeps(m, times, ttl);
    if id !in m.cache {
      NothingNew(m, times, ttl, id);
    }
  }

  /** Entries still to be looked at are kept; the others are kept if they are young enough. */
  ghost predicate PurgedSoFar(start: Memory, m: Memory, todo: set<ObsId>, now: int, ttl: int) {
    && (forall id :: id in m.cache <==> id in start.cache && (id in todo || now - start.cache[id].timestamp <= ttl))
    && (forall id <- m.cache :: m.cache[id] == start.cache[id])
    && (forall h :: h in m.hashes <==> h in start.hashes && start.hashes[h] in m.cache)
    && (forall h <- m.hashes :: m.hashes[h] == start.hashes[h])
  }

  lemma PurgedSoFarDone(start: Memory, m: Memory, now: int, ttl: int)
    requires start.Bijective() && PurgedSoFar(start, m, {}, now, ttl)
    ensures m == start.Purged(now, ttl)
  {
    assert m.cache == start.Purged(now, ttl).cache;
    assert m.hashes == start.Purged(now, ttl).hashes;
  }

  ghost function PurgedAll(m: Memory, times: seq<int>, ttl: int): Memory {
    if times == [] then m else PurgedAll(m, times[..|times| - 1], ttl).Purged(times[|times| - 1], ttl)
  }

  /** The meaning of one processed observation. */
  ghost function Observed(m: Memory, obs: Observation, now: int, purges: seq<int>, ttl: int, hashOf: seq<nat> -> Hash)
    : (Memory, set<Flag>)
  {
    if obs.payload.None? then (m, HeuristicFlags(obs)) else
    var hash := hashOf(obs.payload.value);
    var later := PurgedAll(m, purges, ttl);
    if exists id :: id in m.cache && m.cache[id].hash == hash then (later, HeuristicFlags(obs) + {IsRedundant})
    else (later.Added(obs.id, Cached(obs.payload.value, hash, now)), HeuristicFlags(obs))
  }

  datatype Event = Observe(obs: Observation, now: int, purges: seq<int>) | Purge(now: int)

  ghost function Step(m: Memory, e: Event, ttl: int, hashOf: seq<nat> -> Hash): Memory {
    match e
    case Observe(obs, now, purges) => Observed(m, obs, now, purges, ttl, hashOf).0
    case Purge(now) => m.Purged(now, ttl)
  }

  ghost function Run(m: Memory, events: seq<Event>, ttl: int, hashOf: seq<nat> -> Hash): Memory
    decreases |events|
  {
    if events == [] then m else Run(Step(m, events[0], ttl, hashOf), events[1..], ttl, hashOf)
  }

  lemma PurgedKeeps(m: Memory, now: int, ttl: int)
    requires m.Bijective()
    ensures m.Purged(now, ttl).Bijective()
    ensures forall h :: h in m.Purged(now, ttl).hashes ==> h in m.hashes
  {
  }

  lemma {:induction false} PurgedAllKeeps(m: Memory, times: seq<int>, ttl: int)
    requires m.Bijective()
    ensures PurgedAll(m, times, ttl).Bijective()
    ensures forall h :: h in PurgedAll(m, times, ttl).hashes ==> h in m.hashes
  {
    if times != [] {
      PurgedAllKeeps(m, times[..|times| - 1], ttl);
      PurgedKeeps(PurgedAll(m, times[..|times| - 1], ttl), times[|times| - 1], ttl);
    }
  }

  /** Insertion keeps the two tables inverse to each other exactly when the id is old or the hash is new. */
  lemma AddKeepsBijectionIff(m: Memory, id: ObsId, entry: Cached)
    requires m.Bijective()
    ensures m.Added(id, entry).Bijective() <==> id in m.cache || entry.hash !in m.hashes
  {
    if id !in m.cache && entry.hash in m.hashes {
      assert m.hashes[entry.hash] in m.Added(id, entry).cache;
    }
  }

  /** With one source, every interleaving with the janitor keeps the tables inverse to each other. */
  lemma {:induction false} RunKeepsBijection(m: Memory, events: seq<Event>, ttl: int, hashOf: seq<nat> -> Hash)
    requires m.Bijective()
    ensures Run(m, events, ttl, hashOf).Bijective()
    decreases |events|
  {
    if events != [] {
      match events[0] {
        case Observe(obs, now, purges) => PurgedAllKeeps(m, purges, ttl);
        case Purge(now) => PurgedKeeps(m, now, ttl);
      }
      RunKeepsBijection(Step(m, events[0], ttl, hashOf), events[1..], ttl, hashOf);
    }
  }

  /** The times at which an event may drop entries. */
  ghost predicate PurgesNoLaterThan(e: Event, deadline: int) {
    match e
    case Observe(_, _, purges) => forall i :: 0 <= i < |purges| ==> purges[i] <= deadline
    case Purge(now) => now <= deadline
  }

  lemma {:induction false} SurvivesPurges(m: Memory, id: ObsId, times: seq<int>, ttl: int)
    requires id in m.cache && forall i :: 0 <= i < |times| ==> times[i] <= m.cache[id].timestamp + ttl
    ensures id in PurgedAll(m, times, ttl).cache && PurgedAll(m, times, ttl).cache[id] == m.cache[id]
  {
    if times != [] {
      SurvivesPurges(m, id, times[..|times| - 1], ttl);
    }
  }

  /**
   Nothing is forgotten early: as long as no purge runs later than its time to live, a cached
   observation stays, and a repeat of its payload is flagged redundant after any such run.
   */
  lemma {:induction false} RepeatIsFlagged(m: Memory, id: ObsId, events: seq<Event>, ttl: int, hashOf: seq<nat> -> Hash,
                                           repeat: Observation, now: int, purges: seq<int>)
    requires id in m.cache
    requires forall i :: 0 <= i < |events| ==> PurgesNoLaterThan(events[i], m.cache[id].timestamp + ttl)
    requires repeat.payload.Some? && hashOf(repeat.payload.value) == m.cache[id].hash
    ensures id in Run(m, events, ttl, hashOf).cache && Run(m, events, ttl, hashOf).cache[id] == m.cache[id]
    ensures IsRedundant in Observed(Run(m, events, ttl, hashOf), repeat, now, purges, ttl, hashOf).1
    decreases |events|
  {
    if events != [] {
      match events[0] {
        case Observe(obs, t, ps) => SurvivesPurges(m, id, ps, ttl);
        case Purge(t) =>
      }
      RepeatIsFlagged(Step(m, events[0], ttl, hashOf), id, events[1..], ttl, hashOf, repeat, now, purges);
    }
  }

  /**
   A payload that was new, under a new identifier, is remembered: after any run without a purge past its time to
   live, the same payload is flagged redundant, whatever else was observed.
   */
  lemma NewIsRemembered(m: Memory, first: Observation, t: int, ps: seq<int>, events: seq<Event>, ttl: int, hashOf: seq<nat> -> Hash,
                        repeat: Observation, now: int, purges: seq<int>)
    requires m.Bijective() && first.payload.Some? && repeat.payload == first.payload && first.id !in m.cache
    requires IsRedundant !in Observed(m, first, t, ps, ttl, hashOf).1
    requires forall i :: 0 <= i < |events| ==> PurgesNoLaterThan(events[i], t + ttl)
    ensures IsRedundant in Observed(Run(m, [Observe(first, t, ps)] + events, ttl, hashOf), repeat, now, purges, ttl, hashOf).1
  {
    var m' := Observed(m, first, t, ps, ttl, hashOf).0;
    NothingNew(m, ps, ttl, first.id);
    assert m'.cache[first.id] == Cached(first.payload.value, hashOf(first.payload.value), t);
    RepeatIsFlagged(m', first.id, events, ttl, hashOf, repeat, now, purges);
    assert ([Observe(first, t, ps)] + events)[1..] == events;
  }

  lemma {:induction false} NothingNew(m: Memory, times: seq<int>, ttl: int, id: ObsId)
    requires id !in m.cache
    ensures id !in PurgedAll(m, times, ttl).cache
  {
    if times != [] {
      NothingNew(m, times[..|times| - 1], ttl, id);
    }
  }

  /**
   The single source matters: two sources that both passed the check with the same payload leave
   two cached observations for one hash, and purging the older one then hides the younger.
   */
  lemma TwoSourcesBreakTheIndex(h: Hash, p: seq<nat>, ttl: int)
    requires ttl > 0
    ensures var m := Memory(map[], map[]).Added("a", Cached(p, h, 0)).Added("b", Cached(p, h, 1));
            && !m.Bijective()
            && "b" in m.Purged(ttl + 1, ttl).cache && h !in m.Purged(ttl + 1, ttl).hashes
  {
    var m := Memory(map[], map[]).Added("a", Cached(p, h, 0)).Added("b", Cached(p, h, 1));
    assert m.cache["a"].hash == h && "a" in m.cache;
  }
}
