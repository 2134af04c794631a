/** The cache object. Calls of its eviction callback are returned to the caller, in order. */
module SmartLoRACaches {
  import opened Basics
  import opened JobTypes
  import opened Cadence
  import opened AdapterCache

  /** The entry that leaves an overfull cache, as the eviction callback sees it. */
  function VictimOf<T>(c: Cache<T>, m: Histories, now: Time): (SessionId, T)
    requires c.order != [] && forall s :: s in c.order <==> s in c.entries
  {
    var k := Victim(c.order, m, now);
    assert c.order[k] in c.order;
    (c.order[k], c.entries[c.order[k]])
  }

  class SmartLoRACache<T> {
    const maxSlots: nat
    const cadence: StepCadenceTracker
    var order: seq<SessionId>
    var cache: map<SessionId, T>
    var hits: nat
    var misses: nat
    var evictions: nat

    function Contents(): Cache<T>
      reads this
    {
      Cache(order, cache)
    }

    ghost predicate Valid()
      reads this
    {
      maxSlots >= 1 && Good(Contents(), maxSlots)
    }

    constructor (maxSlots: nat, cadence: StepCadenceTracker)
      requires maxSlots >= 1
      ensures Valid() && Contents() == Cache([], map[])
      ensures this.maxSlots == maxSlots && this.cadence == cadence
      ensures hits == misses == evictions == 0
    {
      this.maxSlots, this.cadence := maxSlots, cadence;
      order, cache := [], map[];
      hits, misses, evictions := 0, 0, 0;
    }

    method Get(session: SessionId) returns (state: Option<T>)
      requires Valid()
      modifies this`order, this`hits, this`misses
      ensures Valid() && Contents() == Hit(old(Contents()), session)
      ensures state == if session in cache then Some(cache[session]) else None
      ensures hits + misses == old(hits + misses) + 1 && (hits > old(hits) <==> state.Some?) && misses >= old(misses)
    {
      HitKeepsGood(Contents(), maxSlots, session);
      if session in cache {
        order := Touch(order, session);
        hits := hits + 1;
        return Some(cache[session]);
      }
      misses := misses + 1;
      return None;
    }

    /** `now` is the clock reading of the eviction, should there be one. */
    method Put(session: SessionId, state: T, now: Time) returns (evicted: seq<(SessionId, T)>)
      requires Valid()
      modifies this`order, this`cache, this`evictions
      ensures Valid() && Contents() == AdapterCache.Put(old(Contents()), maxSlots, session, state, cadence.history, now)
      ensures |evicted| == evictions - old(evictions)
      ensures evicted == if Overflows(old(Contents()), maxSlots, session)
        then [VictimOf(AdapterCache.Inserted(old(Contents()), session, state), cadence.history, now)] else []
    {
      ghost var c0 := Contents();
      PutKeepsGood(c0, maxSlots, session, state, cadence.history, now);
      evicted := [];
      if session in cache {
        cache := cache[session := state];
        order := Touch(order, session);
        return;
      }
      cache := cache[session := state];
      order := order + [session];
      InsertedIsGood(c0, maxSlots, session, state);
      evicted := Shrink(now);
    }

    method Shrink(now: Time) returns (evicted: seq<(SessionId, T)>)
      requires Good(Contents(), maxSlots + 1)
      modifies this`order, this`cache, this`evictions
      ensures Contents() == Shrunk(old(Contents()), maxSlots, cadence.history, now)
      ensures |evicted| == evictions - old(evictions)
      ensures evicted == if |old(order)| > maxSlots then [VictimOf(old(Contents()), cadence.history, now)] else []
    {
      evicted := [];
      ghost var c := Contents();
      while |order| > maxSlots
        invariant Shrunk(Contents(), maxSlots, cadence.history, now) == Shrunk(c, maxSlots, cadence.history, now)
        invariant evictions == old(evictions) + |evicted|
        invariant |order| > maxSlots ==> evicted == [] && Contents() == c
        invariant |order| <= maxSlots ==>
          evicted == if |c.order| > maxSlots then [VictimOf(c, cadence.history, now)] else []
        decreases |order|
      {
        var gone := EvictOne(now);
        evicted := evicted + [gone];
      }
    }

    method EvictOne(now: Time) returns (gone: (SessionId, T))
      requires Distinct(order) && order != [] && forall s :: s in order <==> s in cache
      modifies this`order, this`cache, this`evictions
      ensures gone == VictimOf(old(Contents()), cadence.history, now)
      ensures Contents() == Popped(old(Contents()), gone.0) && |order| == |old(order)| - 1
      ensures evictions == old(evictions) + 1
    {
      var at := FirstOfLowestScore(now);
      VictimIsUnique(order, cadence.history, now, at);
      var victim := order[at];
      RemovedKeeps(order, victim);
      gone := (victim, cache[victim]);
      order, cache := Removed(order, victim), Without(cache, victim);
      evictions := evictions + 1;
    }

    /** The scan of the cache in order of use; with no finite score the oldest entry is chosen. */
    method FirstOfLowestScore(now: Time) returns (at: nat)
      requires order != []
      ensures IsVictim(order, cadence.history, now, at)
    {
      var bestScore: Option<real> := None;
      at := 0;
      var i := 0;
      while i < |order|
        invariant 0 <= i <= |order| && at < |order|
        invariant bestScore.Some? ==> at < i && bestScore == ScoreOf(cadence.history, order[at], now)
        invariant bestScore.None? ==> at == 0
        invariant forall j :: 0 <= j < i ==> !Below(ScoreOf(cadence.history, order[j], now), bestScore)
        invariant forall j :: 0 <= j < at ==> Below(bestScore, ScoreOf(cadence.history, order[j], now))
      {
        var score := ScoreOf(cadence.history, order[i], now);
        if Below(score, bestScore) {
          at, bestScore := i, score;
        }
        i := i + 1;
      }
    }

    method Pop(session: SessionId) returns (state: Option<T>)
      requires Valid()
      modifies this`order, this`cache
      ensures Valid() && Contents() == Popped(old(Contents()), session)
      ensures state == if session in old(cache) then Some(old(cache)[session]) else None
    {
      PoppedKeepsGood(Contents(), maxSlots, session);
      RemovedKeeps(order, session);
      if session !in cache {
        RemovedAbsent(order, session);
        return None;
      }
      state := Some(cache[session]);
      order, cache := Removed(order, session), Without(cache, session);
    }
  }
}
