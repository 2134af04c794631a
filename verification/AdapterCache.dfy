/** The worker's cache of session runtimes, evicting the session least likely to return soon. */
module AdapterCache {
  import opened Basics
  import opened JobTypes
  import opened Cadence

  type Histories = map<SessionId, History>

  /** `order` lists the keys oldest use first. */
  datatype Cache<T> = Cache(order: seq<SessionId>, entries: map<SessionId, T>)

  function ScoreOf(m: Histories, s: SessionId, now: Time): Option<real> {
    Score(Get(m, s, []), now)
  }

  function Removed(order: seq<SessionId>, s: SessionId): seq<SessionId> {
    if order == [] then []
    else if order[0] == s then Removed(order[1..], s)
    else [order[0]] + Removed(order[1..], s)
  }

  /** `move_to_end`, also for a key that is not there yet. */
  function Touch(order: seq<SessionId>, s: SessionId): seq<SessionId> {
    Removed(order, s) + [s]
  }

  ghost predicate Distinct(order: seq<SessionId>) {
    forall i, j :: 0 <= i < j < |order| ==> order[i] != order[j]
  }

  lemma {:induction false} RemovedKeeps(order: seq<SessionId>, s: SessionId)
    ensures forall x :: x in Removed(order, s) <==> x in order && x != s
    ensures Distinct(order) ==> Distinct(Removed(order, s))
    ensures Distinct(order) ==> |Removed(order, s)| == |order| - if s in order then 1 else 0
  {
    if order != [] {
      RemovedKeeps(order[1..], s);
      var rest := Removed(order[1..], s);
      assert forall i :: 0 <= i < |rest| ==> rest[i] in rest;
      assert Distinct(order) ==> Distinct(order[1..]);
    }
  }

  lemma {:induction false} RemovedAt(order: seq<SessionId>, k: nat)
    requires Distinct(order) && k < |order|
    ensures Removed(order, order[k]) == order[..k] + order[k + 1..]
  {
    if k == 0 {
      RemovedAbsent(order[1..], order[0]);
    } else {
      RemovedAt(order[1..], k - 1);
      assert order == [order[0]] + order[1..];
      assert order[..k] == [order[0]] + order[1..][..k - 1];
      assert order[1..][k..] == order[k + 1..];
    }
  }

  lemma {:induction false} RemovedAbsent(order: seq<SessionId>, s: SessionId)
    requires s !in order
    ensures Removed(order, s) == order
  {
    if order != [] {
      RemovedAbsent(order[1..], s);
    }
  }

  // ---------- the victim ----------

  /** The first entry, in order of use, that no entry scores below. */
  ghost predicate IsVictim(order: seq<SessionId>, m: Histories, now: Time, k: nat) {
    && k < |order|
    && (forall i :: 0 <= i < |order| ==> !Below(ScoreOf(m, order[i], now), ScoreOf(m, order[k], now)))
    && (forall i :: 0 <= i < k ==> Below(ScoreOf(m, order[k], now), ScoreOf(m, order[i], now)))
  }

  function Victim(order: seq<SessionId>, m: Histories, now: Time): (k: nat)
    requires order != []
    ensures IsVictim(order, m, now, k)
  {
    if |order| == 1 then 0
    else
      var last := |order| - 1;
      var k := Victim(order[..last], m, now);
      assert IsVictim(order[..last], m, now, k);
      assert forall i :: 0 <= i < last ==> order[..last][i] == order[i];
      if Below(ScoreOf(m, order[last], now), ScoreOf(m, order[k], now)) then last else k
  }

  lemma VictimIsUnique(order: seq<SessionId>, m: Histories, now: Time, k: nat)
    requires order != [] && IsVictim(order, m, now, k)
    ensures k == Victim(order, m, now)
  {
    assert IsVictim(order, m, now, Victim(order, m, now));
  }

  // ---------- operations ----------

  function Hit<T>(c: Cache<T>, s: SessionId): Cache<T> {
    if s in c.entries then c.(order := Touch(c.order, s)) else c
  }

  function Popped<T>(c: Cache<T>, s: SessionId): Cache<T> {
    Cache(Removed(c.order, s), Without(c.entries, s))
  }

  /** Evict one session after another while there are more than `max`. */
  function Shrunk<T>(c: Cache<T>, max: nat, m: Histories, now: Time): Cache<T>
    decreases |c.order|
  {
    if |c.order| <= max then c
    else
      var k := Victim(c.order, m, now);
      var next := Popped(c, c.order[k]);
      RemovedShrinks(c.order, c.order[k]);
      Shrunk(next, max, m, now)
  }

  lemma {:induction false} RemovedShrinks(order: seq<SessionId>, s: SessionId)
    ensures |Removed(order, s)| <= |order|
    ensures s in order ==> |Removed(order, s)| < |order|
  {
    if order != [] {
      RemovedShrinks(order[1..], s);
    }
  }

  function Put<T>(c: Cache<T>, max: nat, s: SessionId, state: T, m: Histories, now: Time): Cache<T> {
    if s in c.entries then Cache(Touch(c.order, s), c.entries[s := state])
    else Shrunk(Cache(c.order + [s], c.entries[s := state]), max, m, now)
  }

  ghost predicate Good<T>(c: Cache<T>, max: nat) {
    && Distinct(c.order)
    && (forall s :: s in c.order <==> s in c.entries)
    && |c.order| <= max
  }

  lemma HitKeepsGood<T>(c: Cache<T>, max: nat, s: SessionId)
    requires Good(c, max)
    ensures Good(Hit(c, s), max)
  {
    RemovedKeeps(c.order, s);
  }

  lemma PoppedKeepsGood<T>(c: Cache<T>, max: nat, s: SessionId)
    requires Good(c, max)
    ensures Good(Popped(c, s), max)
  {
    RemovedKeeps(c.order, s);
  }

  /** The cache between inserting a new key and evicting. */
  function Inserted<T>(c: Cache<T>, s: SessionId, state: T): Cache<T> {
    Cache(c.order + [s], c.entries[s := state])
  }

  lemma InsertedIsGood<T>(c: Cache<T>, max: nat, s: SessionId, state: T)
    requires Good(c, max) && s !in c.entries
    ensures Good(Inserted(c, s, state), max + 1)
  {
    assert forall i :: 0 <= i < |c.order| ==> c.order[i] in c.order;
  }

  /** The order and the entries without the key at position `k`. */
  function Cut<T>(c: Cache<T>, k: nat): Cache<T>
    requires k < |c.order|
  {
    Cache(c.order[..k] + c.order[k + 1..], Without(c.entries, c.order[k]))
  }

  lemma ShrunkByOne<T>(c: Cache<T>, max: nat, m: Histories, now: Time)
    requires Distinct(c.order) && |c.order| == max + 1
    ensures Shrunk(c, max, m, now) == Cut(c, Victim(c.order, m, now))
  {
    var k := Victim(c.order, m, now);
    RemovedAt(c.order, k);
    assert Popped(c, c.order[k]) == Cut(c, k);
  }

  lemma CutIsGood<T>(c: Cache<T>, max: nat, k: nat)
    requires Good(c, max + 1) && k < |c.order| == max + 1
    ensures Good(Cut(c, k), max)
  {
    assert c.order[k] in c.order;
    RemovedAt(c.order, k);
    RemovedKeeps(c.order, c.order[k]);
  }

  predicate Overflows<T>(c: Cache<T>, max: nat, s: SessionId) {
    s !in c.entries && |c.order| == max
  }

  /** What a `put` leaves: everything, or everything but one minimal victim. */
  lemma PutEvictsOneVictim<T>(c: Cache<T>, max: nat, s: SessionId, state: T, m: Histories, now: Time)
    requires Good(c, max)
    ensures !Overflows(c, max, s) ==> Put(c, max, s, state, m, now).entries == c.entries[s := state]
    ensures Overflows(c, max, s) ==>
      Put(c, max, s, state, m, now) == Cut(Inserted(c, s, state), Victim(c.order + [s], m, now))
  {
    if Overflows(c, max, s) {
      InsertedIsGood(c, max, s, state);
      ShrunkByOne(Inserted(c, s, state), max, m, now);
    }
  }

  lemma PutKeepsGood<T>(c: Cache<T>, max: nat, s: SessionId, state: T, m: Histories, now: Time)
    requires Good(c, max)
    ensures Good(Put(c, max, s, state, m, now), max)
  {
    if s in c.entries {
      RemovedKeeps(c.order, s);
    } else {
      InsertedIsGood(c, max, s, state);
      if Overflows(c, max, s) {
        PutEvictsOneVictim(c, max, s, state, m, now);
        CutIsGood(Inserted(c, s, state), max, Victim(c.order + [s], m, now));
      }
    }
  }

  /**
   * A `put` can drop the very session it inserts, and does so exactly when the cache was
   * full and the newcomer scores strictly below every resident.
   */
  lemma PutDropsItselfIff<T>(c: Cache<T>, max: nat, s: SessionId, state: T, m: Histories, now: Time)
    requires Good(c, max) && max >= 1
    ensures s !in Put(c, max, s, state, m, now).entries <==>
      && s !in c.entries
      && |c.order| == max
      && forall r :: r in c.entries ==> Below(ScoreOf(m, s, now), ScoreOf(m, r, now))
  {
    PutEvictsOneVictim(c, max, s, state, m, now);
    if Overflows(c, max, s) {
      LastIsVictimIff(c.order, s, m, now);
      InsertedIsGood(c, max, s, state);
      var order := c.order + [s];
      assert order[max] == s;
    }
  }

  lemma LastIsVictimIff(order: seq<SessionId>, s: SessionId, m: Histories, now: Time)
    ensures Victim(order + [s], m, now) == |order| <==>
      forall r :: r in order ==> Below(ScoreOf(m, s, now), ScoreOf(m, r, now))
  {
    var all, k := order + [s], Victim(order + [s], m, now);
    assert IsVictim(all, m, now, k);
    assert forall i :: 0 <= i < |order| ==> all[i] == order[i] && order[i] in order;
    assert all[|order|] == s;
    if k == |order| {
      forall r | r in order
        ensures Below(ScoreOf(m, s, now), ScoreOf(m, r, now))
      {
        var i :| 0 <= i < |order| && order[i] == r;
        assert all[i] == r;
      }
    }
  }

  /** With fewer than two requests on record a session survives its own `put`. */
  lemma NewcomerStays<T>(c: Cache<T>, max: nat, s: SessionId, state: T, m: Histories, now: Time)
    requires Good(c, max) && max >= 1
    requires |Get(m, s, [])| < 2
    ensures s in Put(c, max, s, state, m, now).entries
    ensures Put(c, max, s, state, m, now).entries[s] == state
  {
    PutDropsItselfIff(c, max, s, state, m, now);
    PutEvictsOneVictim(c, max, s, state, m, now);
    assert ScoreOf(m, s, now) == None;
    if Overflows(c, max, s) {
      assert c.order[0] in c.entries;
    }
  }

  /** Sessions of unknown rate are safe while any session's rate is known; then the oldest goes. */
  lemma UnknownRatesGoLast(order: seq<SessionId>, m: Histories, now: Time)
    requires order != []
    ensures ScoreOf(m, order[Victim(order, m, now)], now).None? ==>
      Victim(order, m, now) == 0 && forall s :: s in order ==> Rate(Get(m, s, [])).None?
  {
    var k := Victim(order, m, now);
    assert IsVictim(order, m, now, k);
  }

  // ---------- runs ----------

  datatype Event<T> =
    | Request(session: SessionId, at: Time)
    | Lookup(session: SessionId)
    | Store(session: SessionId, state: T, now: Time)
    | Drop(session: SessionId)

  datatype World<T> = World(cache: Cache<T>, histories: Histories)

  function Step<T>(w: World<T>, max: nat, window: nat, e: Event<T>): World<T> {
    match e
    case Request(s, at) => w.(histories := w.histories[s := Recorded(Get(w.histories, s, []), window, at)])
    case Lookup(s) => w.(cache := Hit(w.cache, s))
    case Store(s, state, now) => w.(cache := Put(w.cache, max, s, state, w.histories, now))
    case Drop(s) => w.(cache := Popped(w.cache, s))
  }

  function Run<T>(max: nat, window: nat, es: seq<Event<T>>): World<T> {
    if es == [] then World(Cache([], map[]), map[])
    else Step(Run(max, window, es[..|es| - 1]), max, window, es[|es| - 1])
  }

  /** The cache never exceeds its slots and its order never disagrees with its keys. */
  lemma {:induction false} ReachableIsGood<T>(max: nat, window: nat, es: seq<Event<T>>)
    ensures Good(Run(max, window, es).cache, max)
  {
    if es != [] {
      ReachableIsGood(max, window, es[..|es| - 1]);
      var w := Run(max, window, es[..|es| - 1]);
      match es[|es| - 1]
      case Request(_, _) =>
      case Lookup(s) => HitKeepsGood(w.cache, max, s);
      case Store(s, state, now) => PutKeepsGood(w.cache, max, s, state, w.histories, now);
      case Drop(s) => PoppedKeepsGood(w.cache, max, s);
    }
  }

  /** The state a session was last stored with, none if it has been dropped since. */
  function LastStored<T>(es: seq<Event<T>>, s: SessionId): Option<T> {
    if es == [] then None
    else
      var before, e := LastStored(es[..|es| - 1], s), es[|es| - 1];
      if e.session != s then before
      else
        match e
        case Store(_, state, _) => Some(state)
        case Drop(_) => None
        case _ => before
  }

  lemma PutEntries<T>(c: Cache<T>, max: nat, s: SessionId, state: T, m: Histories, now: Time)
    requires Good(c, max)
    ensures forall x :: x in Put(c, max, s, state, m, now).entries ==>
      x in c.entries[s := state] && Put(c, max, s, state, m, now).entries[x] == c.entries[s := state][x]
  {
    PutEvictsOneVictim(c, max, s, state, m, now);
  }

  /** In every run a lookup finds the state last stored, or nothing; behind a drop, nothing. */
  lemma {:induction false} EntriesAreLastStored<T>(max: nat, window: nat, es: seq<Event<T>>)
    ensures var entries := Run(max, window, es).cache.entries;
      forall s <- entries :: LastStored(es, s) == Some(entries[s])
  {
    if es != [] {
      var before := es[..|es| - 1];
      var w := Run(max, window, before);
      EntriesAreLastStored(max, window, before);
      ReachableIsGood(max, window, before);
      match es[|es| - 1]
      case Store(s, state, now) => PutEntries(w.cache, max, s, state, w.histories, now);
      case _ =>
    }
  }

  /** The position of the last lookup or store of a session, counted from 1; 0 if there is none. */
  function LastUse<T>(es: seq<Event<T>>, s: SessionId): nat {
    if es == [] then 0
    else
      var e := es[|es| - 1];
      if (e.Lookup? || e.Store?) && e.session == s then |es| else LastUse(es[..|es| - 1], s)
  }

  lemma {:induction false} LastUseIsPast<T>(es: seq<Event<T>>, s: SessionId)
    ensures LastUse(es, s) <= |es|
  {
    if es != [] {
      LastUseIsPast(es[..|es| - 1], s);
    }
  }

  /** `b` keeps the relative order of a part of `a`. */
  ghost predicate Within(b: seq<SessionId>, a: seq<SessionId>) {
    forall i, j :: 0 <= i < j < |b| ==> Before(a, b[i], b[j])
  }

  ghost predicate Before(a: seq<SessionId>, x: SessionId, y: SessionId) {
    exists i, j :: 0 <= i < j < |a| && a[i] == x && a[j] == y
  }

  ghost predicate Sorted<T>(order: seq<SessionId>, es: seq<Event<T>>) {
    forall i, j :: 0 <= i < j < |order| ==> LastUse(es, order[i]) < LastUse(es, order[j])
  }

  lemma {:induction false} RemovedIsWithin(order: seq<SessionId>, s: SessionId)
    ensures Within(Removed(order, s), order)
  {
    if order != [] {
      RemovedIsWithin(order[1..], s);
      RemovedKeeps(order[1..], s);
      var r, rest := Removed(order, s), Removed(order[1..], s);
      forall i, j | 0 <= i < j < |r|
        ensures Before(order, r[i], r[j])
      {
        if order[0] == s {
          assert Before(order[1..], rest[i], rest[j]);
          BeforeInTail(order, r[i], r[j]);
        } else if i == 0 {
          assert rest[j - 1] in order[1..];
          var k :| 0 <= k < |order[1..]| && order[1..][k] == rest[j - 1];
          assert order[0] == r[i] && order[k + 1] == r[j];
        } else {
          assert Before(order[1..], rest[i - 1], rest[j - 1]);
          BeforeInTail(order, r[i], r[j]);
        }
      }
    }
  }

  lemma BeforeInTail(order: seq<SessionId>, x: SessionId, y: SessionId)
    requires order != [] && Before(order[1..], x, y)
    ensures Before(order, x, y)
  {
    var i, j :| 0 <= i < j < |order[1..]| && order[1..][i] == x && order[1..][j] == y;
    assert order[i + 1] == x && order[j + 1] == y;
  }

  lemma WithinIsSorted<T>(b: seq<SessionId>, a: seq<SessionId>, es: seq<Event<T>>)
    requires Within(b, a) && Sorted(a, es)
    ensures Sorted(b, es)
  {
    forall i, j | 0 <= i < j < |b|
      ensures LastUse(es, b[i]) < LastUse(es, b[j])
    {
      assert Before(a, b[i], b[j]);
      var x, y :| 0 <= x < y < |a| && a[x] == b[i] && a[y] == b[j];
    }
  }

  /** Appending the session just used, the others' last uses being earlier, keeps the order. */
  lemma UsedLastIsSorted<T>(order: seq<SessionId>, es: seq<Event<T>>, s: SessionId)
    requires es != [] && Sorted(order, es[..|es| - 1]) && s !in order
    requires (es[|es| - 1].Lookup? || es[|es| - 1].Store?) && es[|es| - 1].session == s
    ensures Sorted(order + [s], es)
  {
    var before := es[..|es| - 1];
    forall i | 0 <= i < |order|
      ensures LastUse(es, order[i]) == LastUse(before, order[i]) < |es|
    {
      assert order[i] in order;
      LastUseIsPast(before, order[i]);
    }
  }

  lemma ShrunkIsSorted<T>(order: seq<SessionId>, k: nat, es: seq<Event<T>>)
    requires k < |order| && Sorted(order, es)
    ensures Sorted(order[..k] + order[k + 1..], es)
  {
    var r := order[..k] + order[k + 1..];
    forall i, j | 0 <= i < j < |r|
      ensures LastUse(es, r[i]) < LastUse(es, r[j])
    {
      var i', j' := if i < k then i else i + 1, if j < k then j else j + 1;
      assert r[i] == order[i'] && r[j] == order[j'];
    }
  }

  lemma OtherStepIsSorted<T>(order: seq<SessionId>, es: seq<Event<T>>)
    requires es != [] && Sorted(order, es[..|es| - 1])
    requires (es[|es| - 1].Lookup? || es[|es| - 1].Store?) ==> es[|es| - 1].session !in order
    ensures Sorted(order, es)
  {
    forall i | 0 <= i < |order|
      ensures LastUse(es, order[i]) == LastUse(es[..|es| - 1], order[i])
    {
      assert order[i] in order;
    }
  }

  lemma TouchIsSorted<T>(order: seq<SessionId>, es: seq<Event<T>>, s: SessionId)
    requires es != [] && Sorted(order, es[..|es| - 1])
    requires (es[|es| - 1].Lookup? || es[|es| - 1].Store?) && es[|es| - 1].session == s
    ensures Sorted(Touch(order, s), es)
  {
    RemovedIsWithin(order, s);
    RemovedKeeps(order, s);
    WithinIsSorted(Removed(order, s), order, es[..|es| - 1]);
    UsedLastIsSorted(Removed(order, s), es, s);
  }

  /**
   * In every reachable state the entries stand in the order of their last use, so the first
   * of equally scored sessions, the one evicted, is the one unused for longest.
   */
  lemma {:induction false} OrderIsLastUse<T>(max: nat, window: nat, es: seq<Event<T>>)
    ensures Sorted(Run(max, window, es).cache.order, es)
  {
    if es != [] {
      var before, e := es[..|es| - 1], es[|es| - 1];
      OrderIsLastUse(max, window, before);
      ReachableIsGood(max, window, before);
      var w := Run(max, window, before);
      match e
      case Request(_, _) => OtherStepIsSorted(w.cache.order, es);
      case Lookup(s) =>
        if s in w.cache.entries {
          TouchIsSorted(w.cache.order, es, s);
        } else {
          OtherStepIsSorted(w.cache.order, es);
        }
      case Store(s, state, now) => StoreIsSorted(w, max, es, s, state, now);
      case Drop(s) =>
        RemovedIsWithin(w.cache.order, s);
        WithinIsSorted(Removed(w.cache.order, s), w.cache.order, before);
        OtherStepIsSorted(Removed(w.cache.order, s), es);
    }
  }

  lemma StoreIsSorted<T>(w: World<T>, max: nat, es: seq<Event<T>>, s: SessionId, state: T, now: Time)
    requires es != [] && es[|es| - 1] == Store(s, state, now)
    requires Good(w.cache, max) && Sorted(w.cache.order, es[..|es| - 1])
    ensures Sorted(Put(w.cache, max, s, state, w.histories, now).order, es)
  {
    if s in w.cache.entries {
      TouchIsSorted(w.cache.order, es, s);
    } else {
      UsedLastIsSorted(w.cache.order, es, s);
      if Overflows(w.cache, max, s) {
        PutEvictsOneVictim(w.cache, max, s, state, w.histories, now);
        ShrunkIsSorted(w.cache.order + [s], Victim(w.cache.order + [s], w.histories, now), es);
      }
    }
  }

  // ---------- a store that drops what it stores ----------

  lemma RunOn<T>(max: nat, window: nat, es: seq<Event<T>>, e: Event<T>)
    ensures Run(max, window, es + [e]) == Step(Run(max, window, es), max, window, e)
  {
    assert (es + [e])[..|es|] == es;
  }

  /** Two requests each, one second apart and ten; both are due at time 20. */
  lemma Rates()
    ensures Score([0.0, 1.0], 20.0).Some? && Score([0.0, 10.0], 20.0).Some?
    ensures Below(Score([0.0, 10.0], 20.0), Score([0.0, 1.0], 20.0))
  {
    AverageIsSpanOverGaps([0.0, 1.0]);
    AverageIsSpanOverGaps([0.0, 10.0]);
    OverdueByRate([0.0, 10.0], [0.0, 1.0], 20.0);
  }

  /** Requests of both sessions, then the faster one is stored in a cache of one slot. */
  function Busy<T>(state: T): seq<Event<T>> {
    [Request("l", 0.0)] + [Request("l", 1.0)] + [Request("f", 0.0)] + [Request("f", 10.0)] + [Store("l", state, 20.0)]
  }

  lemma BusyRun<T>(state: T, w: World<T>)
    requires w == Run(1, 20, Busy(state))
    ensures Get(w.histories, "l", []) == [0.0, 1.0] && Get(w.histories, "f", []) == [0.0, 10.0]
    ensures w.cache.order == ["l"] && w.cache.entries == map["l" := state]
  {
    var es0: seq<Event<T>> := [];
    var es1 := es0 + [Request("l", 0.0)];
    var es2 := es1 + [Request("l", 1.0)];
    var es3 := es2 + [Request("f", 0.0)];
    var es4 := es3 + [Request("f", 10.0)];
    RunOn(1, 20, es0, Request("l", 0.0));
    RunOn(1, 20, es1, Request("l", 1.0));
    RunOn(1, 20, es2, Request("f", 0.0));
    RunOn(1, 20, es3, Request("f", 10.0));
    RunOn(1, 20, es4, Store("l", state, 20.0));
    assert Busy(state) == es4 + [Store("l", state, 20.0)];
    assert [] + [0.0] + [1.0] == [0.0, 1.0] && [] + [0.0] + [10.0] == [0.0, 10.0];
  }

  /** Storing the slower session then changes nothing: it is dropped at once. */
  lemma NewcomerIsDropped<T>(state: T)
    ensures "f" !in Run(1, 20, Busy(state) + [Store("f", state, 20.0)]).cache.entries
  {
    var w := Run(1, 20, Busy(state));
    BusyRun(state, w);
    ReachableIsGood(1, 20, Busy(state));
    RunOn(1, 20, Busy(state), Store("f", state, 20.0));
    Rates();
    PutDropsItselfIff(w.cache, 1, "f", state, w.histories, 20.0);
  }
}
