/** Creating sessions: the capacity gate and the two kinds of initialization. */
module NewSessions {
  import opened Basics
  import opened JobTypes
  import opened WorkerState
  import opened WorkerInvariants
  import opened WorkerHandlers
  import opened PrivateSessions

  /** An incumbent the gate turns the newcomer away for. */
  predicate Blocks(w: Worker, s: SessionId, sid: SessionId) {
    sid != s && sid in w.cache && w.cache[sid].meta.totalSteps != 0
  }

  lemma GateStep(w: Worker, sid: SessionId, v: Worker)
    requires Good(w) && Durable(w, sid)
    requires var out := Evict(w, sid); v == out.(fpBase := Without(out.fpBase, sid))
    ensures Good(v) && SameSessions(w, v)
    ensures v == Evict(w, sid) && v.cache == Without(w.cache, sid) && v.store == w.store
    ensures forall t :: t != sid ==> Same(w, v, t)
  {
    NothingStashed(w, sid);
    EvictKeeps(w, sid, v);
    EvictIsGood(w, sid, v);
  }

  /** An evicted session has no stash left to drop. */
  lemma NothingStashed(w: Worker, sid: SessionId)
    requires Shape(w)
    ensures var out := Evict(w, sid); out.(fpBase := Without(out.fpBase, sid)) == out
  {
    var out := Evict(w, sid);
    EvictKeeps(w, sid, out);
    assert sid !in out.fpBase;
    assert Without(out.fpBase, sid) == out.fpBase;
  }

  /** The gate admits exactly when no incumbent has stepped; admitted or not, no session changes. */
  lemma {:induction false} GateIsGood(w: Worker, s: SessionId, sids: seq<SessionId>)
    requires Good(w)
    requires forall sid :: sid in sids && sid != s && !Blocks(w, s, sid) ==> Durable(w, sid)
    ensures Good(Gate(w, s, sids).0)
    ensures Gate(w, s, sids).0.store == w.store
    ensures forall t :: t in Gate(w, s, sids).0.cache ==> t in w.cache
    ensures forall t :: t !in sids || t == s ==> Same(w, Gate(w, s, sids).0, t)
    ensures SameSessions(w, Gate(w, s, sids).0)
    ensures Gate(w, s, sids).1 <==> forall sid :: sid in sids ==> !Blocks(w, s, sid)
    ensures Gate(w, s, sids).1 ==> forall sid :: sid in sids && sid != s ==> sid !in Gate(w, s, sids).0.cache
    decreases |sids|
  {
    if sids != [] {
      if sids[0] == s {
        GateIsGood(w, s, sids[1..]);
      } else if !Blocks(w, s, sids[0]) {
        var out := Evict(w, sids[0]);
        var v := out.(fpBase := Without(out.fpBase, sids[0]));
        GateStep(w, sids[0], v);
        GateRest(w, s, sids, v);
        GateIsGood(v, s, sids[1..]);
      }
    }
    forall t | t !in sids || t == s
      ensures Same(w, Gate(w, s, sids).0, t)
    {
      GateSpares(w, s, sids, t);
    }
  }

  /** Only incumbents are dropped. */
  lemma {:induction false} GateSpares(w: Worker, s: SessionId, sids: seq<SessionId>, t: SessionId)
    requires Good(w) && (t !in sids || t == s)
    requires forall sid :: sid in sids && sid != s && !Blocks(w, s, sid) ==> Durable(w, sid)
    ensures Same(w, Gate(w, s, sids).0, t)
    decreases |sids|
  {
    if sids != [] {
      if sids[0] == s {
        GateSpares(w, s, sids[1..], t);
      } else if !Blocks(w, s, sids[0]) {
        var out := Evict(w, sids[0]);
        var v := out.(fpBase := Without(out.fpBase, sids[0]));
        GateStep(w, sids[0], v);
        GateRest(w, s, sids, v);
        GateSpares(v, s, sids[1..], t);
        SameTrans(w, v, Gate(v, s, sids[1..]).0, t);
      }
    }
  }

  lemma GateRest(w: Worker, s: SessionId, sids: seq<SessionId>, v: Worker)
    requires sids != [] && v.cache == Without(w.cache, sids[0])
    requires forall t :: t != sids[0] ==> Same(w, v, t)
    requires !Blocks(w, s, sids[0])
    requires forall sid :: sid in sids && sid != s && !Blocks(w, s, sid) ==> Durable(w, sid)
    ensures forall sid :: sid in sids[1..] && sid != s && !Blocks(v, s, sid) ==> Durable(v, sid)
    ensures (forall sid :: sid in sids[1..] ==> !Blocks(v, s, sid)) <==>
      (forall sid :: sid in sids ==> !Blocks(w, s, sid))
  {
    forall sid
      ensures Blocks(v, s, sid) == Blocks(w, s, sid)
      ensures Durable(w, sid) ==> Durable(v, sid)
    {
      if sid != sids[0] {
        DurableSame(w, v, sid);
      }
    }
    assert forall sid :: sid in sids <==> sid == sids[0] || sid in sids[1..];
  }

  lemma MarkerIsGood(w: Worker, s: SessionId, v: Worker)
    requires Good(w) && s !in w.cache && s !in w.store
    requires var rt := Runtime(NewMeta(FullParam, {}), map[]); v == SaveMarker(Inserted(w, s, rt, map[]), s, rt)
    ensures Good(v) && v.slot.pristine == w.slot.pristine && v.slot.wrapped == w.slot.wrapped
    ensures Session(v, s) == Some(Begin(FullParam, {}, w.slot.pristine)) && Durable(v, s)
    ensures forall t :: t != s ==> Same(w, v, t)
  {
    var rt := Runtime(NewMeta(FullParam, {}), map[]);
    var mid := Inserted(w, s, rt, map[]);
    InsertedShape(w, s, rt, map[], mid);
    MarkerForm(w, mid, s, rt, v);
    MarkerOwn(w, mid, s, rt, v);
    MarkerSessions(w, mid, s, rt, v);
    MarkerShape(mid, v);
  }

  lemma MarkerSessions(w: Worker, mid: Worker, s: SessionId, rt: Runtime, v: Worker)
    requires Good(w) && s !in w.cache && s !in w.store && rt == Runtime(NewMeta(FullParam, {}), map[])
    requires mid == Inserted(w, s, rt, map[]) && v == SaveMarker(mid, s, rt)
    requires v.slot.pristine == w.slot.pristine && v.slot.wrapped == w.slot.wrapped
      && v.store == w.store[s := v.store[s]]
    requires s in v.cache && Synced(v, s)
    ensures AllSynced(v)
    ensures forall t :: t != s ==> Same(w, v, t)
  {
    forall t | t != s
      ensures Same(w, v, t)
      ensures t in v.cache ==> Synced(v, t)
    {
      MarkerOther(w, mid, s, rt, v, t);
    }
  }

  lemma MarkerOther(w: Worker, mid: Worker, s: SessionId, rt: Runtime, v: Worker, t: SessionId)
    requires Good(w) && s !in w.cache && t != s && rt == Runtime(NewMeta(FullParam, {}), map[])
    requires mid == Inserted(w, s, rt, map[]) && v == SaveMarker(mid, s, rt)
    ensures Same(w, v, t)
    ensures t in v.cache ==> Synced(v, t)
  {
    InsertedSame(w, s, rt, map[], t);
    MarkerSame(mid, s, rt, t);
    SameTrans(w, mid, v, t);
    SameSession(w, v, t);
  }

  lemma MarkerShape(mid: Worker, v: Worker)
    requires Shape(mid) && v == mid.(store := v.store)
    ensures SlotShape(v) && IndexShape(v)
  {
  }

  lemma MarkerOwn(w: Worker, mid: Worker, s: SessionId, rt: Runtime, v: Worker)
    requires Shape(w) && s !in w.cache && s !in w.store && rt == Runtime(NewMeta(FullParam, {}), map[])
    requires mid == Inserted(w, s, rt, map[])
      && v == mid.(store := w.store[s := Saved(rt.meta.(pristineInit := true), None, None)])
    requires v.cache == w.cache[s := rt] && v.slot.pristine == w.slot.pristine && v.slot.wrapped == w.slot.wrapped
    ensures Synced(v, s) && Durable(v, s) && SavedIsSound(v.store[s], s, v.slot)
    ensures Session(v, s) == Some(Begin(FullParam, {}, w.slot.pristine))
  {
    InsertedHeld(w, s, rt, map[], mid);
    assert Load(w.slot.pristine, map[]) == w.slot.pristine;
    assert Held(v, s) == Held(mid, s);
    NonzeroOfEmpty();
  }

  lemma MarkerForm(w: Worker, mid: Worker, s: SessionId, rt: Runtime, v: Worker)
    requires rt == Runtime(NewMeta(FullParam, {}), map[]) && s !in w.store && s !in w.cache
    requires mid == Inserted(w, s, rt, map[]) && v == SaveMarker(mid, s, rt)
    ensures v == mid.(store := w.store[s := Saved(rt.meta.(pristineInit := true), None, None)])
    ensures mid.store == w.store && mid.slot.pristine == w.slot.pristine && mid.slot.wrapped == w.slot.wrapped
      && v.cache == w.cache[s := rt]
  {
  }

  lemma MarkerSame(w: Worker, s: SessionId, rt: Runtime, t: SessionId)
    requires t != s
    ensures Same(w, SaveMarker(w, s, rt), t)
  {
  }

  lemma AdapterIsGood(w: Worker, s: SessionId, targets: set<ParamName>, initial: Weights, v: Worker)
    requires Good(w) && s !in w.cache && s !in w.store && initial != map[] && targets <= w.slot.wrapped
    requires var rt := Runtime(NewMeta(Lora, targets), map[]); v == Save(Inserted(w, s, rt, initial), s, rt)
    ensures Good(v) && v.slot.pristine == w.slot.pristine && v.slot.wrapped == w.slot.wrapped
    ensures Session(v, s) == Some(Begin(Lora, targets, initial))
    ensures forall t :: t != s ==> Same(w, v, t)
  {
    var rt := Runtime(NewMeta(Lora, targets), map[]);
    var mid := Inserted(w, s, rt, initial);
    InsertedShape(w, s, rt, initial, mid);
    InsertedHeld(w, s, rt, initial, mid);
    NonzeroOfEmpty();
    forall t | t != s
      ensures Same(w, mid, t)
    {
      InsertedSame(w, s, rt, initial, t);
    }
    SaveIsGood(w, mid, s, rt, v);
    SaveForm(mid, s, rt, v);
    forall t | t != s
      ensures Same(w, v, t)
    {
      SaveSame(mid, s, rt, v, t);
      SameTrans(w, mid, v, t);
    }
  }

  /** Eviction does not look at the store, so it may as well come after the save. */
  lemma EvictThenSave(w: Worker, s: SessionId, store: map<SessionId, Saved>)
    ensures Evict(w.(store := store), s) == Evict(w, s).(store := store)
  {
    DeleteThenSave(w.(cache := Without(w.cache, s)), s, store);
  }

  lemma DeleteThenSave(w: Worker, s: SessionId, store: map<SessionId, Saved>)
    ensures OnEvict(w.(store := store), s, Lora) == OnEvict(w, s, Lora).(store := store)
  {
    assert Deleted(w.(store := store), s) == Deleted(w, s).(store := store);
  }

  lemma AdapterSurvives(w: Worker, s: SessionId, rt: Runtime, victim: SessionId)
    requires Shape(w) && s in w.cache && s in w.slot.adapters && rt.meta.mode.Lora? && victim != s
    ensures Save(Evict(w, victim), s, rt) == Evict(Save(w, s, rt), victim)
  {
    EvictKeeps(w, victim, Evict(w, victim));
    EvictThenSave(w, victim, Save(w, s, rt).store);
    assert Held(Evict(w, victim), s) == Held(w, s) by {
      assert Same(w, Evict(w, victim), s);
    }
  }

  /** The whole of a victim's leaving, seen from every session. */
  lemma VictimLeaves(w0: Worker, w: Worker, s: SessionId, victim: Option<SessionId>, v: Worker)
    requires victim.Some? ==> victim.value != s
    requires forall t :: t != s ==> Same(w0, w, t)
    requires Good(w) && (victim.Some? ==> Durable(w0, victim.value))
    requires v == if victim.Some? then Evict(w, victim.value) else w
    ensures Good(v) && v.slot.pristine == w.slot.pristine && v.slot.wrapped == w.slot.wrapped
    ensures Session(v, s) == Session(w, s)
    ensures forall t :: t != s ==> Session(v, t) == Session(w0, t)
  {
    if victim.Some? {
      DurableSame(w0, w, victim.value);
      EvictIsGood(w, victim.value, v);
    }
    forall t | t != s
      ensures Session(v, t) == Session(w0, t)
    {
      SameSession(w0, w, t);
    }
  }

  // ---------- wrapping ----------

  /** The base with more of its parameters wrapped. */
  function Widened(w: Worker, targets: set<ParamName>): Worker {
    w.(slot := w.slot.(wrapped := w.slot.wrapped + targets))
  }

  /** The session has no gradient that goes by a name the wrapping takes away. */
  predicate Quiet(w: Worker, s: SessionId, targets: set<ParamName>) {
    s in w.store && w.store[s].meta.mode.FullParam? && w.store[s].meta.accumSteps > 0 ==>
      forall n :: n in targets && n in w.slot.pristine ==> n in w.slot.wrapped
  }

  lemma QuietNames(wrapped: set<ParamName>, targets: set<ParamName>, s: SessionId, meta: Meta, params: Weights,
      g: Grads)
    requires SoundGrads(wrapped, s, meta, params, g)
    requires meta.mode.FullParam? && meta.accumSteps > 0 ==> forall n :: n in targets && n in params ==> n in wrapped
    ensures SoundGrads(wrapped + targets, s, meta, params, g)
    ensures OwnGrads(wrapped + targets, s, meta, params, g) == OwnGrads(wrapped, s, meta, params, g)
  {
    assert meta.mode.FullParam? && meta.accumSteps > 0 ==> forall n :: n in params ==>
      BaseName(wrapped + targets, n) == BaseName(wrapped, n);
  }

  lemma WidenedShape(w: Worker, targets: set<ParamName>)
    requires Shape(w)
    ensures SlotShape(Widened(w, targets)) && IndexShape(Widened(w, targets))
  {
    var v := Widened(w, targets);
    assert v.cache == w.cache && v.fpBase == w.fpBase && v.slot.adapters == w.slot.adapters;
    forall s | s in v.slot.adapters
      ensures v.cache[s].meta.targets <= v.slot.wrapped
    {
    }
  }

  lemma WidenedSaved(w: Worker, targets: set<ParamName>, s: SessionId)
    requires s in w.store && SavedIsSound(w.store[s], s, w.slot) && Quiet(w, s, targets)
    ensures SavedIsSound(w.store[s], s, Widened(w, targets).slot)
    ensures Reloaded(w.store[s], s, Widened(w, targets).slot) == Reloaded(w.store[s], s, w.slot)
  {
    var saved := w.store[s];
    QuietNames(w.slot.wrapped, targets, s, saved.meta, SavedParams(saved, w.slot.pristine), Pending(saved));
    SavedKeys(saved, w.slot.pristine);
    if saved.meta.mode.FullParam? {
      SameParams(w.slot.wrapped, s, saved.meta, w.slot.pristine,
        Canonical(FullParam, w.slot.pristine, StoredWeights(saved, w.slot.pristine)), Pending(saved));
      QuietNames(w.slot.wrapped, targets, s, saved.meta,
        Canonical(FullParam, w.slot.pristine, StoredWeights(saved, w.slot.pristine)), Pending(saved));
    }
  }

  lemma SavedKeys(saved: Saved, pristine: Weights)
    requires Loadable(saved)
    ensures Canonical(saved.meta.mode, pristine, StoredWeights(saved, pristine)).Keys
      == SavedParams(saved, pristine).Keys
  {
  }

  lemma WidenedResident(w: Worker, targets: set<ParamName>, s: SessionId)
    requires Shape(w) && s in w.cache && Synced(w, s) && Quiet(w, s, targets)
    ensures Synced(Widened(w, targets), s) && Resident(Widened(w, targets), s) == Resident(w, s)
  {
    WidenedSaved(w, targets, s);
    assert Held(Widened(w, targets), s) == Held(w, s);
    if IsFullParam(w, s) {
      HeldKeys(w, s);
    }
    QuietNames(w.slot.wrapped, targets, s, w.cache[s].meta, Held(w, s), w.cache[s].grads);
  }

  lemma WidenedIsGood(w: Worker, targets: set<ParamName>, v: Worker)
    requires Good(w) && v == Widened(w, targets) && forall s :: Quiet(w, s, targets)
    ensures Good(v)
    ensures forall t :: Session(v, t) == Session(w, t)
  {
    WidenedShape(w, targets);
    forall t
      ensures t in v.store ==> SavedIsSound(v.store[t], t, v.slot)
      ensures t in v.cache ==> Synced(v, t)
      ensures Session(v, t) == Session(w, t)
    {
      WidenedSession(w, targets, t);
    }
  }

  lemma WidenedSession(w: Worker, targets: set<ParamName>, t: SessionId)
    requires Good(w) && Quiet(w, t, targets)
    ensures t in w.store ==> SavedIsSound(w.store[t], t, Widened(w, targets).slot)
    ensures t in w.cache ==> Synced(Widened(w, targets), t)
    ensures Session(Widened(w, targets), t) == Session(w, t)
  {
    if t in w.store {
      WidenedSaved(w, targets, t);
    }
    if t in w.cache {
      WidenedResident(w, targets, t);
    }
  }

  /** Wrapping leaves a session its gradients exactly when it is quiet. */
  lemma WideningKeepsIff(w: Worker, targets: set<ParamName>, s: SessionId)
    requires Good(w)
    ensures Session(Widened(w, targets), s) == Session(w, s) <==> Quiet(w, s, targets)
  {
    if Quiet(w, s, targets) {
      WidenedSession(w, targets, s);
    } else {
      var n :| n in targets && n in w.slot.pristine && n !in w.slot.wrapped;
      GradientIsLost(w, targets, s, n);
    }
  }

  lemma GradientIsLost(w: Worker, targets: set<ParamName>, s: SessionId, n: ParamName)
    requires Good(w) && s in w.store && w.store[s].meta.mode.FullParam? && w.store[s].meta.accumSteps > 0
    requires n in targets && n in w.slot.pristine && n !in w.slot.wrapped
    ensures Session(w, s).Some? && n in Session(w, s).value.grads
    ensures Session(Widened(w, targets), s).Some? && n !in Session(Widened(w, targets), s).value.grads
  {
    assert SavedIsSound(w.store[s], s, w.slot);
    assert Bare(n) in Pending(w.store[s]);
    if s in w.cache {
      assert Synced(w, s);
      HeldKeys(w, s);
    }
  }

  lemma WidenedFirst(w: Worker, s: SessionId, targets: set<ParamName>, initial: Weights, victim: Option<SessionId>)
    ensures InitLora(w, s, targets, initial, victim) == InitLora(Widened(w, targets), s, targets, initial, victim)
  {
    assert w.slot.wrapped + targets + targets == w.slot.wrapped + targets;
    assert AttachAdapter(w, s, targets, initial) == AttachAdapter(Widened(w, targets), s, targets, initial);
  }

  /** A new adapter that takes no pending gradient's name away leaves all other sessions as they were. */
  lemma InitLoraIsPrivate(w: Worker, s: SessionId, targets: set<ParamName>, initial: Weights, victim: Option<SessionId>,
      v: Worker)
    requires Good(w) && s !in w.store && s !in w.cache && initial != map[] && Spares(w, s, victim)
    requires forall t :: Quiet(w, t, targets)
    requires v == InitLora(w, s, targets, initial, victim)
    ensures Good(v) && v.slot.pristine == w.slot.pristine && Session(v, s) == Some(Begin(Lora, targets, initial))
    ensures forall t :: t != s ==> Session(v, t) == Session(w, t)
  {
    var wide := Widened(w, targets);
    WidenedIsGood(w, targets, wide);
    WidenedFirst(w, s, targets, initial, victim);
    assert Spares(wide, s, victim);
    WrappedInitIsPrivate(wide, s, targets, initial, victim, v);
  }

  lemma WrappedInitIsPrivate(w: Worker, s: SessionId, targets: set<ParamName>, initial: Weights,
      victim: Option<SessionId>, v: Worker)
    requires Good(w) && s !in w.store && s !in w.cache && initial != map[] && Spares(w, s, victim)
      && targets <= w.slot.wrapped
    requires v == InitLora(w, s, targets, initial, victim)
    ensures Good(v) && v.slot.pristine == w.slot.pristine && v.slot.wrapped == w.slot.wrapped
    ensures Session(v, s) == Some(Begin(Lora, targets, initial))
    ensures forall t :: t != s ==> Session(v, t) == Session(w, t)
  {
    var rt := Runtime(NewMeta(Lora, targets), map[]);
    var mid := Inserted(w, s, rt, initial);
    PutForm(w, s, rt, initial, victim);
    assert Attach(w, s, rt.meta, initial) == AttachAdapter(w, s, targets, initial);
    var saved := Save(mid, s, rt);
    AdapterIsGood(w, s, targets, initial, saved);
    if victim.Some? {
      InsertedShape(w, s, rt, initial, mid);
      AdapterSurvives(mid, s, rt, victim.value);
    }
    VictimLeaves(w, saved, s, victim, v);
  }

  lemma InitFullParamIsPrivate(w: Worker, s: SessionId, sids: seq<SessionId>, victim: Option<SessionId>, v: Worker)
    requires Good(w) && s !in w.store && s !in w.cache && Spares(w, s, victim)
    requires forall sid :: sid in sids ==> !Blocks(w, s, sid) && Durable(w, sid)
    requires v == InitFullParam(w, s, sids, victim)
    ensures Good(v) && v.slot.pristine == w.slot.pristine
      && Session(v, s) == Some(Begin(FullParam, {}, w.slot.pristine))
    ensures forall t :: t != s ==> Session(v, t) == Session(w, t)
  {
    GateIsGood(w, s, sids);
    var w1 := Gate(w, s, sids).0;
    assert Same(w, w1, s);
    if victim.Some? {
      if victim.value in sids {
        assert Durable(w1, victim.value);
      } else {
        DurableSame(w, w1, victim.value);
      }
    }
    AdmittedIsPrivate(w1, s, victim, v);
  }

  lemma AdmittedIsPrivate(w1: Worker, s: SessionId, victim: Option<SessionId>, v: Worker)
    requires Good(w1) && s !in w1.store && s !in w1.cache && Spares(w1, s, victim)
    requires var rt := Runtime(NewMeta(FullParam, {}), map[]);
      v == SaveMarker(Put(AttachFullParam(w1, s, map[]), s, rt, victim), s, rt)
    ensures Good(v) && v.slot.pristine == w1.slot.pristine
      && Session(v, s) == Some(Begin(FullParam, {}, w1.slot.pristine))
    ensures forall t :: t != s ==> Session(v, t) == Session(w1, t)
  {
    var rt := Runtime(NewMeta(FullParam, {}), map[]);
    var mid := Inserted(w1, s, rt, map[]);
    PutForm(w1, s, rt, map[], victim);
    assert Attach(w1, s, rt.meta, map[]) == AttachFullParam(w1, s, map[]);
    var marked := SaveMarker(mid, s, rt);
    MarkerIsGood(w1, s, marked);
    if victim.Some? {
      InsertedShape(w1, s, rt, map[], mid);
      EvictKeeps(mid, victim.value, Evict(mid, victim.value));
      EvictThenSave(mid, victim.value, marked.store);
    }
    VictimLeaves(w1, marked, s, victim, v);
  }
}
