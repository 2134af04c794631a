/** Each job handler acts on its own session as if that session had a private copy. */
module WorkerHandlers {
  import opened Basics
  import opened JobTypes
  import opened WorkerState
  import opened WorkerInvariants

  // ---------- eviction and reload ----------

  /** Evicting `s` is harmless: its marker, if still there, describes its weights. */
  predicate Durable(w: Worker, s: SessionId) {
    s in w.cache && s in w.store && Marked(w.store[s]) ==> Held(w, s) == w.slot.pristine
  }

  /**
   * A reload returns the session that was evicted exactly when the initialization marker is
   * gone or the weights never left the pristine base.
   */
  lemma ReloadRestoresIff(w: Worker, s: SessionId)
    requires Good(w) && s in w.cache
    ensures Session(Evict(w, s), s) == Session(w, s) <==> Durable(w, s)
  {
    SyncedResident(w, s);
    EvictedSession(w, s, Evict(w, s));
    ReloadedGrads(w, s);
    ReloadedWeights(w, s);
  }

  lemma SyncedResident(w: Worker, s: SessionId)
    requires Good(w) && s in w.cache
    ensures Synced(w, s) && Session(w, s) == Some(Resident(w, s))
  {
  }

  lemma EvictedSession(w: Worker, s: SessionId, v: Worker)
    requires Shape(w) && s in w.cache && Synced(w, s) && v == Evict(w, s)
    ensures Session(v, s) == Some(Reloaded(w.store[s], s, w.slot))
  {
    EvictForm(w, s);
  }

  lemma ReloadedWeights(w: Worker, s: SessionId)
    requires Shape(w) && s in w.cache && Synced(w, s)
    ensures Reloaded(w.store[s], s, w.slot).weights == Held(w, s) <==> Durable(w, s)
  {
    LoadSelf(w.slot.pristine, w.slot.pristine);
  }

  /** The gradients survive a reload whatever becomes of the weights. */
  lemma ReloadedGrads(w: Worker, s: SessionId)
    requires Shape(w) && s in w.cache && Synced(w, s)
    ensures Reloaded(w.store[s], s, w.slot).meta == Resident(w, s).meta
    ensures Reloaded(w.store[s], s, w.slot).grads == Resident(w, s).grads
  {
    if IsFullParam(w, s) {
      HeldKeys(w, s);
    }
  }

  lemma StepIsSynced(w: Worker, v: Worker)
    requires Good(w) && v.slot.pristine == w.slot.pristine && v.slot.wrapped == w.slot.wrapped && v.store == w.store
    requires forall t :: t in v.cache ==> Same(w, v, t)
    ensures AllSynced(v)
  {
    forall t | t in v.cache
      ensures Synced(v, t)
    {
      SameSession(w, v, t);
    }
  }

  lemma EvictIsGood(w: Worker, s: SessionId, v: Worker)
    requires Good(w) && Durable(w, s) && v == Evict(w, s)
    ensures Good(v) && SameSessions(w, v)
    ensures v.cache == Without(w.cache, s) && v.store == w.store
  {
    EvictKeeps(w, s, v);
    StepIsSynced(w, v);
    EvictedSessions(w, s, v);
  }

  lemma EvictedSessions(w: Worker, s: SessionId, v: Worker)
    requires Good(w) && Durable(w, s) && v == Evict(w, s)
    requires v.slot.pristine == w.slot.pristine && v.slot.wrapped == w.slot.wrapped
    requires forall t :: t != s ==> Same(w, v, t)
    ensures SameSessions(w, v)
  {
    forall t
      ensures Session(v, t) == Session(w, t)
    {
      if t != s {
        SameSession(w, v, t);
      } else if s in w.cache {
        ReloadRestoresIff(w, s);
      }
    }
  }

  /** Of the resident copy and its files the one with more steps, or as many and more passes, is opened. */
  lemma NewerCopyIsOpened(w: Worker, s: SessionId, victim: Option<SessionId>, o: Opening)
    requires s in w.cache && s in w.store && Loadable(w.store[s]) && o == Ensure(w, s, victim)
    ensures o.Opened?
    ensures var here, there := w.cache[s].meta, w.store[s].meta;
      && (there.totalSteps > here.totalSteps ==> o.runtime.meta == there)
      && (there.totalSteps == here.totalSteps && there.accumSteps > here.accumSteps ==> o.runtime.meta == there)
      && (there.totalSteps < here.totalSteps ==> o == Opened(w, w.cache[s]))
      && (there.totalSteps == here.totalSteps && there.accumSteps <= here.accumSteps ==> o == Opened(w, w.cache[s]))
  {
  }

  /** The resident copy is never behind its own files. */
  lemma NeverStale(w: Worker, s: SessionId)
    requires Good(w) && s in w.cache
    ensures !Stale(w, s)
  {
    assert Synced(w, s);
  }

  lemma InsertIsGood(w: Worker, s: SessionId, v: Worker)
    requires Good(w) && s in w.store && s !in w.cache
    requires Loadable(w.store[s]) && v == Loading(w, s)
    ensures Good(v) && SameSessions(w, v)
    ensures v.cache == w.cache[s := Revived(w.store[s])] && v.store == w.store
    ensures forall t :: t != s ==> Same(w, v, t)
  {
    var rt, weights := Revived(w.store[s]), StoredWeights(w.store[s], w.slot.pristine);
    StoredIsInsertable(w, s);
    InsertedShape(w, s, rt, weights, v);
    InsertedForm(w, s, rt, weights, v);
    InsertedSessions(w, s, rt, weights, v);
  }

  lemma StoredIsInsertable(w: Worker, s: SessionId)
    requires Good(w) && s in w.store && s !in w.cache && Loadable(w.store[s])
    ensures Insertable(w, s, Revived(w.store[s]), StoredWeights(w.store[s], w.slot.pristine))
  {
    assert SavedIsSound(w.store[s], s, w.slot);
  }

  lemma InsertedSessions(w: Worker, s: SessionId, rt: Runtime, weights: Weights, v: Worker)
    requires Good(w) && Insertable(w, s, rt, weights) && v == Inserted(w, s, rt, weights)
    requires s in w.store && rt == Revived(w.store[s]) && Loadable(w.store[s])
      && weights == StoredWeights(w.store[s], w.slot.pristine)
    ensures AllSynced(v) && SameSessions(w, v)
    ensures forall t :: t != s ==> Same(w, v, t)
  {
    InsertedForm(w, s, rt, weights, v);
    forall t
      ensures Session(v, t) == Session(w, t)
      ensures t != s ==> Same(w, v, t)
      ensures t in v.cache ==> Synced(v, t)
    {
      InsertedAt(w, s, rt, weights, v, t);
    }
  }

  lemma InsertedAt(w: Worker, s: SessionId, rt: Runtime, weights: Weights, v: Worker, t: SessionId)
    requires Good(w) && Insertable(w, s, rt, weights) && v == Inserted(w, s, rt, weights)
    requires s in w.store && rt == Revived(w.store[s]) && Loadable(w.store[s])
      && weights == StoredWeights(w.store[s], w.slot.pristine)
    ensures Session(v, t) == Session(w, t)
    ensures t != s ==> Same(w, v, t)
    ensures t in v.cache ==> Synced(v, t)
  {
    if t == s {
      InsertedOwn(w, s, rt, weights, v);
    } else {
      InsertedSame(w, s, rt, weights, t);
      SameSession(w, v, t);
    }
  }

  lemma InsertedForm(w: Worker, s: SessionId, rt: Runtime, weights: Weights, v: Worker)
    requires Shape(w) && Insertable(w, s, rt, weights) && v == Inserted(w, s, rt, weights)
    ensures v.cache == w.cache[s := rt] && v.store == w.store
    ensures v.slot.pristine == w.slot.pristine && v.slot.wrapped == w.slot.wrapped && v.slot.active == w.slot.active
  {
  }

  lemma InsertedOwn(w: Worker, s: SessionId, rt: Runtime, weights: Weights, v: Worker)
    requires Shape(w) && Insertable(w, s, rt, weights) && v == Inserted(w, s, rt, weights)
    requires s in w.store && SavedIsSound(w.store[s], s, w.slot)
    requires rt == Revived(w.store[s]) && weights == StoredWeights(w.store[s], w.slot.pristine)
    ensures Session(v, s) == Session(w, s)
    ensures s in v.cache && Synced(v, s)
  {
    InsertedForm(w, s, rt, weights, v);
    InsertedHeld(w, s, rt, weights, v);
    if rt.meta.mode.FullParam? {
      SameParams(w.slot.wrapped, s, rt.meta, w.slot.pristine, Held(v, s), rt.grads);
    }
  }

  /** Whom a full cache may drop when `s` comes in. */
  predicate Spares(w: Worker, s: SessionId, victim: Option<SessionId>) {
    s !in w.cache && victim.Some? ==> victim.value != s && Durable(w, victim.value)
  }

  lemma PutForm(w: Worker, s: SessionId, rt: Runtime, weights: Weights, victim: Option<SessionId>)
    requires s !in w.cache
    ensures Put(Attach(w, s, rt.meta, weights), s, rt, None) == Inserted(w, s, rt, weights)
    ensures victim.Some? ==>
      Put(Attach(w, s, rt.meta, weights), s, rt, victim) == Evict(Inserted(w, s, rt, weights), victim.value)
  {
    assert Attach(w, s, rt.meta, weights).cache == w.cache;
  }

  /** The stored session goes in, before anyone goes out. */
  ghost function Loading(w: Worker, s: SessionId): Worker
    requires s in w.store && Loadable(w.store[s])
  {
    Inserted(w, s, Revived(w.store[s]), StoredWeights(w.store[s], w.slot.pristine))
  }

  lemma LoadForm(w: Worker, s: SessionId, victim: Option<SessionId>)
    requires s in w.store && s !in w.cache && Loadable(w.store[s])
    ensures LoadSession(w, s, victim) == if victim.Some? then Evict(Loading(w, s), victim.value) else Loading(w, s)
  {
    PutForm(w, s, Revived(w.store[s]), StoredWeights(w.store[s], w.slot.pristine), victim);
  }

  lemma LoadIsGood(w: Worker, s: SessionId, victim: Option<SessionId>, v: Worker)
    requires Good(w) && s in w.store && s !in w.cache && Loadable(w.store[s]) && Spares(w, s, victim)
    requires v == LoadSession(w, s, victim)
    ensures Good(v) && SameSessions(w, v)
    ensures s in v.cache && v.cache[s] == Revived(w.store[s]) && v.store == w.store
  {
    LoadForm(w, s, victim);
    InsertIsGood(w, s, Loading(w, s));
    if victim.Some? {
      DurableSame(w, Loading(w, s), victim.value);
      EvictIsGood(Loading(w, s), victim.value, v);
      Kept(Loading(w, s).cache, victim.value, s);
    }
  }

  lemma Kept(cache: map<SessionId, Runtime>, victim: SessionId, s: SessionId)
    requires s in cache && s != victim
    ensures s in Without(cache, victim) && Without(cache, victim)[s] == cache[s]
  {
  }

  lemma DurableSame(w: Worker, v: Worker, t: SessionId)
    requires Same(w, v, t)
    ensures Durable(v, t) == Durable(w, t)
  {
  }

  lemma LoadIsInactive(w: Worker, s: SessionId, victim: Option<SessionId>, v: Worker)
    requires SlotShape(w) && s in w.store && s !in w.cache && Loadable(w.store[s]) && v == LoadSession(w, s, victim)
    ensures v.slot.active != Some(s)
  {
    var saved := w.store[s];
    assert Attach(w, s, saved.meta, StoredWeights(saved, w.slot.pristine)).slot.active == w.slot.active;
  }

  lemma EnsureIsGood(w: Worker, s: SessionId, victim: Option<SessionId>, o: Opening)
    requires Good(w) && s in w.store && Spares(w, s, victim) && o == Ensure(w, s, victim)
    ensures o.Opened? && Good(o.worker) && s in o.worker.cache && o.worker.cache[s] == o.runtime
      && o.worker.store == w.store
    ensures if s in w.cache then o.worker == w else o.worker.slot.active != Some(s)
    ensures SameSessions(w, o.worker)
  {
    if s in w.cache {
      NeverStale(w, s);
    } else {
      assert SavedIsSound(w.store[s], s, w.slot);
      LoadIsGood(w, s, victim, o.worker);
      LoadIsInactive(w, s, victim, o.worker);
    }
  }

  /** Load and activate: the session faces the model and no session has changed. */
  lemma OpenIsGood(w: Worker, s: SessionId, victim: Option<SessionId>, o: Opening, v: Worker)
    requires Good(w) && s in w.store && Spares(w, s, victim) && o == Ensure(w, s, victim)
    requires o.Opened? ==> v == Activate(o.worker, s, o.runtime.meta.mode)
    ensures o.Opened? && Good(v) && s in v.cache && v.cache[s] == o.runtime && v.store == w.store
    ensures RunsOnItsOwn(v, s) && Ready(v, s, o.runtime.meta.mode)
    ensures Armed(w, s) ==> Armed(v, s)
    ensures SameSessions(w, v)
  {
    EnsureIsGood(w, s, victim, o);
    ActivateKeeps(o.worker, s, v);
    assert Same(o.worker, v, s);
    StepIsSynced(o.worker, v);
    forall t
      ensures Session(v, t) == Session(w, t)
    {
      SameSession(o.worker, v, t);
    }
  }

  // ---------- saving ----------

  /** The gradient file this save leaves behind reads like the accumulator. */
  ghost predicate GradsWritten(w: Worker, s: SessionId, rt: Runtime)
    requires s in w.cache
  {
    && SoundGrads(w.slot.wrapped, s, rt.meta, Held(w, s), rt.grads)
    && (rt.grads == map[] && OldGrads(w, s).Some? ==>
      SoundGrads(w.slot.wrapped, s, rt.meta, Held(w, s), OldGrads(w, s).value))
  }

  /** The weights a save writes. */
  ghost function Written(w: Worker, s: SessionId, mode: Mode): Weights
    requires Shape(w) && s in w.cache && mode == w.cache[s].meta.mode
  {
    if mode.Lora? then w.slot.adapters[s]
    else if w.slot.active == Some(s) then w.slot.live
    else w.fpBase[s]
  }

  lemma SaveForm(w: Worker, s: SessionId, rt: Runtime, v: Worker)
    requires Shape(w) && s in w.cache && w.cache[s] == rt && v == Save(w, s, rt)
    ensures v.slot == w.slot && v.cache == w.cache
    ensures v.store == w.store[s := Saved(rt.meta, Some(Written(w, s, rt.meta.mode)), GradFile(OldGrads(w, s), rt))]
    ensures v.fpBase == if rt.meta.mode.FullParam?
      && w.slot.active == Some(s) then w.fpBase[s := w.slot.live] else w.fpBase
  {
  }

  lemma WrittenIsHeld(w: Worker, s: SessionId, mode: Mode)
    requires Shape(w) && s in w.cache && mode == w.cache[s].meta.mode
    ensures Canonical(mode, w.slot.pristine, Written(w, s, mode)) == Held(w, s)
    ensures mode.FullParam? ==> Covers(Written(w, s, mode), w.slot.pristine)
  {
    LoadSelf(w.slot.live, w.slot.pristine);
  }

  lemma SaveShape(w: Worker, s: SessionId, rt: Runtime, v: Worker)
    requires Shape(w) && s in w.cache && w.cache[s] == rt && v == Save(w, s, rt)
    ensures SlotShape(v) && IndexShape(v)
    ensures Held(v, s) == Held(w, s)
  {
    SaveForm(w, s, rt, v);
  }

  lemma SaveKeeps(w: Worker, s: SessionId, rt: Runtime, v: Worker)
    requires Shape(w) && s in w.cache && w.cache[s] == rt && v == Save(w, s, rt)
    ensures Shape(v) && v.cache == w.cache && v.slot == w.slot && Held(v, s) == Held(w, s)
    ensures s in v.store && v.store == w.store[s := v.store[s]]
    ensures v.store[s].meta == rt.meta && v.store[s].grads == GradFile(OldGrads(w, s), rt)
    ensures v.store[s].weights.Some? && Loadable(v.store[s])
    ensures rt.meta.mode.FullParam? ==> Covers(v.store[s].weights.value, w.slot.pristine)
    ensures Canonical(rt.meta.mode, w.slot.pristine, v.store[s].weights.value) == Held(w, s)
  {
    SaveForm(w, s, rt, v);
    SaveShape(w, s, rt, v);
    WrittenIsHeld(w, s, rt.meta.mode);
  }

  lemma SaveIsSynced(w: Worker, s: SessionId, rt: Runtime, v: Worker)
    requires Shape(w) && s in w.cache && w.cache[s] == rt && GradsWritten(w, s, rt) && v == Save(w, s, rt)
    ensures Synced(v, s)
  {
    SaveKeeps(w, s, rt, v);
    GradFileReads(w.slot.wrapped, s, Held(w, s), OldGrads(w, s), rt);
    assert rt.meta.mode.Lora? ==> w.slot.adapters[s] != map[];
    if rt.meta.mode.FullParam? {
      HeldKeys(w, s);
      SameParams(w.slot.wrapped, s, rt.meta, Held(w, s), w.slot.pristine, Pending(v.store[s]));
    }
  }

  /** Soundness is about the names of the parameters alone. */
  lemma SameParams(wrapped: set<ParamName>, s: SessionId, meta: Meta, a: Weights, b: Weights, g: Grads)
    requires a.Keys == b.Keys && SoundGrads(wrapped, s, meta, a, g)
    ensures SoundGrads(wrapped, s, meta, b, g)
  {
  }

  lemma GradFileReads(wrapped: set<ParamName>, s: SessionId, params: Weights, previous: Option<Grads>, rt: Runtime)
    requires params != map[] && SoundGrads(wrapped, s, rt.meta, params, rt.grads)
    requires rt.grads == map[] && previous.Some? ==> SoundGrads(wrapped, s, rt.meta, params, previous.value)
    ensures var file := GradFile(previous, rt);
      var g := if file.Some? then file.value else map[];
      SoundGrads(wrapped, s, rt.meta, params, g) && (rt.meta.accumSteps > 0 ==> g == rt.grads)
  {
    NonzeroOfEmpty();
    if rt.meta.accumSteps > 0 {
      var n :| n in params;
      assert (if rt.meta.mode.FullParam? then BaseName(wrapped, n) else InAdapter(s, n)) in rt.grads;
    }
  }

  lemma NonzeroOfEmpty()
    ensures Nonzero<LiveName>(map[]) == map[]
  {
  }

  lemma SaveSame(w: Worker, s: SessionId, rt: Runtime, v: Worker, t: SessionId)
    requires Shape(w) && s in w.cache && w.cache[s] == rt && v == Save(w, s, rt) && t != s
    ensures Same(w, v, t)
  {
  }

  /**
   * Saving `w`, which differs from the good state `w0` in session `s` alone, gives a good
   * state in which `s` is what it is in `w` and the others are what they were.
   */
  lemma SaveIsGood(w0: Worker, w: Worker, s: SessionId, rt: Runtime, v: Worker)
    requires Good(w0) && Shape(w) && s in w.cache && w.cache[s] == rt
    requires w.store == w0.store && w.slot.pristine == w0.slot.pristine && w.slot.wrapped == w0.slot.wrapped
    requires forall t :: t != s ==> Same(w0, w, t)
    requires GradsWritten(w, s, rt) && v == Save(w, s, rt)
    ensures Good(v) && v.slot.pristine == w.slot.pristine && v.slot.wrapped == w.slot.wrapped
      && Session(v, s) == Some(Resident(w, s))
    ensures forall t :: t != s ==> Session(v, t) == Session(w0, t)
  {
    SaveKeeps(w, s, rt, v);
    SaveIsSynced(w, s, rt, v);
    forall t | t != s
      ensures Session(v, t) == Session(w0, t)
      ensures t in v.cache ==> Synced(v, t)
    {
      SaveSame(w, s, rt, v, t);
      SameSession(w, v, t);
      SameSession(w0, w, t);
    }
    assert forall t :: t in v.store ==> SavedIsSound(v.store[t], t, v.slot);
  }
}
