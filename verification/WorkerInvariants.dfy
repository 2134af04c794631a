/** What every step of the worker keeps, and what a session is apart from its neighbours. */
module WorkerInvariants {
  import opened Basics
  import opened JobTypes
  import opened WorkerState

  // ---------- one session by itself ----------

  /** A session with a private copy of its weights; between cycles it has no gradients. */
  datatype Private = Private(meta: Meta, weights: Weights, grads: ParamGrads)

  function Plain(meta: Meta): Meta {
    meta.(pristineInit := false)
  }

  function Canonical(mode: Mode, pristine: Weights, weights: Weights): Weights {
    if mode.FullParam? then Load(pristine, weights) else weights
  }

  /** A resident session's weights: the live base if it is active, its stash or its adapter otherwise. */
  function Held(w: Worker, s: SessionId): Weights
    requires s in w.cache
  {
    if w.cache[s].meta.mode.FullParam? then
      if w.slot.active == Some(s) then w.slot.live
      else if s in w.fpBase then Load(w.slot.pristine, w.fpBase[s])
      else w.slot.pristine
    else if s in w.slot.adapters then w.slot.adapters[s]
    else map[]
  }

  /** What an optimizer step would find of the cycle's gradients. */
  function OwnGrads(wrapped: set<ParamName>, s: SessionId, meta: Meta, params: Weights, g: Grads): ParamGrads {
    if meta.accumSteps == 0 then map[]
    else if meta.mode.FullParam? then BaseGrads(wrapped, params, g)
    else AdapterGrads(s, params, g)
  }

  function Resident(w: Worker, s: SessionId): Private
    requires s in w.cache
  {
    var rt := w.cache[s];
    Private(Plain(rt.meta), Held(w, s), OwnGrads(w.slot.wrapped, s, rt.meta, Held(w, s), rt.grads))
  }

  /** The session a reload would make resident. */
  function Reloaded(saved: Saved, s: SessionId, slot: Slot): Private
    requires Loadable(saved)
  {
    var weights := Canonical(saved.meta.mode, slot.pristine, StoredWeights(saved, slot.pristine));
    Private(Plain(saved.meta), weights, OwnGrads(slot.wrapped, s, saved.meta, weights, Pending(saved)))
  }

  function Session(w: Worker, s: SessionId): Option<Private> {
    if s in w.cache then Some(Resident(w, s))
    else if s in w.store && Loadable(w.store[s]) then Some(Reloaded(w.store[s], s, w.slot))
    else None
  }

  // ---------- invariants ----------

  predicate Covers(sd: Weights, names: Weights) {
    names.Keys <= sd.Keys
  }

  /** The base is pristine except while a full-parameter session is active. */
  ghost predicate SlotShape(w: Worker) {
    && w.slot.pristine != map[]
    && w.slot.live.Keys == w.slot.pristine.Keys
    && (w.slot.active.Some? ==> w.slot.active.value in w.cache)
    && (!ActiveIsFullParam(w) ==> w.slot.live == w.slot.pristine)
    && (w.slot.active.Some? && !ActiveIsFullParam(w) ==> !w.slot.flags.base)
  }

  /**
   * Stashes and adapters exist exactly for the resident sessions of their kind, and the adapters'
   * layers are wrapped.
   */
  ghost predicate IndexShape(w: Worker) {
    && (forall s :: s in w.fpBase <==> IsFullParam(w, s))
    && (forall s :: s in w.slot.adapters <==> s in w.cache && w.cache[s].meta.mode.Lora?)
    && (forall s :: s in w.fpBase ==> Covers(w.fpBase[s], w.slot.pristine))
    && (forall s :: s in w.slot.adapters ==> w.slot.adapters[s] != map[])
    && (forall s :: s in w.slot.adapters ==> w.cache[s].meta.targets <= w.slot.wrapped)
  }

  ghost predicate Shape(w: Worker) {
    SlotShape(w) && IndexShape(w)
  }

  predicate HasOwn(wrapped: set<ParamName>, s: SessionId, mode: Mode, params: Weights, g: Grads) {
    forall n :: n in params ==> (if mode.FullParam? then BaseName(wrapped, n) else InAdapter(s, n)) in g
  }

  /**
   * Nothing is pending between cycles; within one every parameter has a gradient under its present
   * name. What a full-parameter session keeps for adapters can be anything.
   */
  ghost predicate SoundGrads(wrapped: set<ParamName>, s: SessionId, meta: Meta, params: Weights, g: Grads) {
    && (if meta.accumSteps == 0 then Nonzero(g) == map[] else HasOwn(wrapped, s, meta.mode, params, g))
    && (forall k :: k in g && k.Wrapped? ==> k.name in wrapped)
  }

  /** The parameters a session trains, as its files tell. */
  function SavedParams(saved: Saved, pristine: Weights): Weights {
    if saved.meta.mode.Lora? && saved.weights.Some? then saved.weights.value else pristine
  }

  ghost predicate SavedIsSound(saved: Saved, s: SessionId, slot: Slot) {
    && Loadable(saved)
    && SoundGrads(slot.wrapped, s, saved.meta, SavedParams(saved, slot.pristine), Pending(saved))
    && (saved.meta.mode.Lora? ==> saved.weights.value != map[] && saved.meta.targets <= slot.wrapped)
    && (saved.meta.mode.FullParam? && saved.weights.Some? ==> Covers(saved.weights.value, slot.pristine))
  }

  /** The marker left by the initialization of a full-parameter session. */
  predicate Marked(saved: Saved) {
    saved.meta.mode.FullParam? && saved.meta.pristineInit
  }

  /** The files of a resident session agree with it, weights under the marker excepted. */
  ghost predicate Synced(w: Worker, s: SessionId)
    requires s in w.cache
  {
    && s in w.store
    && SavedIsSound(w.store[s], s, w.slot)
    && SoundGrads(w.slot.wrapped, s, w.cache[s].meta, Held(w, s), w.cache[s].grads)
    && Plain(w.store[s].meta) == Plain(w.cache[s].meta)
    && (w.cache[s].meta.accumSteps > 0 ==> Pending(w.store[s]) == w.cache[s].grads)
    && (Marked(w.store[s]) || Reloaded(w.store[s], s, w.slot).weights == Held(w, s))
  }

  ghost predicate AllSynced(w: Worker) {
    && (forall s :: s in w.store ==> SavedIsSound(w.store[s], s, w.slot))
    && (forall s :: s in w.cache ==> Synced(w, s))
  }

  ghost predicate Good(w: Worker) {
    Shape(w) && AllSynced(w)
  }

  /** Nothing about `t` differs between the two states. */
  ghost predicate Same(w: Worker, v: Worker, t: SessionId) {
    && w.slot.pristine == v.slot.pristine
    && w.slot.wrapped == v.slot.wrapped
    && (t in w.cache <==> t in v.cache)
    && (t in w.cache ==> w.cache[t] == v.cache[t] && Held(w, t) == Held(v, t))
    && (t in w.store <==> t in v.store)
    && (t in w.store ==> w.store[t] == v.store[t])
  }

  lemma SameSession(w: Worker, v: Worker, t: SessionId)
    requires Same(w, v, t)
    ensures Session(v, t) == Session(w, t)
    ensures t in w.cache ==> Synced(v, t) == Synced(w, t)
  {
  }

  /** No session differs, resident or stored. */
  ghost predicate SameSessions(w: Worker, v: Worker) {
    && v.slot.pristine == w.slot.pristine
    && v.slot.wrapped == w.slot.wrapped
    && forall t :: Session(v, t) == Session(w, t)
  }

  // ---------- stash, activate ----------

  lemma LoadCovering(live: Weights, other: Weights, sd: Weights)
    requires live.Keys == other.Keys && Covers(sd, live)
    ensures Load(live, sd) == Load(other, sd)
  {
  }

  lemma LoadSelf(live: Weights, other: Weights)
    requires live.Keys == other.Keys
    ensures Load(other, live) == live
  {
  }

  lemma StashKeeps(w: Worker)
    requires Shape(w)
    ensures Shape(Stash(w))
    ensures Stash(w) == w.(fpBase := Stash(w).fpBase)
    ensures forall t :: Same(w, Stash(w), t)
    ensures forall t :: t in Stash(w).fpBase ==> Load(w.slot.pristine, Stash(w).fpBase[t]) == Held(w, t)
  {
    if ActiveIsFullParam(w) {
      LoadSelf(w.slot.live, w.slot.pristine);
    }
  }

  /** What the forward pass of `s` runs on. */
  ghost predicate RunsOnItsOwn(w: Worker, s: SessionId)
    requires s in w.cache
  {
    && w.slot.active == Some(s)
    && (w.cache[s].meta.mode.FullParam? ==> w.slot.live == Held(w, s))
    && (w.cache[s].meta.mode.Lora? ==>
          w.slot.live == w.slot.pristine && w.slot.current == Some(s) && s in w.slot.adapters
            && w.slot.flags == Flags(false, Some(s)))
  }

  /** Unless it was frozen since, the base of the active full-parameter session is trainable. */
  predicate Armed(w: Worker, s: SessionId) {
    IsFullParam(w, s) && w.slot.active == Some(s) ==> w.slot.flags.base
  }

  /** The state after a change of the active session. */
  function Switched(w: Worker, s: SessionId): Worker
    requires s in w.cache
  {
    var fp := IsFullParam(w, s);
    Stash(w).(slot := w.slot.(
      live := if fp then Held(w, s) else w.slot.pristine,
      active := Some(s),
      current := if fp then w.slot.current else Some(s),
      flags := if fp then Flags(true, None) else Flags(false, Some(s))))
  }

  lemma ActivateFullParam(w: Worker, s: SessionId)
    requires Shape(w) && IsFullParam(w, s) && w.slot.active != Some(s)
    ensures Activate(w, s, FullParam) == Switched(w, s)
  {
    StashKeeps(w);
    LoadCovering(w.slot.live, w.slot.pristine, Stash(w).fpBase[s]);
  }

  lemma ActivateLora(w: Worker, s: SessionId)
    requires Shape(w) && s in w.cache && !IsFullParam(w, s)
    ensures Activate(w, s, Lora) == Switched(w, s)
  {
    StashKeeps(w);
    LoadSelf(w.slot.pristine, w.slot.live);
  }

  lemma SwitchedSame(w: Worker, s: SessionId, t: SessionId)
    requires Shape(w) && s in w.cache
    ensures Same(w, Switched(w, s), t)
  {
    StashKeeps(w);
  }

  lemma SwitchedShape(w: Worker, s: SessionId, v: Worker)
    requires Shape(w) && s in w.cache && v == Switched(w, s)
    ensures SlotShape(v) && IndexShape(v)
  {
    StashKeeps(w);
    if IsFullParam(w, s) {
      HeldKeys(w, s);
    }
    assert v.cache == w.cache && v.fpBase == Stash(w).fpBase;
  }

  lemma HeldKeys(w: Worker, s: SessionId)
    requires SlotShape(w) && IsFullParam(w, s)
    ensures Held(w, s).Keys == w.slot.pristine.Keys
  {
  }

  /** A session runs on its own weights, or on the pristine base and its own adapter. */
  lemma ActivateKeeps(w: Worker, s: SessionId, v: Worker)
    requires Shape(w) && s in w.cache
    requires v == Activate(w, s, w.cache[s].meta.mode)
    ensures Shape(v) && RunsOnItsOwn(v, s) && Ready(v, s, w.cache[s].meta.mode)
    ensures Armed(w, s) ==> Armed(v, s)
    ensures forall t :: Same(w, v, t)
  {
    if !IsFullParam(w, s) || w.slot.active != Some(s) {
      if IsFullParam(w, s) {
        ActivateFullParam(w, s);
      } else {
        ActivateLora(w, s);
      }
      SwitchedShape(w, s, v);
      forall t
        ensures Same(w, v, t)
      {
        SwitchedSame(w, s, t);
      }
    }
  }

  /** Only the trainable flags change when the adapters are switched off and on. */
  lemma PassedKeeps(w: Worker, s: SessionId, v: Worker)
    requires Shape(w) && s in w.cache && RunsOnItsOwn(w, s) && v == Passed(w, w.cache[s].meta.mode)
    ensures Shape(v) && RunsOnItsOwn(v, s) && Ready(v, s, w.cache[s].meta.mode)
    ensures v.cache == w.cache && v.store == w.store && v.fpBase == w.fpBase && v.slot == w.slot.(flags := v.slot.flags)
    ensures v.slot.flags.base == w.slot.flags.base
    ensures forall t :: Same(w, v, t)
  {
  }

  /** A backward pass changes flags and `.grad` fields, and no session's weights. */
  lemma AfterPassKeeps(net: Network, w: Worker, s: SessionId, batch: Batch, v: Worker)
    requires Shape(w) && s in w.cache && RunsOnItsOwn(w, s) && Ready(w, s, w.cache[s].meta.mode)
    requires v == AfterPass(net, w, s, w.cache[s].meta.mode, batch)
    ensures Shape(v) && RunsOnItsOwn(v, s)
    ensures v.cache == w.cache && v.store == w.store && v.fpBase == w.fpBase
    ensures v.slot == w.slot.(flags := v.slot.flags, left := v.slot.left)
    ensures v.slot.flags.base == w.slot.flags.base
    ensures forall t :: Same(w, v, t)
  {
    AfterPassForm(net, w, s, w.cache[s].meta.mode, batch, v);
    OtherFields(w, v, s);
  }

  lemma AfterPassForm(net: Network, w: Worker, s: SessionId, mode: Mode, batch: Batch, v: Worker)
    requires Ready(w, s, mode) && v == AfterPass(net, w, s, mode, batch)
    ensures v == w.(slot := w.slot.(flags := v.slot.flags, left := v.slot.left))
    ensures v.slot.flags == Passed(w, mode).slot.flags
  {
  }

  lemma OtherFields(w: Worker, v: Worker, s: SessionId)
    requires Shape(w) && s in w.cache && RunsOnItsOwn(w, s)
    requires v == w.(slot := w.slot.(flags := v.slot.flags, left := v.slot.left))
    requires v.slot.flags == Passed(w, w.cache[s].meta.mode).slot.flags
    ensures Shape(v) && RunsOnItsOwn(v, s)
    ensures forall t :: Same(w, v, t)
  {
  }

  // ---------- eviction and insertion ----------

  /** The state after a resident session has been dropped. */
  function Dropped(w: Worker, s: SessionId): Worker {
    var was := w.slot.active == Some(s);
    var slot := if s in w.slot.adapters then Deleted(w, s).slot else w.slot;
    Worker(
      slot.(live := if was then w.slot.pristine else w.slot.live, active := if was then None else w.slot.active),
      Without(w.fpBase, s),
      Without(w.cache, s),
      w.store)
  }

  lemma EvictForm(w: Worker, s: SessionId)
    requires Shape(w) && s in w.cache
    ensures Evict(w, s) == Dropped(w, s)
  {
    if IsFullParam(w, s) {
      FullParamEvicted(w, s);
    } else {
      LoraEvicted(w, s);
    }
  }

  lemma FullParamEvicted(w: Worker, s: SessionId)
    requires Shape(w) && IsFullParam(w, s)
    ensures Evict(w, s) == Dropped(w, s)
  {
    assert s !in w.slot.adapters;
    LoadSelf(w.slot.pristine, w.slot.live);
  }

  lemma LoraEvicted(w: Worker, s: SessionId)
    requires Shape(w) && s in w.cache && !IsFullParam(w, s)
    ensures Evict(w, s) == Dropped(w, s)
  {
    assert s !in w.fpBase && Without(w.fpBase, s) == w.fpBase;
    assert w.slot.active == Some(s) ==> !ActiveIsFullParam(w) && w.slot.live == w.slot.pristine;
    LoraDropped(w, s);
  }

  lemma LoraDropped(w: Worker, s: SessionId)
    requires s in w.cache && !IsFullParam(w, s) && s in w.slot.adapters && Without(w.fpBase, s) == w.fpBase
    requires w.slot.active == Some(s) ==> w.slot.live == w.slot.pristine
    ensures Evict(w, s) == Dropped(w, s)
  {
    DeletedForm(w, s, Deleted(w, s));
  }

  lemma DeletedForm(w: Worker, s: SessionId, v: Worker)
    requires v == Deleted(w, s)
    ensures v == w.(slot := w.slot.(adapters := Without(w.slot.adapters, s), current := v.slot.current,
      flags := w.slot.flags.(adapter := v.slot.flags.adapter), left := v.slot.left))
  {
  }

  /** What a drop leaves of the slot, the choice of another adapter aside. */
  lemma DroppedForm(w: Worker, s: SessionId, v: Worker)
    requires v == Dropped(w, s)
    ensures v.slot.adapters == Without(w.slot.adapters, s) && v.slot.flags.base == w.slot.flags.base
    ensures v.slot.pristine == w.slot.pristine && v.slot.wrapped == w.slot.wrapped
    ensures v.slot.live == if w.slot.active == Some(s) then w.slot.pristine else w.slot.live
    ensures v.slot.active == if w.slot.active == Some(s) then None else w.slot.active
    ensures v.fpBase == Without(w.fpBase, s) && v.cache == Without(w.cache, s) && v.store == w.store
  {
    DeletedForm(w, s, Deleted(w, s));
    if s !in w.slot.adapters {
      assert Without(w.slot.adapters, s) == w.slot.adapters;
    }
  }

  lemma DroppedSame(w: Worker, s: SessionId, t: SessionId)
    requires t != s
    ensures Same(w, Dropped(w, s), t)
  {
    var v := Dropped(w, s);
    DroppedForm(w, s, v);
    SameParts(w, s, v, t);
  }

  lemma SameParts(w: Worker, s: SessionId, v: Worker, t: SessionId)
    requires t != s && v.slot.pristine == w.slot.pristine && v.slot.wrapped == w.slot.wrapped
    requires v.slot.adapters == Without(w.slot.adapters, s) && v.fpBase == Without(w.fpBase, s)
    requires v.cache == Without(w.cache, s) && v.store == w.store
    requires v.slot.active == if w.slot.active == Some(s) then None else w.slot.active
    requires v.slot.active.Some? ==> v.slot.live == w.slot.live
    ensures Same(w, v, t)
  {
  }

  lemma DroppedShape(w: Worker, s: SessionId, v: Worker)
    requires Shape(w) && s in w.cache && v == Dropped(w, s)
    ensures SlotShape(v) && IndexShape(v)
  {
    DroppedForm(w, s, v);
    DroppedSlot(w, s, v);
    DroppedIndex(w, s, v);
  }

  lemma DroppedSlot(w: Worker, s: SessionId, v: Worker)
    requires SlotShape(w) && v.slot.pristine == w.slot.pristine && v.slot.flags.base == w.slot.flags.base
    requires v.cache == Without(w.cache, s)
    requires v.slot.active == if w.slot.active == Some(s) then None else w.slot.active
    requires v.slot.live == if w.slot.active == Some(s) then w.slot.pristine else w.slot.live
    ensures SlotShape(v)
  {
    if w.slot.active.Some? && w.slot.active != Some(s) {
      assert ActiveIsFullParam(v) == ActiveIsFullParam(w);
    }
  }

  lemma DroppedIndex(w: Worker, s: SessionId, v: Worker)
    requires IndexShape(w) && v.slot.pristine == w.slot.pristine && v.slot.wrapped == w.slot.wrapped
    requires v.slot.adapters == Without(w.slot.adapters, s) && v.fpBase == Without(w.fpBase, s)
    requires v.cache == Without(w.cache, s)
    ensures IndexShape(v)
  {
  }

  lemma EvictKeeps(w: Worker, s: SessionId, v: Worker)
    requires Shape(w) && v == Evict(w, s)
    ensures Shape(v) && v.store == w.store
    ensures v.cache == Without(w.cache, s) && v.slot.pristine == w.slot.pristine && v.slot.wrapped == w.slot.wrapped
    ensures forall t :: t != s ==> Same(w, v, t)
  {
    if s in w.cache {
      EvictForm(w, s);
      DroppedKeeps(w, s, v);
    }
  }

  lemma DroppedKeeps(w: Worker, s: SessionId, v: Worker)
    requires Shape(w) && s in w.cache && v == Dropped(w, s)
    ensures SlotShape(v) && IndexShape(v) && v.store == w.store
    ensures v.cache == Without(w.cache, s) && v.slot.pristine == w.slot.pristine && v.slot.wrapped == w.slot.wrapped
    ensures forall t :: t != s ==> Same(w, v, t)
  {
    DroppedShape(w, s, v);
    DroppedForm(w, s, v);
    forall t | t != s
      ensures Same(w, v, t)
    {
      DroppedSame(w, s, t);
    }
  }

  /** The state after a session has been attached and cached. */
  function Inserted(w: Worker, s: SessionId, rt: Runtime, weights: Weights): Worker {
    var attached := Attach(w, s, rt.meta, weights);
    attached.(cache := w.cache[s := rt])
  }

  predicate Insertable(w: Worker, s: SessionId, rt: Runtime, weights: Weights) {
    && s !in w.cache
    && (rt.meta.mode.Lora? ==> weights != map[] && rt.meta.targets <= w.slot.wrapped)
    && (rt.meta.mode.FullParam? && weights != map[] ==> Covers(weights, w.slot.pristine))
  }

  lemma InsertedSame(w: Worker, s: SessionId, rt: Runtime, weights: Weights, t: SessionId)
    requires Shape(w) && Insertable(w, s, rt, weights) && t != s
    ensures Same(w, Inserted(w, s, rt, weights), t)
  {
    if rt.meta.mode.FullParam? {
      var v := Inserted(w, s, rt, weights);
      StashedSame(w, t);
      StagedForm(w, s, rt, weights, v);
      StagedSame(Stash(w), s, rt, weights, v, t);
    } else {
      AdapterSame(w, s, rt, weights, t);
    }
  }

  lemma StashedSame(w: Worker, t: SessionId)
    requires Shape(w)
    ensures Same(w, Stash(w), t) && Stash(w).cache == w.cache
  {
    StashKeeps(w);
  }

  lemma StagedForm(w: Worker, s: SessionId, rt: Runtime, weights: Weights, v: Worker)
    requires rt.meta.mode.FullParam? && v == Inserted(w, s, rt, weights)
    ensures v == Stash(w).(fpBase := v.fpBase, cache := w.cache[s := rt])
      && Without(v.fpBase, s) == Without(Stash(w).fpBase, s)
  {
  }

  lemma StagedSame(w: Worker, s: SessionId, rt: Runtime, weights: Weights, v: Worker, t: SessionId)
    requires t != s && s !in w.cache
    requires v == w.(fpBase := v.fpBase, cache := w.cache[s := rt]) && Without(v.fpBase, s) == Without(w.fpBase, s)
    ensures Same(w, v, t)
  {
    assert t in Without(v.fpBase, s) <==> t in v.fpBase;
    assert t in Without(w.fpBase, s) <==> t in w.fpBase;
  }

  lemma AdapterSame(w: Worker, s: SessionId, rt: Runtime, weights: Weights, t: SessionId)
    requires t != s && s !in w.cache && rt.meta.targets <= w.slot.wrapped
    ensures Same(w, AttachAdapter(w, s, rt.meta.targets, weights).(cache := w.cache[s := rt]), t)
  {
    assert w.slot.wrapped + rt.meta.targets == w.slot.wrapped;
  }

  lemma InsertedSlotShape(w: Worker, s: SessionId, rt: Runtime, weights: Weights, v: Worker)
    requires Shape(w) && Insertable(w, s, rt, weights) && v == Inserted(w, s, rt, weights)
    ensures SlotShape(v)
  {
    assert w.slot.active != Some(s) && ActiveIsFullParam(v) == ActiveIsFullParam(w);
    assert v.slot.live == w.slot.live && v.slot.active == w.slot.active && v.slot.pristine == w.slot.pristine;
  }

  lemma InsertedFullParamIndex(w: Worker, s: SessionId, rt: Runtime, weights: Weights, v: Worker)
    requires Shape(w) && Insertable(w, s, rt, weights) && rt.meta.mode.FullParam? && v == Inserted(w, s, rt, weights)
    ensures IndexShape(v)
  {
    StashKeeps(w);
    FullParamInserted(Stash(w), s, rt, if weights == map[] then w.slot.pristine else weights, v);
  }

  lemma FullParamInserted(w: Worker, s: SessionId, rt: Runtime, base: Weights, v: Worker)
    requires IndexShape(w) && s !in w.cache && rt.meta.mode.FullParam? && Covers(base, w.slot.pristine)
    requires v == w.(fpBase := w.fpBase[s := base], cache := w.cache[s := rt])
    ensures IndexShape(v)
  {
  }

  lemma InsertedLoraIndex(w: Worker, s: SessionId, rt: Runtime, weights: Weights, v: Worker)
    requires Shape(w) && Insertable(w, s, rt, weights) && rt.meta.mode.Lora? && v == Inserted(w, s, rt, weights)
    ensures IndexShape(v)
  {
  }

  lemma InsertedShape(w: Worker, s: SessionId, rt: Runtime, weights: Weights, v: Worker)
    requires Shape(w) && Insertable(w, s, rt, weights) && v == Inserted(w, s, rt, weights)
    ensures SlotShape(v) && IndexShape(v)
  {
    InsertedSlotShape(w, s, rt, weights, v);
    if rt.meta.mode.FullParam? {
      InsertedFullParamIndex(w, s, rt, weights, v);
    } else {
      InsertedLoraIndex(w, s, rt, weights, v);
    }
  }

  lemma InsertedHeld(w: Worker, s: SessionId, rt: Runtime, weights: Weights, v: Worker)
    requires Shape(w) && Insertable(w, s, rt, weights) && v == Inserted(w, s, rt, weights)
    ensures Held(v, s) == Canonical(rt.meta.mode, w.slot.pristine, weights)
  {
    StashKeeps(w);
    assert s !in Stash(w).fpBase;
    LoadSelf(w.slot.pristine, w.slot.pristine);
    assert Load(w.slot.pristine, map[]) == w.slot.pristine;
  }
}
