/** The standalone trainer's copy of the swapping logic; its session table plays the cache's part. */
module TrainerSwap {
  import opened Basics
  import opened JobTypes
  import opened WorkerState
  import opened WorkerInvariants

  /** Unlike the worker's, it restores the pristine base for every incoming adapter session. */
  function TrainerActivate(w: Worker, s: SessionId, mode: Mode): Worker {
    if w.slot.active != Some(s) then
      var stashed := Stash(w);
      Facing(if mode.FullParam? then RestoreFullParam(stashed, s) else RestorePristine(stashed), s, mode)
    else if mode.Lora? then Selected(w, s)
    else w
  }

  /** Stash, restore the pristine base, attach; the active session stays what it was. */
  function TrainerAttach(w: Worker, t: SessionId, targets: set<ParamName>, adapter: Weights): Worker {
    var clean := RestorePristine(Stash(w));
    AttachAdapter(clean, t, targets, adapter).(cache := w.cache[t := Runtime(NewMeta(Lora, targets), map[])])
  }

  /** The extra restores change nothing: activation is the worker's, and as good. */
  lemma TrainerActivateKeeps(w: Worker, s: SessionId, v: Worker)
    requires Shape(w) && s in w.cache && v == TrainerActivate(w, s, w.cache[s].meta.mode)
    ensures v == Activate(w, s, w.cache[s].meta.mode)
    ensures Shape(v) && RunsOnItsOwn(v, s)
    ensures forall t :: Same(w, v, t)
  {
    LoadSelf(w.slot.pristine, w.slot.live);
    assert v == Activate(w, s, w.cache[s].meta.mode);
    ActivateKeeps(w, s, v);
  }

  lemma AttachForm(w: Worker, t: SessionId, targets: set<ParamName>, adapter: Weights)
    requires Shape(w)
    ensures TrainerAttach(w, t, targets, adapter) == Worker(
      w.slot.(live := w.slot.pristine, adapters := w.slot.adapters[t := adapter], current := Some(t),
        wrapped := w.slot.wrapped + targets, flags := Flags(false, Some(t))),
      Stash(w).fpBase, w.cache[t := Runtime(NewMeta(Lora, targets), map[])], w.store)
  {
    StashKeeps(w);
    LoadSelf(w.slot.pristine, w.slot.live);
  }

  lemma AttachedHeld(w: Worker, t: SessionId, targets: set<ParamName>, adapter: Weights, s: SessionId, v: Worker)
    requires Shape(w) && t !in w.cache && v == TrainerAttach(w, t, targets, adapter) && s in w.cache
    ensures s in v.cache && Held(v, s) == if IsFullParam(w, s)
      && w.slot.active == Some(s) then w.slot.pristine else Held(w, s)
  {
    AttachForm(w, t, targets, adapter);
    StashKeeps(w);
  }

  /** Attaching an adapter leaves all sessions alone exactly when no trained full-parameter session is active. */
  lemma AttachKeepsIff(w: Worker, t: SessionId, targets: set<ParamName>, adapter: Weights, v: Worker)
    requires Shape(w) && t !in w.cache && v == TrainerAttach(w, t, targets, adapter)
    ensures (forall s :: s in w.cache ==> s in v.cache && Held(v, s) == Held(w, s))
      <==> !ActiveIsFullParam(w) || w.slot.live == w.slot.pristine
  {
    forall s | s in w.cache
      ensures s in v.cache && Held(v, s) == if IsFullParam(w, s)
        && w.slot.active == Some(s) then w.slot.pristine else Held(w, s)
    {
      AttachedHeld(w, t, targets, adapter, s, v);
    }
    ResetMatters(w, v);
  }

  lemma ResetMatters(w: Worker, v: Worker)
    requires forall s :: s in w.cache ==> s in v.cache && Held(v, s) == if IsFullParam(w, s)
      && w.slot.active == Some(s) then w.slot.pristine else Held(w, s)
    ensures (forall s :: s in w.cache ==> s in v.cache && Held(v, s) == Held(w, s))
      <==> !ActiveIsFullParam(w) || w.slot.live == w.slot.pristine
  {
    if ActiveIsFullParam(w) {
      var s := w.slot.active.value;
      assert Held(w, s) == w.slot.live;
    }
  }

  /** The stash taken by the attach is overwritten by the next switch, and the training is lost. */
  lemma AttachLosesTraining(w: Worker, s: SessionId, t: SessionId, targets: set<ParamName>, adapter: Weights, v: Worker)
    requires Shape(w) && IsFullParam(w, s) && w.slot.active == Some(s) && t !in w.cache
    requires v == TrainerActivate(TrainerAttach(w, t, targets, adapter), t, Lora)
    ensures TrainerAttach(w, t, targets, adapter).fpBase[s] == w.slot.live
    ensures s in v.fpBase && v.fpBase[s] == w.slot.pristine
  {
    AttachForm(w, t, targets, adapter);
  }
}
