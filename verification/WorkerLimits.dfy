/** Where sharing one worker is observable, and exactly when it is not. */
module WorkerLimits {
  import opened Basics
  import opened JobTypes
  import opened WorkerState
  import opened WorkerInvariants
  import opened WorkerHandlers
  import opened PrivateSessions
  import opened NewSessions
  import opened WorkerRuns
  import opened AdapterAttach

  // ---------- the cache drops the session it is loading ----------

  lemma SelfEvicted(w: Worker, s: SessionId)
    requires Good(w) && s in w.store && s !in w.cache && w.store[s].meta.mode.FullParam?
    ensures Ensure(w, s, Some(s)) == Opened(Stash(w), Revived(w.store[s]))
  {
    assert SavedIsSound(w.store[s], s, w.slot);
    var saved := w.store[s];
    SelfPut(w, s, Revived(saved), StoredWeights(saved, w.slot.pristine));
  }

  lemma SelfPut(w: Worker, s: SessionId, rt: Runtime, weights: Weights)
    requires Shape(w) && s !in w.cache && rt.meta.mode.FullParam?
    ensures Put(AttachFullParam(w, s, weights), s, rt, Some(s)) == Stash(w)
  {
    StashKeeps(w);
    PutAndDropped(Stash(w), s, rt, AttachFullParam(w, s, weights));
  }

  lemma PutAndDropped(w: Worker, s: SessionId, rt: Runtime, attached: Worker)
    requires s !in w.cache && s !in w.fpBase && rt.meta.mode.FullParam? && w.slot.active != Some(s)
    requires attached == w.(fpBase := attached.fpBase) && Without(attached.fpBase, s) == w.fpBase
    ensures Put(attached, s, rt, Some(s)) == w
  {
    var mid := attached.(cache := attached.cache[s := rt]);
    assert Without(mid.cache, s) == w.cache;
    DropInactive(mid, s);
  }

  lemma DropInactive(w: Worker, s: SessionId)
    requires IsFullParam(w, s) && w.slot.active != Some(s)
    ensures Evict(w, s) == w.(cache := Without(w.cache, s), fpBase := Without(w.fpBase, s))
  {
  }

  lemma SelfActivated(w: Worker, s: SessionId, v: Worker)
    requires Shape(w) && s !in w.cache && v == Activate(Stash(w), s, FullParam)
    ensures v.slot.live == v.slot.pristine == w.slot.pristine && v.slot.active == Some(s)
    ensures v.slot.wrapped == w.slot.wrapped && v.slot.flags == Flags(true, None)
    ensures v.slot.adapters == w.slot.adapters && v.slot.current == w.slot.current && v.slot.left == w.slot.left
    ensures v.cache == w.cache && v.store == w.store
  {
    StashKeeps(w);
    StashKeeps(Stash(w));
    LoadSelf(w.slot.pristine, w.slot.live);
    assert s !in Stash(Stash(w)).fpBase;
  }

  /**
   * When the full cache drops the full-parameter session being loaded, the session's gradient
   * is taken at the pristine base and its saved weights are overwritten with it. So its
   * weights survive exactly when they were pristine.
   */
  lemma SelfEvictionResets(net: Network, w: Worker, s: SessionId, batch: Batch, tokens: nat, v: Worker)
    requires Trains(net) && batch != []
    requires Good(w) && s in w.store && s !in w.cache && w.store[s].meta.mode.FullParam?
    requires v == WorkerState.ForwardBackward(net, w, s, batch, tokens, Some(s))
    ensures v.slot.active == Some(s) && s !in v.cache
    ensures s in v.store && v.store[s].weights == Some(w.slot.pristine) && Loadable(v.store[s])
    ensures Pending(v.store[s]) ==
      Sum(Pending(w.store[s]),
          BaseNamed(w.slot.wrapped, w.slot.pristine, net.fpGrad(w.slot.pristine, batch)) + Leftover(w))
    ensures Session(w, s).Some? && Session(v, s).Some?
    ensures Session(v, s).value.weights == Session(w, s).value.weights <==>
      Session(w, s).value.weights == w.slot.pristine
  {
    SelfEvictionWrites(net, w, s, batch, tokens, v);
    StoredSession(w, s);
    PristineInStore(v, s);
  }

  lemma StoredSession(w: Worker, s: SessionId)
    requires Good(w) && s in w.store && s !in w.cache
    ensures Session(w, s).Some?
  {
    assert SavedIsSound(w.store[s], s, w.slot);
  }

  lemma PristineInStore(v: Worker, s: SessionId)
    requires s !in v.cache && s in v.store && v.store[s].weights == Some(v.slot.pristine)
      && v.store[s].meta.mode.FullParam?
    ensures Loadable(v.store[s]) && Session(v, s).Some? && Session(v, s).value.weights == v.slot.pristine
  {
    LoadSelf(v.slot.pristine, v.slot.pristine);
  }

  lemma SelfEvictionWrites(net: Network, w: Worker, s: SessionId, batch: Batch, tokens: nat, v: Worker)
    requires Trains(net) && batch != []
    requires Good(w) && s in w.store && s !in w.cache && w.store[s].meta.mode.FullParam?
    requires v == WorkerState.ForwardBackward(net, w, s, batch, tokens, Some(s))
    ensures v.slot.active == Some(s) && v.slot.pristine == w.slot.pristine && s !in v.cache
    ensures s in v.store && v.store[s].weights == Some(w.slot.pristine) && v.store[s].meta.mode.FullParam?
    ensures Pending(v.store[s]) ==
      Sum(Pending(w.store[s]),
          BaseNamed(w.slot.wrapped, w.slot.pristine, net.fpGrad(w.slot.pristine, batch)) + Leftover(w))
  {
    SelfOpens(net, w, s, batch, tokens);
    var w2 := Activate(Stash(w), s, FullParam);
    SelfActivated(w, s, w2);
    SameLeftover(w, w2);
    SelfPass(net, w2, s, Revived(w.store[s]), batch, tokens, v);
  }

  lemma SelfOpens(net: Network, w: Worker, s: SessionId, batch: Batch, tokens: nat)
    requires Good(w) && s in w.store && s !in w.cache && w.store[s].meta.mode.FullParam?
    ensures WorkerState.ForwardBackward(net, w, s, batch, tokens, Some(s))
      == BackwardAndSave(net, Activate(Stash(w), s, FullParam), s, Revived(w.store[s]), batch, tokens)
  {
    SelfEvicted(w, s);
    assert SavedIsSound(w.store[s], s, w.slot);
  }

  lemma SameLeftover(w: Worker, v: Worker)
    requires v.slot.adapters == w.slot.adapters && v.slot.current == w.slot.current && v.slot.left == w.slot.left
    requires v.slot.flags == Flags(true, None)
    ensures Strays(v, FullParam) == Leftover(w)
  {
  }

  lemma SelfPass(net: Network, w: Worker, s: SessionId, rt: Runtime, batch: Batch, tokens: nat, v: Worker)
    requires Trains(net) && batch != [] && w.slot.live != map[] && w.slot.flags == Flags(true, None)
    requires s !in w.cache && w.slot.active == Some(s) && rt.meta.mode.FullParam?
    requires v == BackwardAndSave(net, w, s, rt, batch, tokens)
    ensures v.cache == w.cache && v.slot.active == w.slot.active && v.slot.pristine == w.slot.pristine
    ensures v.store == w.store[s := v.store[s]] && v.store[s].weights == Some(w.slot.live)
      && v.store[s].meta.mode.FullParam?
    ensures Pending(v.store[s]) ==
      Sum(rt.grads, BaseNamed(w.slot.wrapped, w.slot.live, net.fpGrad(w.slot.live, batch)) + Strays(w, FullParam))
  {
    var g := BaseNamed(w.slot.wrapped, w.slot.live, net.fpGrad(w.slot.live, batch)) + Strays(w, FullParam);
    var after := AfterPass(net, w, s, FullParam, batch);
    CollectedFullParam(net, w, s, batch, after);
    AfterPassForm(net, w, s, FullParam, batch, after);
    FirstGradient(net, w, batch, g);
    SelfSaved(after, s, Accumulated(rt, g, tokens), v);
  }

  lemma FirstGradient(net: Network, w: Worker, batch: Batch, g: Grads)
    requires Trains(net) && w.slot.live != map[]
    requires g == BaseNamed(w.slot.wrapped, w.slot.live, net.fpGrad(w.slot.live, batch)) + Strays(w, FullParam)
    ensures forall a: Grads :: Sum(a, g) != map[]
  {
    var n :| n in w.slot.live;
    assert n in net.fpGrad(w.slot.live, batch);
    assert BaseName(w.slot.wrapped, n) in g;
    forall a: Grads
      ensures Sum(a, g) != map[]
    {
      assert BaseName(w.slot.wrapped, n) in Sum(a, g);
    }
  }

  lemma SelfSaved(w: Worker, s: SessionId, rt: Runtime, v: Worker)
    requires s !in w.cache && w.slot.active == Some(s) && rt.meta.mode.FullParam? && rt.grads != map[]
      && rt.meta.accumSteps > 0
    requires v == Save(Keep(w, s, rt), s, rt)
    ensures v.cache == w.cache && v.slot == w.slot
    ensures v.store == w.store[s := Saved(rt.meta, Some(w.slot.live), Some(rt.grads))]
  {
  }

  // ---------- incomplete checkpoints ----------

  /** A base restored from a checkpoint is the same whoever ran before exactly when it is complete. */
  lemma CompleteIff(pristine: Weights, ckpt: Weights)
    ensures (forall live: Weights :: live.Keys == pristine.Keys ==> Load(live, ckpt) == Load(pristine, ckpt)) <==>
      Covers(ckpt, pristine)
  {
    if Covers(ckpt, pristine) {
      forall live: Weights | live.Keys == pristine.Keys
        ensures Load(live, ckpt) == Load(pristine, ckpt)
      {
        LoadCovering(live, pristine, ckpt);
      }
    } else {
      var n :| n in pristine && n !in ckpt;
      var live := pristine[n := pristine[n] + 1.0];
      assert live.Keys == pristine.Keys;
      assert Load(live, ckpt)[n] != Load(pristine, ckpt)[n];
    }
  }

  /** What an incomplete checkpoint leaves out, the next session takes over from the last one. */
  lemma IncompleteCheckpointLeaks(w: Worker, r: SessionId, s: SessionId, ckpt: Weights, n: ParamName)
    requires Shape(w) && IsFullParam(w, r) && IsFullParam(w, s) && r != s && w.slot.active == Some(r)
    requires n in w.slot.pristine && n !in ckpt
    ensures Activate(Replaced(w, s, FullParam, ckpt), s, FullParam).slot.live[n] == Held(w, r)[n]
  {
  }

  // ---------- the initialization marker ----------

  /** The session's weights file is authoritative now and will be after a reload. */
  predicate Clean(w: Worker, s: SessionId) {
    && s in w.store && !w.store[s].meta.pristineInit
    && (s in w.cache ==> !w.cache[s].meta.pristineInit)
  }

  lemma CleanAfterEvict(w: Worker, v: SessionId, s: SessionId)
    requires Clean(w, s)
    ensures Clean(Evict(w, v), s)
  {
  }

  lemma CleanAfterActivate(w: Worker, a: SessionId, mode: Mode, s: SessionId)
    requires Clean(w, s)
    ensures Clean(Activate(w, a, mode), s)
  {
  }

  lemma CleanAfterPut(w: Worker, a: SessionId, rt: Runtime, weights: Weights, victim: Option<SessionId>, s: SessionId)
    requires Clean(w, s) && (a == s ==> !rt.meta.pristineInit)
    ensures Clean(Put(Attach(w, a, rt.meta, weights), a, rt, victim), s)
  {
    var attached := Attach(w, a, rt.meta, weights);
    assert attached.cache == w.cache && attached.store == w.store;
    var inserted := attached.(cache := attached.cache[a := rt]);
    if victim.Some? {
      CleanAfterEvict(inserted, victim.value, s);
    }
  }

  lemma CleanAfterEnsure(w: Worker, a: SessionId, victim: Option<SessionId>, s: SessionId)
    requires Clean(w, s)
    ensures Clean(Ensure(w, a, victim).worker, s)
    ensures a == s && Ensure(w, a, victim).Opened? ==> !Ensure(w, a, victim).runtime.meta.pristineInit
  {
    CleanAfterEvict(w, a, s);
    var out := Evict(w, a);
    if a in out.store && Loadable(out.store[a]) {
      CleanAfterPut(out, a, Revived(out.store[a]), StoredWeights(out.store[a], out.slot.pristine), victim, s);
    }
  }

  lemma CleanAfterSave(w: Worker, a: SessionId, rt: Runtime, s: SessionId)
    requires Clean(w, s) && (a == s ==> !rt.meta.pristineInit)
    ensures Clean(Save(Keep(w, a, rt), a, rt), s)
  {
  }

  lemma CleanAfterForwardBackward(net: Network, w: Worker, a: SessionId, victim: Option<SessionId>, s: SessionId,
      batch: Batch, tokens: nat)
    requires Clean(w, s)
    ensures Clean(WorkerState.Forward(w, a, victim), s)
    ensures Clean(WorkerState.ForwardBackward(net, w, a, batch, tokens, victim), s)
  {
    CleanAfterEnsure(w, a, victim, s);
    var o := Ensure(w, a, victim);
    if o.Opened? {
      var mode := o.runtime.meta.mode;
      CleanAfterActivate(o.worker, a, mode, s);
      var w2 := Activate(o.worker, a, mode);
      if Ready(w2, a, mode) {
        var after := AfterPass(net, w2, a, mode, batch);
        AfterPassForm(net, w2, a, mode, batch, after);
        CleanAfterSave(after, a, Accumulated(o.runtime, Collected(after), tokens), s);
      }
    }
  }

  lemma CleanAfterOptimStep(net: Network, w: Worker, a: SessionId, victim: Option<SessionId>, s: SessionId,
      byTokens: bool)
    requires Clean(w, s)
    ensures Clean(WorkerState.OptimStep(net, w, a, byTokens, victim), s)
  {
    CleanAfterEnsure(w, a, victim, s);
    var o := Ensure(w, a, victim);
    if o.Opened? {
      var rt, mode := o.runtime, o.runtime.meta.mode;
      CleanAfterActivate(o.worker, a, mode, s);
      var w2 := Activate(o.worker, a, mode);
      CleanAfterSave(Trained(net, w2, Normalized(rt.grads, rt.meta.lossTokens, byTokens)), a,
        Stepped(rt, Trainable(w2)), s);
    }
  }

  lemma CleanAfterLoadWeights(w: Worker, a: SessionId, victim: Option<SessionId>, s: SessionId, ckpt: Weights,
      restored: Option<Grads>)
    requires Clean(w, s)
    ensures Clean(WorkerState.LoadWeights(w, a, ckpt, restored, victim), s)
  {
    CleanAfterEnsure(w, a, victim, s);
    var o := Ensure(w, a, victim);
    if o.Opened? {
      CleanAfterSave(Replaced(o.worker, a, o.runtime.meta.mode, ckpt), a,
        o.runtime.(grads := if restored.Some? then restored.value else map[]), s);
    }
  }

  lemma CleanIsDurable(w: Worker, s: SessionId)
    requires Clean(w, s)
    ensures Durable(w, s)
  {
  }

  /** No job, of this session or another, brings the marker back, so the session may be evicted behind any. */
  lemma CleanAfterJob(net: Network, w: Worker, e: Event, s: SessionId)
    requires Clean(w, s) && !e.InitFullParam? && !e.InitLora?
    ensures Clean(Step(net, w, e), s) && Durable(Step(net, w, e), s)
  {
    CleanStays(net, w, e, s);
    CleanIsDurable(Step(net, w, e), s);
  }

  lemma CleanStays(net: Network, w: Worker, e: Event, s: SessionId)
    requires Clean(w, s) && !e.InitFullParam? && !e.InitLora?
    ensures Clean(Step(net, w, e), s)
  {
    match e
    case Forward(a, victim) => CleanAfterForwardBackward(net, w, a, victim, s, [], 0);
    case ForwardBackward(a, batch, tokens, victim) => CleanAfterForwardBackward(net, w, a, victim, s, batch, tokens);
    case OptimStep(a, byTokens, victim) => CleanAfterOptimStep(net, w, a, victim, s, byTokens);
    case LoadWeights(a, ckpt, victim) => CleanAfterLoadWeights(w, a, victim, s, ckpt, None);
    case SaveWeights(a) =>
      if a in w.cache {
        assert Keep(w, a, w.cache[a]) == w;
        CleanAfterSave(w, a, w.cache[a], s);
      }
  }

  /** The first save of a session that was never reloaded settles it: from then on it is durable. */
  lemma FirstSaveSettles(w: Worker, s: SessionId)
    requires Good(w) && s in w.cache && !w.cache[s].meta.pristineInit
    ensures Clean(WorkerState.SaveWeights(w, s), s)
  {
    SaveForm(w, s, w.cache[s], WorkerState.SaveWeights(w, s));
  }

  /**
   * A session reloaded while it carries the marker keeps it: whatever an optimizer step
   * makes of its weights, the next reload starts from the pristine base again.
   */
  lemma MarkerOutlivesTraining(net: Network, w: Worker, s: SessionId, byTokens: bool, v: Worker)
    requires Good(w) && s in w.store && s !in w.cache && Marked(w.store[s]) && w.store[s].meta.accumSteps > 0
    requires v == WorkerState.OptimStep(net, w, s, byTokens, None)
    ensures Session(w, s).Some? && s in v.cache && v.cache[s].meta.totalSteps == w.store[s].meta.totalSteps + 1
    ensures Held(v, s) == OwnStep(net, w.slot.pristine, FullParam, w.slot.pristine,
      Normalized(Session(w, s).value.grads, w.store[s].meta.lossTokens, byTokens))
    ensures Session(Evict(v, s), s).Some? && Session(Evict(v, s), s).value.weights == w.slot.pristine
  {
    assert SavedIsSound(w.store[s], s, w.slot);
    LoadSelf(w.slot.pristine, w.slot.pristine);
    var o := Ensure(w, s, None);
    var w2 := Activate(o.worker, s, if o.Opened? then o.runtime.meta.mode else Lora);
    OpenIsGood(w, s, None, o, w2);
    assert Session(w2, s) == Some(Resident(w2, s));
    MarkedStep(net, w2, s, o.runtime, byTokens, v);
  }

  lemma MarkedStep(net: Network, w: Worker, s: SessionId, rt: Runtime, byTokens: bool, v: Worker)
    requires Good(w) && s in w.cache && w.cache[s] == rt && RunsOnItsOwn(w, s) && Armed(w, s)
      && Ready(w, s, rt.meta.mode)
    requires rt.meta.mode.FullParam? && rt.meta.pristineInit && rt.meta.accumSteps > 0
      && v == StepAndSave(net, w, s, rt, byTokens)
    ensures s in v.cache && v.cache[s].meta
      == rt.meta.(totalSteps := rt.meta.totalSteps + 1, accumSteps := 0, lossTokens := 0)
    ensures Held(v, s) == OwnStep(net, w.slot.pristine, FullParam, Held(w, s),
      Normalized(Resident(w, s).grads, rt.meta.lossTokens, byTokens))
    ensures Session(Evict(v, s), s).Some?
      && Session(Evict(v, s), s).value.weights == Load(w.slot.pristine, w.slot.pristine)
  {
    ResidentIsSound(w, s);
    NotEmpty(w, s, rt);
    SomethingTrains(w, s);
    var w3 := Trained(net, w, Normalized(rt.grads, rt.meta.lossTokens, byTokens));
    TrainedHeld(net, w, s, rt, byTokens, w3);
    SavedFullParam(w3, s, Stepped(rt, Trainable(w)), v);
  }

  lemma SavedFullParam(w: Worker, s: SessionId, next: Runtime, v: Worker)
    requires IsFullParam(w, s) && w.slot.active == Some(s) && next.meta.mode.FullParam?
      && v == Save(Keep(w, s, next), s, next)
    ensures s in v.cache && v.cache[s] == next && Held(v, s) == Held(w, s)
    ensures s in v.store && v.store[s].meta == next.meta && v.slot.pristine == w.slot.pristine
    ensures s !in Evict(v, s).cache && Evict(v, s).store == v.store && Evict(v, s).slot.pristine == w.slot.pristine
    ensures next.meta.pristineInit ==>
      Session(Evict(v, s), s).Some? && Session(Evict(v, s), s).value.weights == Load(w.slot.pristine, w.slot.pristine)
  {
  }

  // ---------- gradients across reloads ----------

  /**
   * After `load_weights` the gradient file reads like the accumulator exactly when nothing was
   * pending and nothing nonzero is restored outside a cycle.
   */
  lemma LoadKeepsGradientsIff(w: Worker, s: SessionId, ckpt: Weights, restored: Option<Grads>, v: Worker)
    requires Good(w) && s in w.cache && v == WorkerState.LoadWeights(w, s, ckpt, restored, None)
    ensures s in v.cache && s in v.store
    ensures v.cache[s].grads == if restored.Some? then restored.value else map[]
    ensures Nonzero(Pending(v.store[s])) == Nonzero(v.cache[s].grads) <==>
      if restored.None? || restored.value == map[] then Nonzero(w.cache[s].grads) == map[]
      else w.cache[s].meta.accumSteps > 0 || Nonzero(restored.value) == map[]
  {
    AccumulatorAndFile(w, s);
    LoadForm(w, s, ckpt, restored, v);
    FileReadsIff(w.cache[s], OldGrads(w, s), v.cache[s]);
  }

  lemma AccumulatorAndFile(w: Worker, s: SessionId)
    requires Good(w) && s in w.cache
    ensures !Stale(w, s) && s in w.store && (w.cache[s].meta.mode.Lora? ==> s in w.slot.adapters)
    ensures w.cache[s].meta.accumSteps > 0 ==> Pending(w.store[s]) == w.cache[s].grads
    ensures w.cache[s].meta.accumSteps == 0 ==>
      Nonzero(Pending(w.store[s])) == map[] && Nonzero(w.cache[s].grads) == map[]
  {
    NeverStale(w, s);
    assert Synced(w, s);
  }

  lemma FileReadsIff(rt: Runtime, previous: Option<Grads>, next: Runtime)
    requires next.meta == rt.meta
    requires var pending := if previous.Some? then previous.value else map[];
      if rt.meta.accumSteps > 0 then pending == rt.grads else Nonzero(pending) == map[] && Nonzero(rt.grads) == map[]
    ensures var file := GradFile(previous, next);
      Nonzero(if file.Some? then file.value else map[]) == Nonzero(next.grads) <==>
        if next.grads == map[] then Nonzero(rt.grads) == map[]
        else rt.meta.accumSteps > 0 || Nonzero(next.grads) == map[]
  {
    NonzeroOfEmpty();
  }

  lemma LoadForm(w: Worker, s: SessionId, ckpt: Weights, restored: Option<Grads>, v: Worker)
    requires s in w.cache && !Stale(w, s) && (w.cache[s].meta.mode.Lora? ==> s in w.slot.adapters)
    requires v == WorkerState.LoadWeights(w, s, ckpt, restored, None)
    ensures s in v.cache && s in v.store
    ensures v.cache[s].grads == if restored.Some? then restored.value else map[]
    ensures v.store[s].grads == GradFile(OldGrads(w, s), v.cache[s]) && v.cache[s].meta == w.cache[s].meta
  {
    var rt := w.cache[s];
    var next := rt.(grads := if restored.Some? then restored.value else map[]);
    var w2 := Replaced(w, s, rt.meta.mode, ckpt);
    assert w2.cache == w.cache && w2.store == w.store;
    assert rt.meta.mode.Lora? ==> s in w2.slot.adapters;
    var w3 := Keep(w2, s, next);
    assert v == Save(w3, s, next);
    SaveWritesGrads(w3, s, next);
  }

  lemma SaveWritesGrads(w: Worker, s: SessionId, rt: Runtime)
    requires rt.meta.mode.Lora? ==> s in w.slot.adapters
    ensures s in Save(w, s, rt).store && Save(w, s, rt).store[s].grads == GradFile(OldGrads(w, s), rt)
    ensures Save(w, s, rt).cache == w.cache
  {
  }

  /** Nothing would be trainable if the session stepped where it is. */
  predicate Barren(w: Worker, s: SessionId) {
    IsFullParam(w, s) && w.slot.active == Some(s) && !w.slot.flags.base && NoAdapterTrains(w)
  }

  /** A step of a resident session raises. */
  predicate StepRaises(w: Worker, s: SessionId) {
    s in w.cache ==> w.cache[s].grads == map[] || Barren(w, s)
  }

  /**
   * A step succeeds or raises alike before and after an eviction exactly when it raises before it
   * just in case the gradient file is empty.
   */
  lemma StepAgreesAfterReloadIff(w: Worker, s: SessionId, byTokens: bool)
    requires Good(w) && s in w.cache && Durable(w, s)
    ensures s in w.store
    ensures (Succeeds(w, Event.OptimStep(s, byTokens, None)) <==>
      Succeeds(Evict(w, s), Event.OptimStep(s, byTokens, None)))
      <==> (StepRaises(w, s) <==> Pending(w.store[s]) == map[])
  {
    StoredIsSession(w, s);
    StepResident(w, s, byTokens);
    EvictIsGood(w, s, Evict(w, s));
    StepReloaded(Evict(w, s), s, byTokens);
  }

  lemma StepResident(w: Worker, s: SessionId, byTokens: bool)
    requires Good(w) && s in w.cache
    ensures Succeeds(w, Event.OptimStep(s, byTokens, None)) <==> !StepRaises(w, s)
  {
    StoredIsSession(w, s);
    KnownOpens(w, s, None);
    NeverStale(w, s);
    TrainableAfterActivation(w, s, Activate(w, s, w.cache[s].meta.mode));
    ResidentStep(w, s, byTokens);
  }

  lemma ResidentStep(w: Worker, s: SessionId, byTokens: bool)
    requires s in w.cache && !Stale(w, s) && OpensReady(w, s, None)
    ensures Succeeds(w, Event.OptimStep(s, byTokens, None)) <==>
      w.cache[s].grads != map[] && Trainable(Activate(w, s, w.cache[s].meta.mode)) != {}
  {
  }

  lemma TrainableAfterActivation(w: Worker, s: SessionId, v: Worker)
    requires Shape(w) && s in w.cache && v == Activate(w, s, w.cache[s].meta.mode)
    ensures Trainable(v) == {} <==> Barren(w, s)
  {
    ActivateKeeps(w, s, v);
    if Barren(w, s) {
      assert v == w;
    } else if IsFullParam(w, s) && w.slot.active == Some(s) && !w.slot.flags.base {
      assert v == w;
      SomethingIsTrainable(w);
    } else {
      assert Armed(w, s);
      SomethingTrains(v, s);
    }
  }

  lemma StepReloaded(w: Worker, s: SessionId, byTokens: bool)
    requires Good(w) && s !in w.cache && s in w.store
    ensures Succeeds(w, Event.OptimStep(s, byTokens, None)) <==> Pending(w.store[s]) != map[]
  {
    KnownOpens(w, s, None);
    var o := Ensure(w, s, None);
    EnsureIsGood(w, s, None, o);
    var v := Activate(o.worker, s, o.runtime.meta.mode);
    TrainableAfterActivation(o.worker, s, v);
    assert o.runtime == Revived(w.store[s]);
  }

  /** So a second step in a row goes through while the session stays resident and raises after a reload. */
  lemma StepAfterReloadRaises(w: Worker, s: SessionId, byTokens: bool)
    requires Good(w) && s in w.cache && w.cache[s].grads != map[] && !Barren(w, s)
    requires OldGrads(w, s) == Some(map[]) && Durable(w, s)
    ensures Succeeds(w, Event.OptimStep(s, byTokens, None))
      && !Succeeds(Evict(w, s), Event.OptimStep(s, byTokens, None))
    ensures Session(Evict(w, s), s) == Session(w, s)
  {
    StepAgreesAfterReloadIff(w, s, byTokens);
    StepResident(w, s, byTokens);
    EvictIsGood(w, s, Evict(w, s));
  }

  /**
   * Zeros left by a step keep their parameters in the next cycle's accumulator. A reload drops
   * them, and the accumulators differ exactly if the next pass does not reach all of them.
   */
  lemma ReloadChangesUnreachedIff(zeros: Grads, g: Grads)
    requires Nonzero(zeros) == map[]
    ensures Sum(zeros, g) == Sum(map[], g) <==> zeros.Keys <= g.Keys
  {
    forall k
      ensures Read(zeros, k) == 0.0
    {
      assert k !in Nonzero(zeros);
    }
    if zeros.Keys <= g.Keys {
      forall k | k in Sum(zeros, g)
        ensures Sum(zeros, g)[k] == Sum(map[], g)[k]
      {
        assert Sum(zeros, g)[k] == Read(Sum(zeros, g), k);
        assert Sum(map[], g)[k] == Read(Sum(map[], g), k);
      }
    } else {
      var k :| k in zeros && k !in g;
      assert k in Sum(zeros, g) && k !in Sum(map[], g);
    }
  }

  // ---------- capacity ----------

  /** A successful initialization leaves one full-parameter session, the new one. */
  lemma InitLeavesOneFullParam(w: Worker, s: SessionId, sids: seq<SessionId>, v: Worker)
    requires Good(w) && s !in w.store && s !in w.cache
    requires forall sid :: sid in w.fpBase ==> sid in sids
    requires forall sid :: sid in sids ==> !Blocks(w, s, sid) && Durable(w, sid)
    requires v == WorkerState.InitFullParam(w, s, sids, None)
    ensures v.fpBase.Keys == {s} && AtMostOneFullParam(v)
  {
    InitStashesOne(w, s, sids, v);
    InitFullParamIsPrivate(w, s, sids, None, v);
    OneIsStashed(v, s);
  }

  lemma OneIsStashed(w: Worker, s: SessionId)
    requires Shape(w) && w.fpBase.Keys == {s}
    ensures AtMostOneFullParam(w)
  {
    forall a | IsFullParam(w, a)
      ensures a == s
    {
      assert a in w.fpBase;
    }
  }

  lemma InitStashesOne(w: Worker, s: SessionId, sids: seq<SessionId>, v: Worker)
    requires Good(w) && s !in w.store && s !in w.cache
    requires forall sid :: sid in w.fpBase ==> sid in sids
    requires forall sid :: sid in sids ==> !Blocks(w, s, sid) && Durable(w, sid)
    requires v == WorkerState.InitFullParam(w, s, sids, None)
    ensures v.fpBase.Keys == {s}
  {
    GateIsGood(w, s, sids);
    InitFullParamIsPrivate(w, s, sids, None, v);
    var w1 := Gate(w, s, sids).0;
    forall t
      ensures !IsFullParam(w1, t)
    {
      if t !in sids || t == s {
        assert Same(w, w1, t);
      }
    }
    assert w1.fpBase == map[];
    assert v.fpBase.Keys == {s} by {
      StashKeeps(w1);
      assert Stash(w1).fpBase == map[];
    }
  }

  ghost predicate AtMostOneFullParam(w: Worker) {
    forall a, b :: IsFullParam(w, a) && IsFullParam(w, b) ==> a == b
  }

  /** Who is resident after a job that only reads. */
  lemma ForwardCache(w: Worker, s: SessionId, victim: Option<SessionId>, v: Worker)
    requires Good(w) && s in w.store && v == WorkerState.Forward(w, s, victim)
    ensures s in w.cache ==> v.cache == w.cache
    ensures s !in w.cache && victim.None? ==> v.cache == w.cache[s := Revived(w.store[s])]
    ensures s !in w.cache && victim.Some? ==> v.cache == Without(w.cache[s := Revived(w.store[s])], victim.value)
  {
    var o := Ensure(w, s, victim);
    assert o.Opened? && o.worker.cache == if s in w.cache then w.cache else LoadSession(w, s, victim).cache by {
      assert SavedIsSound(w.store[s], s, w.slot);
      if s in w.cache {
        NeverStale(w, s);
      }
    }
    ForwardKeepsCache(o.worker, s, o.runtime.meta.mode);
    if s !in w.cache {
      assert Loadable(w.store[s]) by {
        assert SavedIsSound(w.store[s], s, w.slot);
      }
      LoadCache(w, s, victim);
    }
  }

  lemma ForwardKeepsCache(w: Worker, s: SessionId, mode: Mode)
    ensures Activate(w, s, mode).cache == w.cache && Passed(Activate(w, s, mode), mode).cache == w.cache
  {
  }

  lemma LoadCache(w: Worker, s: SessionId, victim: Option<SessionId>)
    requires s in w.store && s !in w.cache && Loadable(w.store[s])
    ensures LoadSession(w, s, victim).cache ==
      if victim.Some? then Without(w.cache[s := Revived(w.store[s])],
        victim.value) else w.cache[s := Revived(w.store[s])]
  {
    var saved := w.store[s];
    var attached := Attach(w, s, saved.meta, StoredWeights(saved, w.slot.pristine));
    assert attached.cache == w.cache;
    var c := w.cache[s := Revived(saved)];
    if victim.Some? && victim.value !in c {
      assert Without(c, victim.value) == c;
    }
  }

  /**
   * Reloads do not pass the gate. One full-parameter session at most stays one exactly when the
   * session was resident or is an adapter session, or nobody else of its kind stays behind, or the
   * cache drops it again.
   */
  lemma ReloadPassesGateIff(w: Worker, s: SessionId, victim: Option<SessionId>, v: Worker)
    requires Good(w) && AtMostOneFullParam(w) && s in w.store && v == WorkerState.Forward(w, s, victim)
    ensures AtMostOneFullParam(v) <==>
      || s in w.cache
      || w.store[s].meta.mode.Lora?
      || victim == Some(s)
      || forall r :: IsFullParam(w, r) ==> victim == Some(r)
  {
    ForwardCache(w, s, victim, v);
    if s in w.cache {
      SameCacheSameCount(w, v);
    } else {
      WhoIsThere(w, s, victim, v);
      SecondOneIff(w, s, victim, v);
    }
  }

  lemma SameCacheSameCount(w: Worker, v: Worker)
    requires v.cache == w.cache && AtMostOneFullParam(w)
    ensures AtMostOneFullParam(v)
  {
    forall a, b | IsFullParam(v, a) && IsFullParam(v, b)
      ensures a == b
    {
      assert IsFullParam(w, a) && IsFullParam(w, b);
    }
  }

  lemma WhoIsThere(w: Worker, s: SessionId, victim: Option<SessionId>, v: Worker)
    requires s in w.store && s !in w.cache
    requires v.cache == if victim.Some? then Without(w.cache[s := Revived(w.store[s])],
      victim.value) else w.cache[s := Revived(w.store[s])]
    ensures forall t :: IsFullParam(v, t) <==>
      victim != Some(t) && (if t == s then w.store[s].meta.mode.FullParam? else IsFullParam(w, t))
  {
  }

  lemma SecondOneIff(w: Worker, s: SessionId, victim: Option<SessionId>, v: Worker)
    requires AtMostOneFullParam(w) && s in w.store && s !in w.cache
    requires forall t :: IsFullParam(v, t) <==>
      victim != Some(t) && (if t == s then w.store[s].meta.mode.FullParam? else IsFullParam(w, t))
    ensures AtMostOneFullParam(v) <==>
      w.store[s].meta.mode.Lora? || victim == Some(s) || forall r :: IsFullParam(w, r) ==> victim == Some(r)
  {
    if w.store[s].meta.mode.FullParam? && victim != Some(s) {
      assert IsFullParam(v, s);
      forall r | IsFullParam(w, r) && victim != Some(r)
        ensures !AtMostOneFullParam(v)
      {
        assert IsFullParam(v, r) && r != s;
      }
    }
  }

  /** So a second full-parameter session comes in unopposed. */
  lemma ReloadBypassesGate(w: Worker, r: SessionId, s: SessionId, v: Worker)
    requires Good(w) && IsFullParam(w, r) && s in w.store && s !in w.cache && w.store[s].meta.mode.FullParam?
    requires v == WorkerState.Forward(w, s, None)
    ensures IsFullParam(v, r) && IsFullParam(v, s) && r != s
  {
    ForwardCache(w, s, None, v);
  }
}
