/** More runs: reloads, evictions and checkpoints that go wrong. */
module WitnessLimits {
  import opened Basics
  import opened JobTypes
  import opened WorkerState
  import opened WorkerInvariants
  import opened PrivateSessions
  import opened WorkerRuns
  import opened WitnessRuns

  // ---------- evictions and reloads, evaluated ----------

  lemma DropInactive(w: Worker, f: SessionId)
    requires IsFullParam(w, f) && w.slot.active != Some(f)
    ensures Evict(w, f) == w.(cache := Without(w.cache, f), fpBase := Without(w.fpBase, f))
  {
  }

  lemma DropActive(w: Worker, f: SessionId)
    requires IsFullParam(w, f) && w.slot.active == Some(f)
    ensures Evict(w, f) ==
      w.(cache := Without(w.cache, f), fpBase := Without(w.fpBase, f),
        slot := w.slot.(live := Load(w.slot.live, w.slot.pristine), active := None))
  {
  }

  /** What the adapters of these runs wrap: the one layer there is. */
  const LAYER: set<ParamName> := {"a"}

  /** A new adapter takes the slot of a full-parameter session. */
  lemma TakesSlot(w: Worker, l: SessionId, f: SessionId, v: Worker)
    requires l !in w.cache && l !in w.store && f != l && IsFullParam(w, f) && f in w.store
    requires v == WorkerState.InitLora(w, l, LAYER, ADAPTER, Some(f))
    ensures f !in v.cache && f in v.store && v.store[f] == w.store[f] && v.fpBase == Without(w.fpBase, f)
    ensures v.slot.pristine == w.slot.pristine && v.slot.wrapped == w.slot.wrapped + LAYER && v.slot.current == Some(l)
    ensures v.slot.left == w.slot.left
    ensures l in v.slot.adapters && v.slot.adapters[l] == ADAPTER && l in v.cache && l in v.store
    ensures forall s :: s != l && s != f ==> (s in v.cache <==> s in w.cache) && (s in v.store <==> s in w.store)
    ensures v.slot.active == (if w.slot.active == Some(f) then None else w.slot.active)
    ensures v.slot.live == if w.slot.active == Some(f) then Load(w.slot.live, w.slot.pristine) else w.slot.live
  {
    AttachesInstead(w, l, LAYER, f);
    var mid := Attached(w, l, LAYER);
    assert IsFullParam(mid, f) && mid.slot.active == w.slot.active && mid.slot.left == w.slot.left;
    if w.slot.active == Some(f) {
      DropActive(mid, f);
    } else {
      DropInactive(mid, f);
    }
  }

  /** The state after a full-parameter session has been loaded. */
  function Loaded(w: Worker, f: SessionId, weights: Weights): Worker
    requires f in w.store
  {
    w.(fpBase := w.fpBase[f := weights], cache := w.cache[f := Revived(w.store[f])])
  }

  lemma Reloads(w: Worker, f: SessionId, weights: Weights)
    requires f !in w.cache && f in w.store && w.store[f].meta.mode.FullParam? && !ActiveIsFullParam(w)
    requires weights == StoredWeights(w.store[f], w.slot.pristine) && weights != map[]
    ensures Ensure(w, f, None) == Opened(Loaded(w, f, weights), Revived(w.store[f]))
  {
    assert Evict(w, f) == w;
    assert AttachFullParam(w, f, weights) == w.(fpBase := w.fpBase[f := weights]);
  }

  lemma OpensForPass(net: Network, w: Worker, f: SessionId, victim: Option<SessionId>, v: Worker, rt: Runtime)
    requires Ensure(w, f, victim) == Opened(v, rt)
    ensures WorkerState.ForwardBackward(net, w, f, [7], 1, victim)
      == BackwardAndSave(net, Activate(v, f, rt.meta.mode), f, rt, [7], 1)
  {
  }

  // ---------- the initialization marker ----------

  const MARKED := NEW.(pristineInit := true)
  const MARKED_PASSED := PASSED.(pristineInit := true)
  const MARKED_DONE := DONE.(pristineInit := true)

  /** Nobody is active on a pristine base, and no adapter has gradients left. */
  predicate Vacant(w: Worker) {
    w.slot.active == None && w.slot.live == PRISTINE && w.slot.pristine == PRISTINE && w.slot.left.adapters == map[]
  }

  /** The name of the one base parameter. */
  function NameOf(w: Worker): LiveName {
    BaseName(w.slot.wrapped, "a")
  }

  lemma LoadSame()
    ensures Load(PRISTINE, PRISTINE) == PRISTINE
    ensures Load(STEPPED, PRISTINE) == PRISTINE
    ensures PRISTINE != map[] && STEPPED != map[]
  {
    assert "a" in PRISTINE && "a" in STEPPED;
  }

  /** The session faces the base after a reload. */
  function Faced(w: Worker, f: SessionId): Worker
    requires f in w.store
  {
    Loaded(w, f, PRISTINE).(slot := w.slot.(active := Some(f), flags := Flags(true, None)))
  }

  lemma FacesAfterReload(w: Worker, f: SessionId)
    requires Vacant(w) && f in w.store
    ensures Activate(Loaded(w, f, PRISTINE), f, FullParam) == Faced(w, f)
  {
    LoadSame();
    TakesOver(Loaded(w, f, PRISTINE), f);
  }

  /** A pass of a session that has to be reloaded first. */
  lemma MarkedPass(w: Worker, f: SessionId)
    requires Vacant(w) && f !in w.cache && f in w.store && w.store[f] == Saved(MARKED, None, None)
    ensures WorkerState.ForwardBackward(NET, w, f, [7], 1, None)
      == SavedLive(PassedTo(Faced(w, f)), f, Runtime(MARKED_PASSED, Ones(NameOf(w))))
  {
    MarkedHalf(NET, w, f);
    FacedFacts(w, f, Faced(w, f));
    MarkedSecondHalf(Faced(w, f), f, NameOf(w));
  }

  lemma MarkedSecondHalf(w: Worker, f: SessionId, k: LiveName)
    requires Freshly(w, f, k)
    ensures BackwardAndSave(NET, w, f, Runtime(MARKED, map[]), [7], 1)
      == SavedLive(PassedTo(w), f, Runtime(MARKED_PASSED, Ones(k)))
  {
    FirstPass(w, f, k, MARKED, MARKED_PASSED);
  }

  lemma FacedFacts(w: Worker, f: SessionId, v: Worker)
    requires Vacant(w) && f in w.store && v == Faced(w, f)
    ensures Freshly(v, f, NameOf(w)) && v.slot.live == PRISTINE
  {
  }

  lemma MarkedHalf(net: Network, w: Worker, f: SessionId)
    requires Vacant(w) && f !in w.cache && f in w.store && w.store[f] == Saved(MARKED, None, None)
    ensures WorkerState.ForwardBackward(net, w, f, [7], 1, None)
      == BackwardAndSave(net, Faced(w, f), f, Runtime(MARKED, map[]), [7], 1)
  {
    MarkedOpens(w, f);
    OpensForPass(net, w, f, None, Loaded(w, f, PRISTINE), Runtime(MARKED, map[]));
    FacesAfterReload(w, f);
  }

  lemma MarkedOpens(w: Worker, f: SessionId)
    requires Vacant(w) && f !in w.cache && f in w.store && w.store[f] == Saved(MARKED, None, None)
    ensures Ensure(w, f, None) == Opened(Loaded(w, f, PRISTINE), Runtime(MARKED, map[]))
  {
    LoadSame();
    Reloads(w, f, PRISTINE);
  }

  /** What is known of a saved session and its neighbours. */
  lemma SavedFacts(w: Worker, f: SessionId, next: Runtime, v: Worker)
    requires v == SavedLive(w, f, next)
    ensures f in v.cache && v.cache[f] == next && f in v.store && v.store[f].meta == next.meta && v.slot == w.slot
    ensures forall s :: s != f ==> (s in v.cache <==> s in w.cache) && (s in v.store <==> s in w.store)
  {
  }

  lemma PassedFacts(w: Worker, f: SessionId, v: Worker)
    requires f in w.store && v == PassedTo(Faced(w, f))
    ensures v.slot == w.slot.(
      active := Some(f), flags := Flags(true, w.slot.current), left := Left(map["a" := 1.0], w.slot.left.adapters))
    ensures v.store == w.store
    ensures forall s :: s != f ==> (s in v.cache <==> s in w.cache)
  {
  }

  lemma MarkedPassFacts(w: Worker, f: SessionId, v: Worker)
    requires Vacant(w) && f !in w.cache && f in w.store && w.store[f] == Saved(MARKED, None, None)
    requires v == WorkerState.ForwardBackward(NET, w, f, [7], 1, None)
    ensures f in v.cache && v.cache[f] == Runtime(MARKED_PASSED, Ones(NameOf(w)))
    ensures f in v.store && v.store[f].meta == MARKED_PASSED
    ensures v.slot == w.slot.(
      active := Some(f), flags := Flags(true, w.slot.current), left := Left(map["a" := 1.0], map[]))
    ensures forall s :: s != f ==> (s in v.cache <==> s in w.cache) && (s in v.store <==> s in w.store)
  {
    MarkedPass(w, f);
    PassedFacts(w, f, PassedTo(Faced(w, f)));
    SavedFacts(PassedTo(Faced(w, f)), f, Runtime(MARKED_PASSED, Ones(NameOf(w))), v);
  }

  // ---------- steps beside somebody else's adapter ----------

  /** An active session with a trainable adapter of another session beside it. */
  predicate Beside(w: Worker, f: SessionId, l: SessionId) {
    && f in w.cache && f in w.store && w.cache[f].meta == w.store[f].meta && w.cache[f].meta.mode.FullParam?
    && w.slot.active == Some(f) && w.slot.flags == Flags(true, Some(l)) && l in w.slot.adapters
  }

  function Both(k: LiveName, l: SessionId): set<LiveName> {
    {k, InAdapter(l, "x")}
  }

  lemma BothTrain(w: Worker, l: SessionId)
    requires w.slot.live.Keys == {"a"} && w.slot.flags == Flags(true, Some(l))
    requires l in w.slot.adapters && w.slot.adapters[l].Keys == {"x"}
    ensures Trainable(w) == Both(NameOf(w), l)
  {
    assert "a" in w.slot.live && "x" in w.slot.adapters[l];
    assert NameOf(w) in Trainable(w) && InAdapter(l, "x") in Trainable(w);
  }

  lemma BothZero(k: LiveName, l: SessionId)
    ensures Zeros(Both(k, l)) == map[k := 0.0, InAdapter(l, "x") := 0.0]
  {
  }

  /** The state after a step that moves base and adapter as given. */
  function Moved(w: Worker, l: SessionId, base: Weights, adapter: Weights): Worker {
    w.(slot := w.slot.(live := base, adapters := w.slot.adapters[l := adapter], left := Cleared(w).slot.left))
  }

  lemma BothMove(net: Network, w: Worker, l: SessionId, g: Grads, base: Weights, adapter: Weights)
    requires w.slot.flags == Flags(true, Some(l)) && l in w.slot.adapters
    requires base == SteppedBase(net, w, g) && adapter == SteppedAdapter(net, w, l, g)
    ensures Trained(net, w, g) == Moved(w, l, base, adapter)
  {
  }

  lemma OnlyBaseMoves(w: Worker, l: SessionId)
    requires w.slot.live == PRISTINE && w.slot.flags.base && l in w.slot.adapters
    ensures SteppedBase(NET, w, Ones(NameOf(w))) == STEPPED
      && SteppedAdapter(NET, w, l, Ones(NameOf(w))) == w.slot.adapters[l]
  {
    BaseMoves(w);
    StaysWithout(NET, w, l, Ones(NameOf(w)));
  }

  lemma StaysWithout(net: Network, w: Worker, l: SessionId, g: Grads)
    requires l in w.slot.adapters && forall n :: InAdapter(l, n) !in g
    ensures SteppedAdapter(net, w, l, g) == w.slot.adapters[l]
  {
    assert AdapterGrads(l, w.slot.adapters[l], g) == map[];
  }

  lemma BaseMoves(w: Worker)
    requires w.slot.live == PRISTINE && w.slot.flags.base
    ensures SteppedBase(NET, w, Ones(NameOf(w))) == STEPPED
  {
    OwnOfOnes(w.slot.wrapped, PRISTINE, NameOf(w));
    StepsDown();
  }

  lemma SharedStep(net: Network, w: Worker, f: SessionId, l: SessionId, g: Grads, base: Weights, adapter: Weights,
      next: Runtime)
    requires Beside(w, f, l) && w.cache[f].grads == g && g != map[]
    requires w.slot.live.Keys == {"a"} && w.slot.adapters[l].Keys == {"x"}
    requires base == SteppedBase(net, w, g) && adapter == SteppedAdapter(net, w, l, g)
    requires next == Stepped(w.cache[f], Both(NameOf(w), l))
    ensures WorkerState.OptimStep(net, w, f, false, None) == SavedLive(Moved(w, l, base, adapter), f, next)
  {
    NotStale(w, f);
    ActiveStays(w, f);
    BothTrain(w, l);
    BothMove(net, w, l, g, base, adapter);
    StepOnce(net, w, f, w.cache[f], w, next, Moved(w, l, base, adapter));
  }

  /** What a step makes of the session's counters. */
  function Counted(meta: Meta): Meta {
    meta.(totalSteps := meta.totalSteps + 1, accumSteps := 0, lossTokens := 0)
  }

  /** Zeros for the base and for the adapter beside it. */
  function Clean(meta: Meta, k: LiveName, l: SessionId): Runtime {
    Runtime(Counted(meta), map[k := 0.0, InAdapter(l, "x") := 0.0])
  }

  lemma SteppedIs(meta: Meta, g: Grads, k: LiveName, l: SessionId)
    ensures Stepped(Runtime(meta, g), Both(k, l)) == Clean(meta, k, l)
  {
    BothZero(k, l);
  }

  lemma FirstStepFacts(w: Worker, f: SessionId, l: SessionId, meta: Meta, v: Worker)
    requires Beside(w, f, l) && w.cache[f] == Runtime(meta, Ones(NameOf(w)))
    requires w.slot.live == PRISTINE && w.slot.adapters[l] == ADAPTER
    requires v == WorkerState.OptimStep(NET, w, f, false, None)
    ensures f in v.cache && v.cache[f] == Clean(meta, NameOf(w), l)
    ensures f in v.store && v.store[f].meta == Counted(meta)
    ensures v.slot == w.slot.(live := STEPPED, adapters := v.slot.adapters, left := Cleared(w).slot.left)
    ensures l in v.slot.adapters && v.slot.adapters[l] == ADAPTER
    ensures forall s :: s != f ==> (s in v.cache <==> s in w.cache) && (s in v.store <==> s in w.store)
  {
    var next := Stepped(w.cache[f], Both(NameOf(w), l));
    StepBeside(w, f, l, next);
    SteppedIs(meta, Ones(NameOf(w)), NameOf(w), l);
    MovedFacts(w, f, l, STEPPED, ADAPTER, next, v);
  }

  lemma MovedFacts(w: Worker, f: SessionId, l: SessionId, base: Weights, adapter: Weights, next: Runtime, v: Worker)
    requires v == SavedLive(Moved(w, l, base, adapter), f, next)
    ensures f in v.cache && v.cache[f] == next && f in v.store && v.store[f].meta == next.meta
    ensures v.slot == w.slot.(live := base, adapters := v.slot.adapters, left := Cleared(w).slot.left)
    ensures l in v.slot.adapters && v.slot.adapters[l] == adapter
    ensures forall s :: s != f ==> (s in v.cache <==> s in w.cache) && (s in v.store <==> s in w.store)
  {
    SavedFacts(Moved(w, l, base, adapter), f, next, v);
  }

  lemma StepBeside(w: Worker, f: SessionId, l: SessionId, next: Runtime)
    requires Beside(w, f, l) && w.cache[f].grads == Ones(NameOf(w)) && w.slot.live == PRISTINE
      && w.slot.adapters[l] == ADAPTER
    requires next == Stepped(w.cache[f], Both(NameOf(w), l))
    ensures WorkerState.OptimStep(NET, w, f, false, None) == SavedLive(Moved(w, l, STEPPED, ADAPTER), f, next)
  {
    OnlyBaseMoves(w, l);
    StepOfOnes(NET, w, f, l, next);
  }

  lemma StepOfOnes(net: Network, w: Worker, f: SessionId, l: SessionId, next: Runtime)
    requires Beside(w, f, l) && w.cache[f].grads == Ones(NameOf(w)) && w.slot.live == PRISTINE
      && w.slot.adapters[l] == ADAPTER
    requires next == Stepped(w.cache[f], Both(NameOf(w), l))
    requires SteppedBase(net, w, Ones(NameOf(w))) == STEPPED && SteppedAdapter(net, w, l, Ones(NameOf(w))) == ADAPTER
    ensures WorkerState.OptimStep(net, w, f, false, None) == SavedLive(Moved(w, l, STEPPED, ADAPTER), f, next)
  {
    OnesAreThere(NameOf(w));
    OneParameterEach();
    SharedStep(net, w, f, l, Ones(NameOf(w)), STEPPED, ADAPTER, next);
  }

  lemma OneParameterEach()
    ensures PRISTINE.Keys == {"a"} && ADAPTER.Keys == {"x"}
  {
  }

  // ---------- run: the marker ----------

  lemma CreatedFacts()
    ensures IsFullParam(CREATED, "f") && "f" in CREATED.store && CREATED.store["f"] == Saved(MARKED, None, None)
    ensures Vacant(CREATED) && CREATED.cache.Keys == {"f"} && CREATED.store.Keys == {"f"}
  {
  }

  const INIT := [InitFullParam("f", [], None)]

  lemma InitRun()
    ensures Run(NET, PRISTINE, INIT) == CREATED
  {
    assert [] + INIT == INIT;
    Creates();
    InitStep(NET, Boot(PRISTINE), "f");
    RunOn([], INIT[0], Boot(PRISTINE), CREATED);
  }

  const AWAY := INIT + [InitLora("l", LAYER, ADAPTER, Some("f"))]

  lemma AwayRun(w: Worker)
    requires w == Run(NET, PRISTINE, AWAY)
    ensures Vacant(w) && "f" !in w.cache && "f" in w.store && w.store["f"] == Saved(MARKED, None, None)
    ensures w.slot.current == Some("l") && "l" in w.slot.adapters && w.slot.adapters["l"] == ADAPTER
    ensures "m" !in w.cache && "m" !in w.store
  {
    var before := Run(NET, PRISTINE, INIT);
    InitRun();
    CreatedFacts();
    AttachStep(NET, before, "l", LAYER, Some("f"));
    RunOn(INIT, InitLora("l", LAYER, ADAPTER, Some("f")), before,
      WorkerState.InitLora(before, "l", LAYER, ADAPTER, Some("f")));
    LeavesForAdapter(before, w);
  }

  lemma LeavesForAdapter(w: Worker, v: Worker)
    requires IsFullParam(w, "f") && "f" in w.store && w.store["f"] == Saved(MARKED, None, None)
    requires Vacant(w) && w.cache.Keys == {"f"} && w.store.Keys == {"f"}
      && v == WorkerState.InitLora(w, "l", LAYER, ADAPTER, Some("f"))
    ensures Vacant(v) && "f" !in v.cache && "f" in v.store && v.store["f"] == Saved(MARKED, None, None)
    ensures v.slot.current == Some("l") && "l" in v.slot.adapters && v.slot.adapters["l"] == ADAPTER
    ensures "m" !in v.cache && "m" !in v.store
  {
    TakesSlot(w, "l", "f", v);
  }

  const BACK := AWAY + [ForwardBackward("f", [7], 1, None)]

  lemma BackRun(w: Worker)
    requires w == Run(NET, PRISTINE, BACK)
    ensures Beside(w, "f", "l") && w.cache["f"] == Runtime(MARKED_PASSED, Ones(NameOf(w)))
    ensures w.slot.live == PRISTINE && w.slot.pristine == PRISTINE
    ensures w.slot.adapters["l"] == ADAPTER && "m" !in w.cache && "m" !in w.store
  {
    var before := Run(NET, PRISTINE, AWAY);
    AwayRun(before);
    PassStep(NET, before, "f", None);
    RunOn(AWAY, ForwardBackward("f", [7], 1, None), before, w);
    MarkedPassFacts(before, "f", w);
  }

  const AHEAD := BACK + [OptimStep("f", false, None)]

  lemma AheadRun(w: Worker)
    requires w == Run(NET, PRISTINE, AHEAD)
    ensures IsFullParam(w, "f") && "f" in w.store && w.store["f"].meta == MARKED_DONE && w.slot.pristine == PRISTINE
    ensures "m" !in w.cache && "m" !in w.store && Held(w, "f") == STEPPED
  {
    var before := Run(NET, PRISTINE, BACK);
    BackRun(before);
    OptimizerStep(NET, before, "f");
    RunOn(BACK, OptimStep("f", false, None), before, WorkerState.OptimStep(NET, before, "f", false, None));
    StepsAhead(before, w);
    FactsAhead(before.slot, w);
  }

  lemma StepsAhead(w: Worker, v: Worker)
    requires Beside(w, "f", "l") && w.cache["f"] == Runtime(MARKED_PASSED, Ones(NameOf(w)))
    requires w.slot.live == PRISTINE && w.slot.pristine == PRISTINE
    requires w.slot.adapters["l"] == ADAPTER && "m" !in w.cache && "m" !in w.store
    requires v == WorkerState.OptimStep(NET, w, "f", false, None)
    ensures "f" in v.cache && v.cache["f"].meta == MARKED_DONE && "f" in v.store && v.store["f"].meta == MARKED_DONE
    ensures v.slot == w.slot.(live := STEPPED, adapters := v.slot.adapters, left := v.slot.left)
    ensures "m" !in v.cache && "m" !in v.store
  {
    MarkedDone();
    FirstStepFacts(w, "f", "l", MARKED_PASSED, v);
  }

  lemma MarkedDone()
    ensures Counted(MARKED_PASSED) == MARKED_DONE
  {
  }

  lemma FactsAhead(slot: Slot, v: Worker)
    requires "f" in v.cache && v.cache["f"].meta == MARKED_DONE
    requires slot.active == Some("f") && slot.pristine == PRISTINE
      && v.slot == slot.(live := STEPPED, adapters := v.slot.adapters, left := v.slot.left)
    ensures IsFullParam(v, "f") && v.slot.pristine == PRISTINE && Held(v, "f") == STEPPED
  {
  }

  /**
   * create f; evict f for l; pass f; step f; evict f for m. The step is counted, and the weights are
   * pristine again.
   */
  lemma MarkerLosesStep(w: Worker)
    requires w == Run(NET, PRISTINE, AHEAD + [InitLora("m", LAYER, ADAPTER, Some("f"))])
    ensures "f" in Run(NET, PRISTINE, AHEAD).cache && Held(Run(NET, PRISTINE, AHEAD), "f") == STEPPED
    ensures Session(w, "f").Some? && Session(w, "f").value.meta.totalSteps == 1
      && Session(w, "f").value.weights == PRISTINE
  {
    var before := Run(NET, PRISTINE, AHEAD);
    AheadRun(before);
    Evicting(before, w);
    TakesSlot(before, "m", "f", w);
    MarkedReload(w, "f", MARKED_DONE);
  }

  lemma Evicting(before: Worker, w: Worker)
    requires before == Run(NET, PRISTINE, AHEAD)
      && w == Run(NET, PRISTINE, AHEAD + [InitLora("m", LAYER, ADAPTER, Some("f"))])
    ensures w == WorkerState.InitLora(before, "m", LAYER, ADAPTER, Some("f"))
  {
    AttachStep(NET, before, "m", LAYER, Some("f"));
    RunOn(AHEAD, InitLora("m", LAYER, ADAPTER, Some("f")), before,
      WorkerState.InitLora(before, "m", LAYER, ADAPTER, Some("f")));
  }

  lemma MarkedReload(w: Worker, f: SessionId, meta: Meta)
    requires f !in w.cache && f in w.store && w.store[f].meta == meta && meta.mode.FullParam? && meta.pristineInit
      && w.slot.pristine == PRISTINE
    ensures Session(w, f).Some? && Session(w, f).value.meta.totalSteps == meta.totalSteps
      && Session(w, f).value.weights == PRISTINE
  {
    LoadSame();
  }
}
