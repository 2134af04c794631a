/** Runs of a worker with a one-parameter base that end where the findings say. */
module WitnessRuns {
  import opened Basics
  import opened JobTypes
  import opened WorkerState
  import opened WorkerInvariants
  import opened PrivateSessions
  import opened NewSessions
  import opened WorkerRuns

  /** Every gradient is one; a step subtracts it, and halves an adapter first. */
  const NET := Network(
    (weights: Weights, batch: Batch) => map n | n in weights :: 1.0,
    (base: Weights, adapter: Weights, batch: Batch) => map n | n in adapter :: 1.0,
    (weights: Weights, g: ParamGrads) => map n | n in weights :: weights[n] - Read(g, n),
    (base: Weights, adapter: Weights, g: ParamGrads) => map n | n in adapter :: adapter[n] / 2.0 - Read(g, n))

  const PRISTINE: Weights := map["a" := 1.0]
  const STEPPED: Weights := map["a" := 0.0]
  const ADAPTER: Weights := map["x" := 2.0]

  /** One more job. */
  lemma RunOn(es: seq<Event>, e: Event, w: Worker, v: Worker)
    requires Run(NET, PRISTINE, es) == w && Step(NET, w, e) == v
    ensures Run(NET, PRISTINE, es + [e]) == v
  {
    assert (es + [e])[..|es|] == es;
  }

  lemma InitStep(net: Network, w: Worker, s: SessionId)
    ensures Step(net, w, InitFullParam(s, [], None)) == WorkerState.InitFullParam(w, s, [], None)
  {
  }

  lemma AttachStep(net: Network, w: Worker, s: SessionId, targets: set<ParamName>, victim: Option<SessionId>)
    ensures Step(net, w, InitLora(s, targets, ADAPTER, victim)) == WorkerState.InitLora(w, s, targets, ADAPTER, victim)
  {
  }

  lemma PassStep(net: Network, w: Worker, s: SessionId, victim: Option<SessionId>)
    ensures Step(net, w, ForwardBackward(s, [7], 1, victim)) == WorkerState.ForwardBackward(net, w, s, [7], 1, victim)
  {
  }

  lemma OptimizerStep(net: Network, w: Worker, s: SessionId)
    ensures Step(net, w, OptimStep(s, false, None)) == WorkerState.OptimStep(net, w, s, false, None)
  {
    Steps(net, w, OptimStep(s, false, None));
  }

  lemma Steps(net: Network, w: Worker, e: Event)
    requires e.OptimStep?
    ensures Step(net, w, e) == WorkerState.OptimStep(net, w, e.session, e.byTokens, e.victim)
  {
    match e case OptimStep(_, _, _) =>
  }

  lemma Loads(net: Network, w: Worker, e: Event)
    requires e.LoadWeights?
    ensures Step(net, w, e) == WorkerState.LoadWeights(w, e.session, e.ckpt, None, e.victim)
  {
    match e case LoadWeights(_, _, _) =>
  }

  lemma CheckpointStep(net: Network, w: Worker, s: SessionId, ckpt: Weights)
    ensures Step(net, w, LoadWeights(s, ckpt, None)) == WorkerState.LoadWeights(w, s, ckpt, None, None)
  {
    Loads(net, w, LoadWeights(s, ckpt, None));
  }

  // ---------- handlers, evaluated ----------

  /** The state after a full-parameter session has been saved from the live base. */
  function SavedLive(w: Worker, s: SessionId, next: Runtime): Worker {
    Worker(
      w.slot,
      w.fpBase[s := w.slot.live],
      w.cache[s := next],
      w.store[s := Saved(next.meta, Some(w.slot.live), GradFile(OldGrads(w, s), next))])
  }

  lemma SaveLive(w: Worker, s: SessionId, next: Runtime)
    requires s in w.cache && next.meta.mode.FullParam? && w.slot.active == Some(s)
    ensures Save(Keep(w, s, next), s, next) == SavedLive(w, s, next)
  {
  }

  lemma OpensInPlace(net: Network, w: Worker, s: SessionId, mode: Mode, batch: Batch, tokens: nat, byTokens: bool)
    requires s in w.cache && !Stale(w, s) && mode == w.cache[s].meta.mode
    ensures WorkerState.ForwardBackward(net, w, s, batch, tokens, None)
      == BackwardAndSave(net, Activate(w, s, mode), s, w.cache[s], batch, tokens)
    ensures WorkerState.OptimStep(net, w, s, byTokens, None)
      == StepAndSave(net, Activate(w, s, mode), s, w.cache[s], byTokens)
  {
  }

  /** The state behind a full-parameter pass on an armed base. */
  function PassedTo(w: Worker): Worker {
    w.(slot := w.slot.(
       flags := Flags(true, w.slot.current),
       left := Left(map["a" := 1.0], Cleared(w).slot.left.adapters)))
  }

  function Ones(k: LiveName): Grads {
    map[k := 1.0]
  }

  function Nils(k: LiveName): Grads {
    map[k := 0.0]
  }

  lemma PassesTo(w: Worker, s: SessionId)
    requires w.slot.live.Keys == {"a"} && w.slot.flags.base
    ensures AfterPass(NET, w, s, FullParam, [7]) == PassedTo(w)
    ensures Strays(w, FullParam) == map[] ==> Collected(PassedTo(w)) == Ones(BaseName(w.slot.wrapped, "a"))
  {
    OneGradient(w.slot.live);
    FillsOnes(NET, w, s);
  }

  lemma OneGradient(live: Weights)
    requires live.Keys == {"a"}
    ensures NET.fpGrad(live, [7]) == map["a" := 1.0]
  {
  }

  lemma FillsOnes(net: Network, w: Worker, s: SessionId)
    requires w.slot.live.Keys == {"a"} && w.slot.flags.base && net.fpGrad(w.slot.live, [7]) == map["a" := 1.0]
    ensures AfterPass(net, w, s, FullParam, [7]) == PassedTo(w)
    ensures Strays(w, FullParam) == map[] ==> Collected(PassedTo(w)) == Ones(BaseName(w.slot.wrapped, "a"))
  {
    assert Restrict(w.slot.live, map["a" := 1.0]) == map["a" := 1.0];
    FilledFullParam(net, w, s, [7], AfterPass(net, w, s, FullParam, [7]));
    CollectedFullParam(net, w, s, [7], PassedTo(w));
    OneName(w.slot.wrapped, w.slot.live, map["a" := 1.0]);
  }

  lemma OneName(wrapped: set<ParamName>, params: Weights, raw: ParamGrads)
    requires params.Keys == {"a"} && raw == map["a" := 1.0]
    ensures BaseNamed(wrapped, params, raw) == Ones(BaseName(wrapped, "a"))
    ensures BaseNamed(wrapped, params, raw) + map[] == Ones(BaseName(wrapped, "a"))
  {
    assert "a" in params;
    assert BaseName(wrapped, "a") in BaseNamed(wrapped, params, raw);
  }

  /** A full-parameter session that faces the armed base makes its pass. */
  lemma PassFacing(w: Worker, s: SessionId, rt: Runtime, next: Runtime)
    requires rt.meta.mode.FullParam? && w.slot.active == Some(s) && s in w.cache
    requires w.slot.live.Keys == {"a"} && w.slot.flags.base && Strays(w, FullParam) == map[]
    requires next == Accumulated(rt, Ones(BaseName(w.slot.wrapped, "a")), 1)
    ensures BackwardAndSave(NET, w, s, rt, [7], 1) == SavedLive(PassedTo(w), s, next)
  {
    PassesTo(w, s);
    PassThenSave(NET, w, s, rt, PassedTo(w), next);
  }

  lemma PassThenSave(net: Network, w: Worker, s: SessionId, rt: Runtime, after: Worker, next: Runtime)
    requires rt.meta.mode.FullParam? && after.slot.active == Some(s) && s in after.cache
    requires after == AfterPass(net, w, s, FullParam, [7]) && next == Accumulated(rt, Collected(after), 1)
    ensures BackwardAndSave(net, w, s, rt, [7], 1) == SavedLive(after, s, next)
  {
    SaveLive(after, s, next);
  }

  lemma StepFacing(net: Network, w: Worker, s: SessionId, rt: Runtime, next: Runtime, w3: Worker)
    requires rt.meta.mode.FullParam? && w.slot.active == Some(s) && s in w.cache
    requires rt.grads != map[] && Trainable(w) != {} && next == Stepped(rt, Trainable(w))
      && w3 == Trained(net, w, rt.grads)
    ensures StepAndSave(net, w, s, rt, false) == SavedLive(w3, s, next)
  {
    SaveLive(w3, s, next);
  }

  /** A backward pass of a resident full-parameter session; `w` is the state after its activation. */
  lemma Pass(w0: Worker, s: SessionId, rt: Runtime, w: Worker, next: Runtime)
    requires s in w0.cache && !Stale(w0, s) && w0.cache[s] == rt && rt.meta.mode.FullParam?
    requires w == Activate(w0, s, FullParam) && w.slot.active == Some(s) && s in w.cache
    requires w.slot.live.Keys == {"a"} && w.slot.flags.base && Strays(w, FullParam) == map[]
    requires next == Accumulated(rt, Ones(BaseName(w.slot.wrapped, "a")), 1)
    ensures WorkerState.ForwardBackward(NET, w0, s, [7], 1, None) == SavedLive(PassedTo(w), s, next)
  {
    OpensInPlace(NET, w0, s, FullParam, [7], 1, false);
    PassFacing(w, s, rt, next);
  }

  /** An optimizer step of a resident full-parameter session. */
  lemma StepOnce(net: Network, w0: Worker, s: SessionId, rt: Runtime, w: Worker, next: Runtime, w3: Worker)
    requires s in w0.cache && !Stale(w0, s) && w0.cache[s] == rt && rt.meta.mode.FullParam?
    requires w == Activate(w0, s, FullParam) && w.slot.active == Some(s) && s in w.cache
    requires rt.grads != map[] && Trainable(w) != {} && next == Stepped(rt, Trainable(w))
    requires w3 == Trained(net, w, rt.grads)
    ensures WorkerState.OptimStep(net, w0, s, false, None) == SavedLive(w3, s, next)
  {
    OpensInPlace(net, w0, s, FullParam, [7], 1, false);
    StepFacing(net, w, s, rt, next, w3);
  }

  lemma ActiveStays(w: Worker, s: SessionId)
    requires w.slot.active == Some(s)
    ensures Activate(w, s, FullParam) == w
  {
  }

  /** A full-parameter session takes over from nobody. */
  lemma TakesOver(w: Worker, s: SessionId)
    requires w.slot.active == None && s in w.fpBase
    ensures Activate(w, s, FullParam) ==
      w.(slot := w.slot.(live := Load(w.slot.live, w.fpBase[s]), active := Some(s), flags := Flags(true, None)))
  {
  }

  // ---------- one session by itself ----------

  const NEW := NewMeta(FullParam, {})
  const PASSED := NEW.(accumSteps := 1, lossTokens := 1)
  const DONE := NEW.(totalSteps := 1)
  const GRADS: Grads := Ones(Bare("a"))
  const ZEROS: Grads := Nils(Bare("a"))

  /** The base alone, nothing wrapped and nothing trainable. */
  const BARE := Slot(PRISTINE, PRISTINE, None, map[], None, {}, Flags(false, None), Left(map[], map[]))

  /** A full-parameter session has been created. */
  const CREATED := Worker(
    BARE,
    map["f" := PRISTINE],
    map["f" := Runtime(NEW, map[])],
    map["f" := Saved(NEW.(pristineInit := true), None, None)])

  const ARMED := BARE.(active := Some("f"), flags := Flags(true, None))
  const FACING := CREATED.(slot := ARMED)

  /** It has made one backward pass. */
  const TRAINING := SavedLive(PassedTo(FACING), "f", Runtime(PASSED, GRADS))

  /** It has stepped. */
  const TRAINED := SavedLive(TRAINING.(slot := ARMED.(live := STEPPED)), "f", Runtime(DONE, ZEROS))

  lemma Creates()
    ensures WorkerState.InitFullParam(Boot(PRISTINE), "f", [], None) == CREATED
  {
  }

  lemma MakesPass()
    ensures WorkerState.ForwardBackward(NET, CREATED, "f", [7], 1, None) == TRAINING
  {
    CreatedOpens(NET);
    FacesBase();
    FacingFacts();
    FirstPass(FACING, "f", Bare("a"), NEW, PASSED);
  }

  lemma CreatedOpens(net: Network)
    ensures WorkerState.ForwardBackward(net, CREATED, "f", [7], 1, None)
      == BackwardAndSave(net, Activate(CREATED, "f", FullParam), "f", Runtime(NEW, map[]), [7], 1)
  {
  }

  lemma FacingFacts()
    ensures Freshly(FACING, "f", Bare("a")) && FACING.slot.live == PRISTINE
  {
  }

  /** An armed session that faces the base with nothing left anywhere to pick up; `k` is the name of its parameter. */
  predicate Freshly(w: Worker, f: SessionId, k: LiveName) {
    && w.slot.active == Some(f) && f in w.cache && w.slot.flags.base
    && w.slot.live.Keys == {"a"} && w.slot.left.adapters == map[] && k == BaseName(w.slot.wrapped, "a")
  }

  lemma NoStrays(w: Worker)
    requires w.slot.left.adapters == map[]
    ensures Strays(w, FullParam) == map[]
  {
  }

  /** A first pass. */
  lemma FirstPass(w: Worker, f: SessionId, k: LiveName, meta: Meta, next: Meta)
    requires Freshly(w, f, k)
    requires meta.mode.FullParam? && next == meta.(accumSteps := meta.accumSteps + 1, lossTokens := meta.lossTokens + 1)
    ensures BackwardAndSave(NET, w, f, Runtime(meta, map[]), [7], 1)
      == SavedLive(PassedTo(w), f, Runtime(next, Ones(k)))
  {
    NoStrays(w);
    FirstSum(k);
    PassFacing(w, f, Runtime(meta, map[]), Runtime(next, Ones(k)));
  }

  lemma FacesBase()
    ensures Activate(CREATED, "f", FullParam) == FACING
  {
    TakesOver(CREATED, "f");
    assert Load(PRISTINE, PRISTINE) == PRISTINE;
  }

  lemma FirstSum(k: LiveName)
    ensures Sum(map[], Ones(k)) == Ones(k)
  {
    assert Sum(map[], Ones(k))[k] == Read(Sum(map[], Ones(k)), k);
  }

  lemma BaseTrains(w: Worker)
    requires w.slot.live.Keys == {"a"} && w.slot.flags == Flags(true, None)
    ensures Trainable(w) == {BaseName(w.slot.wrapped, "a")}
  {
    assert "a" in w.slot.live;
    assert BaseName(w.slot.wrapped, "a") in Trainable(w);
  }

  lemma TakesStep()
    ensures WorkerState.OptimStep(NET, TRAINING, "f", false, None) == TRAINED
  {
    TrainingFacts();
    FirstStep(TRAINING, "f", TRAINING.(slot := ARMED.(live := STEPPED)));
  }

  /** A first step on the pristine base. */
  lemma FirstStep(w: Worker, f: SessionId, w3: Worker)
    requires f in w.cache && f in w.store && w.cache[f] == Runtime(PASSED, GRADS) && w.store[f].meta == PASSED
    requires w.slot.active == Some(f) && w.slot.live == PRISTINE && w.slot.flags == Flags(true, None)
      && w.slot.wrapped == {}
    requires w3 == w.(slot := w.slot.(live := STEPPED, left := Cleared(w).slot.left))
    ensures WorkerState.OptimStep(NET, w, f, false, None) == SavedLive(w3, f, Runtime(DONE, ZEROS))
  {
    NotStale(w, f);
    ActiveStays(w, f);
    BaseTrains(w);
    ZeroOf(Bare("a"));
    OnesAreThere(Bare("a"));
    BaseStep(w, w3);
    StepOnce(NET, w, f, Runtime(PASSED, GRADS), w, Runtime(DONE, ZEROS), w3);
  }

  lemma StepsDown()
    ensures Load(PRISTINE, NET.fpStep(PRISTINE, map["a" := 1.0])) == STEPPED
  {
    assert Read(map["a" := 1.0], "a") == 1.0;
    assert NET.fpStep(PRISTINE, map["a" := 1.0]) == STEPPED;
  }

  lemma BaseStep(w: Worker, v: Worker)
    requires w.slot.live == PRISTINE && w.slot.flags == Flags(true, None) && w.slot.wrapped == {}
    requires v == w.(slot := w.slot.(live := STEPPED, left := Cleared(w).slot.left))
    ensures Trained(NET, w, GRADS) == v
  {
    OwnOfOnes(w.slot.wrapped, PRISTINE, Bare("a"));
    StepsDown();
  }

  lemma OwnOfOnes(wrapped: set<ParamName>, params: Weights, k: LiveName)
    requires params.Keys == {"a"} && k == BaseName(wrapped, "a")
    ensures BaseGrads(wrapped, params, Ones(k)) == map["a" := 1.0]
  {
    assert "a" in params;
  }

  // ---------- an adapter attached under a session ----------

  /** The state after a new adapter session has been attached and saved. */
  function Attached(w: Worker, l: SessionId, targets: set<ParamName>): Worker {
    var rt := Runtime(NewMeta(Lora, targets), map[]);
    Worker(
      w.slot.(adapters := w.slot.adapters[l := ADAPTER], current := Some(l), wrapped := w.slot.wrapped + targets,
        flags := Flags(false, Some(l))),
      w.fpBase,
      w.cache[l := rt],
      w.store[l := Saved(rt.meta, Some(ADAPTER), None)])
  }

  lemma Attaches(w: Worker, l: SessionId, targets: set<ParamName>)
    requires l !in w.cache && l !in w.store
    ensures WorkerState.InitLora(w, l, targets, ADAPTER, None) == Attached(w, l, targets)
  {
  }

  /** The same with a full-parameter session dropped from the cache. */
  lemma AttachesInstead(w: Worker, l: SessionId, targets: set<ParamName>, f: SessionId)
    requires l !in w.cache && l !in w.store && f != l && IsFullParam(w, f)
    ensures WorkerState.InitLora(w, l, targets, ADAPTER, Some(f)) == Evict(Attached(w, l, targets), f)
  {
    var rt := Runtime(NewMeta(Lora, targets), map[]);
    var put := AttachAdapter(w, l, targets, ADAPTER).(cache := w.cache[l := rt]);
    assert Attached(w, l, targets) == put.(store := Attached(w, l, targets).store);
    EvictThenSave(put, f, Attached(w, l, targets).store);
  }

  lemma AdapterTrains(w: Worker, l: SessionId)
    requires w.slot.flags == Flags(false, Some(l)) && l in w.slot.adapters && w.slot.adapters[l] == ADAPTER
    ensures Trainable(w) == {InAdapter(l, "x")}
  {
    assert "x" in ADAPTER;
    assert InAdapter(l, "x") in Trainable(w);
  }

  lemma NothingMoves(w: Worker, l: SessionId, g: Grads)
    requires w.slot.flags == Flags(false, Some(l)) && l in w.slot.adapters && w.slot.adapters[l] == ADAPTER
      && InAdapter(l, "x") !in g
    requires w.slot.left.adapters == map[]
    ensures Trained(NET, w, g) == w
  {
    assert ADAPTER.Keys == {"x"};
    NothingFound(w, l, g);
    FrozenStays(NET, w, l, g);
  }

  lemma NothingFound(w: Worker, l: SessionId, g: Grads)
    requires l in w.slot.adapters && w.slot.adapters[l].Keys == {"x"} && InAdapter(l, "x") !in g
    ensures AdapterGrads(l, w.slot.adapters[l], g) == map[]
  {
  }

  lemma FrozenStays(net: Network, w: Worker, l: SessionId, g: Grads)
    requires w.slot.flags == Flags(false, Some(l)) && l in w.slot.adapters
      && AdapterGrads(l, w.slot.adapters[l], g) == map[]
    requires w.slot.left.adapters == map[]
    ensures Trained(net, w, g) == w
  {
    assert w.slot.adapters[l := w.slot.adapters[l]] == w.slot.adapters;
    assert Without(w.slot.left.adapters, l) == w.slot.left.adapters;
    assert Cleared(w).slot.left == w.slot.left;
  }

  lemma AttachedKeeps(w: Worker, l: SessionId, targets: set<ParamName>, s: SessionId)
    requires s != l && s in w.cache && s in w.store
    ensures var v := Attached(w, l, targets);
      && s in v.cache && v.cache[s] == w.cache[s] && s in v.store && v.store[s] == w.store[s]
      && v.slot.active == w.slot.active && v.slot.live == w.slot.live && v.fpBase == w.fpBase
      && l in v.slot.adapters && v.slot.adapters[l] == ADAPTER && v.slot.flags == Flags(false, Some(l))
      && v.slot.left == w.slot.left
  {
  }

  lemma NotStale(w: Worker, s: SessionId)
    requires s in w.cache && s in w.store && w.store[s].meta == w.cache[s].meta
    ensures !Stale(w, s)
  {
  }

  lemma ZeroOf(k: LiveName)
    ensures Zeros({k}) == map[k := 0.0]
  {
  }

  /** A session that has a gradient is stepped after an adapter was attached under it. */
  lemma StepsForNothing(w: Worker, f: SessionId, l: SessionId, targets: set<ParamName>, next: Runtime)
    requires f != l && f in w.cache && f in w.store && w.slot.active == Some(f)
    requires w.cache[f] == Runtime(PASSED, GRADS) && w.store[f].meta == PASSED && w.slot.left.adapters == map[]
    requires next == Runtime(DONE, map[InAdapter(l, "x") := 0.0])
    ensures WorkerState.OptimStep(NET, Attached(w, l, targets), f, false, None)
      == SavedLive(Attached(w, l, targets), f, next)
  {
    var v := Attached(w, l, targets);
    AttachedKeeps(w, l, targets, f);
    FrozenStepping(v, f, l, next);
  }

  lemma FrozenStepping(v: Worker, f: SessionId, l: SessionId, next: Runtime)
    requires f in v.cache && f in v.store && v.slot.active == Some(f)
    requires v.cache[f] == Runtime(PASSED, GRADS) && v.store[f].meta == PASSED
    requires v.slot.flags == Flags(false, Some(l)) && l in v.slot.adapters && v.slot.adapters[l] == ADAPTER
    requires v.slot.left.adapters == map[]
    requires next == Runtime(DONE, map[InAdapter(l, "x") := 0.0])
    ensures WorkerState.OptimStep(NET, v, f, false, None) == SavedLive(v, f, next)
  {
    NotStale(v, f);
    ActiveStays(v, f);
    AdapterTrains(v, l);
    NothingMoves(v, l, GRADS);
    ZeroOf(InAdapter(l, "x"));
    OnesAreThere(Bare("a"));
    StepOnce(NET, v, f, Runtime(PASSED, GRADS), v, next, v);
  }

  lemma OnesAreThere(k: LiveName)
    ensures Ones(k) != map[]
  {
    assert k in Ones(k);
  }

  lemma TrainingFacts()
    ensures "f" in TRAINING.cache && TRAINING.cache["f"] == Runtime(PASSED, GRADS)
    ensures "f" in TRAINING.store && TRAINING.store["f"].meta == PASSED && TRAINING.store["f"].weights == Some(PRISTINE)
    ensures TRAINING.store["f"].grads == Some(GRADS)
    ensures TRAINING.slot == ARMED.(left := Left(map["a" := 1.0], map[]))
    ensures "l" !in TRAINING.cache && "l" !in TRAINING.store
  {
    OnesAreThere(Bare("a"));
  }

  const FIRST := [InitFullParam("f", [], None), ForwardBackward("f", [7], 1, None)]

  lemma FirstRun()
    ensures Run(NET, PRISTINE, FIRST) == TRAINING
  {
    Creates();
    InitStep(NET, Boot(PRISTINE), "f");
    assert [] + [FIRST[0]] == [FIRST[0]] && [FIRST[0]] + [FIRST[1]] == FIRST;
    RunOn([], FIRST[0], Boot(PRISTINE), CREATED);
    MakesPass();
    PassStep(NET, CREATED, "f", None);
    RunOn([FIRST[0]], FIRST[1], CREATED, TRAINING);
  }

  lemma FirstAlone()
    ensures Alone(NET, PRISTINE, "f", FIRST) == Some(Private(PASSED, PRISTINE, map["a" := 1.0]))
  {
    var es := [FIRST[0]];
    assert FIRST[..1] == es && es[..0] == [];
    assert Alone(NET, PRISTINE, "f", es) == Some(Begin(FullParam, {}, PRISTINE));
    var own := OwnGradient(NET, PRISTINE, FullParam, PRISTINE, [7]);
    assert own == map["a" := 1.0];
    OwnFirst();
  }

  lemma OwnFirst()
    ensures Sum(map[], map["a" := 1.0]) == map["a" := 1.0]
  {
    assert Sum(map[], map["a" := 1.0])["a"] == Read(Sum(map[], map["a" := 1.0]), "a");
  }

  /**
   * create f; pass f; create adapter l; step f. Whatever the adapter wraps, the step is counted, the
   * gradient is gone and the weights are pristine, where the session alone would have stepped.
   */
  lemma AttachLosesStep(targets: set<ParamName>, es: seq<Event>)
    requires es == FIRST + [InitLora("l", targets, ADAPTER, None)] + [OptimStep("f", false, None)]
    ensures var w := Run(NET, PRISTINE, es);
      && "f" in w.cache && w.cache["f"].meta.totalSteps == 1 && Nonzero(w.cache["f"].grads) == map[]
      && Held(w, "f") == PRISTINE
    ensures Alone(NET, PRISTINE, "f", es).Some? && Alone(NET, PRISTINE, "f", es).value.weights == STEPPED
  {
    var w, next := Attached(TRAINING, "l", targets), Runtime(DONE, map[InAdapter("l", "x") := 0.0]);
    ThirdRun(targets);
    FourthRun(targets, w, next);
    RobbedFacts(w, next);
    AttachedTraining(targets);
    AloneSteps(es, targets);
  }

  lemma ThirdRun(targets: set<ParamName>)
    ensures Run(NET, PRISTINE, FIRST + [InitLora("l", targets, ADAPTER, None)]) == Attached(TRAINING, "l", targets)
  {
    FirstRun();
    TrainingFacts();
    Attaches(TRAINING, "l", targets);
    AttachStep(NET, TRAINING, "l", targets, None);
    RunOn(FIRST, InitLora("l", targets, ADAPTER, None), TRAINING, Attached(TRAINING, "l", targets));
  }

  lemma FourthRun(targets: set<ParamName>, w: Worker, next: Runtime)
    requires w == Attached(TRAINING, "l", targets) && next == Runtime(DONE, map[InAdapter("l", "x") := 0.0])
    ensures Run(NET, PRISTINE, FIRST + [InitLora("l", targets, ADAPTER, None)] + [OptimStep("f", false, None)])
      == SavedLive(w, "f", next)
  {
    ThirdRun(targets);
    TrainingFacts();
    StepsForNothing(TRAINING, "f", "l", targets, next);
    OptimizerStep(NET, w, "f");
    RunOn(FIRST + [InitLora("l", targets, ADAPTER, None)], OptimStep("f", false, None), w, SavedLive(w, "f", next));
  }

  lemma AttachedTraining(targets: set<ParamName>)
    ensures Attached(TRAINING, "l", targets).slot.live == PRISTINE
  {
    TrainingFacts();
  }

  lemma RobbedFacts(w: Worker, next: Runtime)
    requires next == Runtime(DONE, map[InAdapter("l", "x") := 0.0]) && w.slot.active == Some("f")
    ensures var v := SavedLive(w, "f", next);
      && "f" in v.cache && v.cache["f"].meta.totalSteps == 1 && Nonzero(v.cache["f"].grads) == map[]
        && Held(v, "f") == w.slot.live
  {
    HeldLive(w, "f", next);
  }

  lemma HeldLive(w: Worker, f: SessionId, next: Runtime)
    requires next.meta.mode.FullParam? && w.slot.active == Some(f)
    ensures var v := SavedLive(w, f, next); f in v.cache && v.cache[f] == next && Held(v, f) == w.slot.live
  {
  }

  lemma AloneSteps(es: seq<Event>, targets: set<ParamName>)
    requires es == FIRST + [InitLora("l", targets, ADAPTER, None)] + [OptimStep("f", false, None)]
    ensures Alone(NET, PRISTINE, "f", es).Some? && Alone(NET, PRISTINE, "f", es).value.weights == STEPPED
  {
    var third := FIRST + [InitLora("l", targets, ADAPTER, None)];
    assert es[..3] == third && third[..2] == FIRST && "f" != "l";
    FirstAlone();
    assert Alone(NET, PRISTINE, "f", third) == Alone(NET, PRISTINE, "f", FIRST);
    StepsDown();
  }
}
