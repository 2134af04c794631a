/** Runs in which one session's steps wear down another session's adapter. */
module WitnessSharing {
  import opened Basics
  import opened JobTypes
  import opened WorkerState
  import opened WorkerInvariants
  import opened PrivateSessions
  import opened WorkerRuns
  import opened WitnessRuns
  import opened WitnessLimits

  const HALVED: Weights := map["x" := 1.0]
  const LOWER: Weights := map["a" := -1.0]
  const AGAIN := DONE.(accumSteps := 1, lossTokens := 1)

  /** A gradient of the base beside a zero left for the adapter. */
  function Mixed(k: LiveName, l: SessionId): Grads {
    map[k := 1.0, InAdapter(l, "x") := 0.0]
  }

  /** The zeros a step leaves. */
  function Zeroed(k: LiveName, l: SessionId): Grads {
    map[k := 0.0, InAdapter(l, "x") := 0.0]
  }

  lemma MixedSum(k: LiveName, l: SessionId)
    requires !k.InAdapter?
    ensures Sum(Zeroed(k, l), Ones(k)) == Mixed(k, l)
  {
    var sum := Sum(Zeroed(k, l), Ones(k));
    assert sum.Keys == Mixed(k, l).Keys;
    assert sum[k] == Read(sum, k) && sum[InAdapter(l, "x")] == Read(sum, InAdapter(l, "x"));
  }

  // ---------- the first pass, of a resident session ----------

  /** A new full-parameter session, nobody active, and another session's adapter current. */
  predicate Fresh(w: Worker, f: SessionId, l: SessionId) {
    && Vacant(w) && f in w.fpBase && w.fpBase[f] == PRISTINE && f in w.cache && w.cache[f] == Runtime(NEW, map[])
    && f in w.store && w.store[f].meta == MARKED
    && w.slot.current == Some(l) && l in w.slot.adapters && w.slot.adapters[l] == ADAPTER
  }

  lemma FreshOpens(net: Network, w: Worker, f: SessionId, meta: Meta)
    requires f in w.cache && w.cache[f] == Runtime(meta, map[]) && meta.mode.FullParam?
    requires f in w.store && w.store[f].meta.totalSteps == meta.totalSteps
      && w.store[f].meta.accumSteps == meta.accumSteps
    ensures WorkerState.ForwardBackward(net, w, f, [7], 1, None)
      == BackwardAndSave(net, Activate(w, f, FullParam), f, Runtime(meta, map[]), [7], 1)
  {
    OpensInPlace(net, w, f, FullParam, [7], 1, false);
  }

  lemma FreshFaces(w: Worker, f: SessionId)
    requires Vacant(w) && f in w.fpBase && w.fpBase[f] == PRISTINE
    ensures Activate(w, f, FullParam) == w.(slot := w.slot.(active := Some(f), flags := Flags(true, None)))
  {
    LoadSame();
    TakesOver(w, f);
  }

  /** The facts a first pass leaves. */
  lemma FreshPass(w: Worker, f: SessionId, l: SessionId, v: Worker)
    requires Fresh(w, f, l) && v == WorkerState.ForwardBackward(NET, w, f, [7], 1, None)
    ensures Beside(v, f, l) && v.cache[f] == Runtime(PASSED, Ones(NameOf(v)))
    ensures v.slot.live == PRISTINE && v.slot.adapters == w.slot.adapters && v.slot.current == Some(l)
  {
    var facing := w.(slot := w.slot.(active := Some(f), flags := Flags(true, None)));
    FreshSaved(w, f, l, facing);
    FreshFacts(w, f, l, facing, v);
  }

  lemma FreshSaved(w: Worker, f: SessionId, l: SessionId, facing: Worker)
    requires Fresh(w, f, l) && facing == w.(slot := w.slot.(active := Some(f), flags := Flags(true, None)))
    ensures WorkerState.ForwardBackward(NET, w, f, [7], 1, None)
      == SavedLive(PassedTo(facing), f, Runtime(PASSED, Ones(NameOf(w))))
  {
    FreshHalf(NET, w, f, l, facing);
    FreshSecondHalf(facing, f, NameOf(w));
  }

  lemma FreshHalf(net: Network, w: Worker, f: SessionId, l: SessionId, facing: Worker)
    requires Fresh(w, f, l) && facing == w.(slot := w.slot.(active := Some(f), flags := Flags(true, None)))
    ensures WorkerState.ForwardBackward(net, w, f, [7], 1, None)
      == BackwardAndSave(net, facing, f, Runtime(NEW, map[]), [7], 1)
    ensures Freshly(facing, f, NameOf(w))
  {
    FreshOpens(net, w, f, NEW);
    FreshFaces(w, f);
  }

  lemma FreshSecondHalf(w: Worker, f: SessionId, k: LiveName)
    requires Freshly(w, f, k)
    ensures BackwardAndSave(NET, w, f, Runtime(NEW, map[]), [7], 1)
      == SavedLive(PassedTo(w), f, Runtime(PASSED, Ones(k)))
  {
    FirstPass(w, f, k, NEW, PASSED);
  }

  lemma FreshFacts(w: Worker, f: SessionId, l: SessionId, facing: Worker, v: Worker)
    requires Fresh(w, f, l) && facing == w.(slot := w.slot.(active := Some(f), flags := Flags(true, None)))
    requires v == SavedLive(PassedTo(facing), f, Runtime(PASSED, Ones(NameOf(w))))
    ensures Beside(v, f, l) && v.cache[f] == Runtime(PASSED, Ones(NameOf(v)))
    ensures v.slot.live == PRISTINE && v.slot.adapters == w.slot.adapters && v.slot.current == Some(l)
  {
  }

  /** And its files. */
  lemma FreshFiles(w: Worker, f: SessionId, facing: Worker, v: Worker)
    requires Vacant(w) && facing == w.(slot := w.slot.(active := Some(f), flags := Flags(true, None)))
    requires v == SavedLive(PassedTo(facing), f, Runtime(PASSED, Ones(NameOf(w))))
    ensures f in v.store && v.store[f] == Saved(PASSED, Some(PRISTINE), Some(Ones(NameOf(w))))
    ensures v.slot.pristine == PRISTINE && v.slot.left.adapters == map[] && v.slot.wrapped == w.slot.wrapped
    ensures forall s :: s != f ==> (s in v.cache <==> s in w.cache) && (s in v.store <==> s in w.store)
  {
    OnesAreThere(NameOf(w));
    AfterFacing(facing, PassedTo(facing));
    FilesOf(PassedTo(facing), f, NameOf(w), v);
  }

  lemma AfterFacing(w: Worker, v: Worker)
    requires v == PassedTo(w) && w.slot.flags == Flags(true, None)
    ensures v.slot.live == w.slot.live && v.slot.pristine == w.slot.pristine && v.slot.wrapped == w.slot.wrapped
    ensures v.slot.left.adapters == w.slot.left.adapters && v.cache == w.cache && v.store == w.store
  {
  }

  lemma FilesOf(w: Worker, f: SessionId, k: LiveName, v: Worker)
    requires v == SavedLive(w, f, Runtime(PASSED, Ones(k))) && Ones(k) != map[]
    ensures f in v.store && v.store[f] == Saved(PASSED, Some(w.slot.live), Some(Ones(k))) && v.slot == w.slot
    ensures forall s :: s != f ==> (s in v.cache <==> s in w.cache) && (s in v.store <==> s in w.store)
  {
  }

  // ---------- the second pass ----------

  lemma SecondAccumulated(k: LiveName, l: SessionId)
    requires !k.InAdapter?
    ensures Accumulated(Runtime(DONE, Zeroed(k, l)), Ones(k), 1) == Runtime(AGAIN, Mixed(k, l))
  {
    MixedSum(k, l);
  }

  lemma SecondPass(w: Worker, f: SessionId, l: SessionId)
    requires Beside(w, f, l) && w.slot.current == Some(l)
    requires w.cache[f] == Runtime(DONE, Zeroed(NameOf(w), l)) && w.slot.live == STEPPED
    ensures WorkerState.ForwardBackward(NET, w, f, [7], 1, None)
      == SavedLive(PassedTo(w), f, Runtime(AGAIN, Mixed(NameOf(w), l)))
  {
    NotStale(w, f);
    ActiveStays(w, f);
    SecondAccumulated(NameOf(w), l);
    OneKey();
    PassAgain(w, f, Runtime(DONE, Zeroed(NameOf(w), l)), Runtime(AGAIN, Mixed(NameOf(w), l)));
  }

  lemma OneKey()
    ensures STEPPED.Keys == {"a"}
  {
  }

  lemma PassAgain(w: Worker, f: SessionId, rt: Runtime, next: Runtime)
    requires f in w.cache && !Stale(w, f) && w.cache[f] == rt && rt.meta.mode.FullParam?
    requires w == Activate(w, f, FullParam) && w.slot.active == Some(f)
    requires w.slot.live.Keys == {"a"} && w.slot.flags.base && w.slot.current == w.slot.flags.adapter
    requires next == Accumulated(rt, Ones(NameOf(w)), 1)
    ensures WorkerState.ForwardBackward(NET, w, f, [7], 1, None) == SavedLive(PassedTo(w), f, next)
  {
    Pass(w, f, rt, w, next);
  }

  lemma SecondFacts(w: Worker, f: SessionId, l: SessionId, v: Worker)
    requires Beside(w, f, l) && w.slot.current == Some(l)
    requires v == SavedLive(PassedTo(w), f, Runtime(AGAIN, Mixed(NameOf(w), l)))
    ensures Beside(v, f, l) && v.cache[f] == Runtime(AGAIN, Mixed(NameOf(v), l))
    ensures v.slot.live == w.slot.live && v.slot.adapters == w.slot.adapters
  {
  }

  // ---------- the second step ----------

  lemma MixedMoves(w: Worker, l: SessionId)
    requires w.slot.live == STEPPED && w.slot.flags.base && l in w.slot.adapters && w.slot.adapters[l] == ADAPTER
    ensures var g := Mixed(NameOf(w), l); SteppedBase(NET, w, g) == LOWER && SteppedAdapter(NET, w, l, g) == HALVED
  {
    BaseFalls(w, l);
    AdapterFalls(w, l);
  }

  lemma BaseFalls(w: Worker, l: SessionId)
    requires w.slot.live == STEPPED && w.slot.flags.base
    ensures SteppedBase(NET, w, Mixed(NameOf(w), l)) == LOWER
  {
    MixedBase(w.slot.wrapped, l);
    BaseMovesTo(NET, w, Mixed(NameOf(w), l), map["a" := 1.0], LOWER);
  }

  lemma AdapterFalls(w: Worker, l: SessionId)
    requires l in w.slot.adapters && w.slot.adapters[l] == ADAPTER
    ensures SteppedAdapter(NET, w, l, Mixed(NameOf(w), l)) == HALVED
  {
    MixedAdapter(NameOf(w), l, w.slot.live);
    AdapterMovesTo(NET, w, l, Mixed(NameOf(w), l), map["x" := 0.0], HALVED);
  }

  lemma BaseMovesTo(net: Network, w: Worker, g: Grads, own: ParamGrads, to: Weights)
    requires w.slot.flags.base && BaseGrads(w.slot.wrapped, w.slot.live, g) == own && "a" in own
    requires Load(w.slot.live, net.fpStep(w.slot.live, own)) == to
    ensures SteppedBase(net, w, g) == to
  {
  }

  lemma AdapterMovesTo(net: Network, w: Worker, l: SessionId, g: Grads, own: ParamGrads, to: Weights)
    requires l in w.slot.adapters && AdapterGrads(l, w.slot.adapters[l], g) == own && "x" in own
    requires Load(w.slot.adapters[l], net.loraStep(w.slot.live, w.slot.adapters[l], own)) == to
    ensures SteppedAdapter(net, w, l, g) == to
  {
  }

  lemma MixedBase(wrapped: set<ParamName>, l: SessionId)
    ensures BaseGrads(wrapped, STEPPED, Mixed(BaseName(wrapped, "a"), l)) == map["a" := 1.0]
    ensures Load(STEPPED, NET.fpStep(STEPPED, map["a" := 1.0])) == LOWER
  {
    assert Read(map["a" := 1.0], "a") == 1.0;
    assert NET.fpStep(STEPPED, map["a" := 1.0]) == LOWER;
  }

  lemma MixedAdapter(k: LiveName, l: SessionId, base: Weights)
    requires !k.InAdapter?
    ensures AdapterGrads(l, ADAPTER, Mixed(k, l)) == map["x" := 0.0]
    ensures Load(ADAPTER, NET.loraStep(base, ADAPTER, map["x" := 0.0])) == HALVED
  {
    assert Read(map["x" := 0.0], "x") == 0.0;
    assert NET.loraStep(base, ADAPTER, map["x" := 0.0]) == HALVED;
  }

  lemma SecondStep(net: Network, w: Worker, f: SessionId, l: SessionId)
    requires Beside(w, f, l) && w.cache[f].grads == Mixed(NameOf(w), l)
    requires w.slot.live == STEPPED && w.slot.adapters[l] == ADAPTER
    requires SteppedBase(net, w, Mixed(NameOf(w), l)) == LOWER
      && SteppedAdapter(net, w, l, Mixed(NameOf(w), l)) == HALVED
    ensures WorkerState.OptimStep(net, w, f, false, None)
      == SavedLive(Moved(w, l, LOWER, HALVED), f, Stepped(w.cache[f], Both(NameOf(w), l)))
  {
    assert NameOf(w) in Mixed(NameOf(w), l);
    assert STEPPED.Keys == {"a"} && ADAPTER.Keys == {"x"};
    SharedStep(net, w, f, l, Mixed(NameOf(w), l), LOWER, HALVED, Stepped(w.cache[f], Both(NameOf(w), l)));
  }

  // ---------- twice a pass and a step ----------

  const PASS := ForwardBackward("f", [7], 1, None)
  const STEP := OptimStep("f", false, None)

  predicate PassedOnce(w: Worker) {
    && Beside(w, "f", "l") && w.cache["f"] == Runtime(PASSED, Ones(NameOf(w)))
    && w.slot.live == PRISTINE && w.slot.adapters["l"] == ADAPTER && w.slot.current == Some("l")
  }

  predicate SteppedOnce(w: Worker) {
    && Beside(w, "f", "l") && w.cache["f"] == Runtime(DONE, Zeroed(NameOf(w), "l"))
    && w.slot.live == STEPPED && w.slot.adapters["l"] == ADAPTER && w.slot.current == Some("l")
  }

  predicate PassedTwice(w: Worker) {
    && Beside(w, "f", "l") && w.cache["f"] == Runtime(AGAIN, Mixed(NameOf(w), "l"))
    && w.slot.live == STEPPED && w.slot.adapters["l"] == ADAPTER
  }

  lemma AfterFirstPass(es: seq<Event>, w: Worker, v: Worker)
    requires w == Run(NET, PRISTINE, es) && Fresh(w, "f", "l") && v == Run(NET, PRISTINE, es + [PASS])
    ensures Beside(v, "f", "l") && v.cache["f"] == Runtime(PASSED, Ones(NameOf(v)))
    ensures v.slot.live == PRISTINE && v.slot.adapters["l"] == ADAPTER && v.slot.current == Some("l")
  {
    PassStep(NET, w, "f", None);
    RunOn(es, PASS, w, WorkerState.ForwardBackward(NET, w, "f", [7], 1, None));
    FreshPass(w, "f", "l", v);
  }

  lemma AfterFirstStep(es: seq<Event>, w: Worker, v: Worker)
    requires w == Run(NET, PRISTINE, es) && v == Run(NET, PRISTINE, es + [STEP])
    requires PassedOnce(w)
    ensures Beside(v, "f", "l") && v.cache["f"] == Runtime(DONE, Zeroed(NameOf(v), "l"))
    ensures v.slot.live == STEPPED && v.slot.adapters["l"] == ADAPTER && v.slot.current == Some("l")
  {
    OptimizerStep(NET, w, "f");
    RunOn(es, STEP, w, WorkerState.OptimStep(NET, w, "f", false, None));
    CountedPassed();
    FirstStepFacts(w, "f", "l", PASSED, v);
  }

  lemma CountedPassed()
    ensures Counted(PASSED) == DONE
  {
  }

  lemma AfterSecondPass(es: seq<Event>, w: Worker, v: Worker)
    requires w == Run(NET, PRISTINE, es) && v == Run(NET, PRISTINE, es + [PASS])
    requires SteppedOnce(w)
    ensures Beside(v, "f", "l") && v.cache["f"] == Runtime(AGAIN, Mixed(NameOf(v), "l"))
    ensures v.slot.live == STEPPED && v.slot.adapters["l"] == ADAPTER
  {
    PassStep(NET, w, "f", None);
    SecondPass(w, "f", "l");
    RunOn(es, PASS, w, SavedLive(PassedTo(w), "f", Runtime(AGAIN, Mixed(NameOf(w), "l"))));
    SecondFacts(w, "f", "l", v);
  }

  lemma AfterSecondStep(es: seq<Event>, w: Worker, v: Worker)
    requires w == Run(NET, PRISTINE, es) && v == Run(NET, PRISTINE, es + [STEP])
    requires PassedTwice(w)
    ensures "l" in v.slot.adapters && v.slot.adapters["l"] == HALVED
  {
    OptimizerStep(NET, w, "f");
    MixedMoves(w, "l");
    SecondStep(NET, w, "f", "l");
    var after := SavedLive(Moved(w, "l", LOWER, HALVED), "f", Stepped(w.cache["f"], Both(NameOf(w), "l")));
    RunOn(es, STEP, w, after);
    MovedFacts(w, "f", "l", LOWER, HALVED, Stepped(w.cache["f"], Both(NameOf(w), "l")), after);
  }

  function Once(es: seq<Event>): seq<Event> {
    es + [PASS] + [STEP]
  }

  function Twice(es: seq<Event>): seq<Event> {
    Once(Once(es))
  }

  /** Whatever came before, the second step of `f` halves the adapter of `l`. */
  lemma SecondStepHalves(es: seq<Event>)
    requires Fresh(Run(NET, PRISTINE, es), "f", "l")
    ensures var w := Run(NET, PRISTINE, Twice(es)); "l" in w.slot.adapters && w.slot.adapters["l"] == HALVED
  {
    FirstOnce(es);
    SecondOnce(Once(es), Run(NET, PRISTINE, Once(es)), Run(NET, PRISTINE, Twice(es)));
  }

  lemma FirstOnce(es: seq<Event>)
    requires Fresh(Run(NET, PRISTINE, es), "f", "l")
    ensures SteppedOnce(Run(NET, PRISTINE, Once(es)))
  {
    FirstCycle(es, es + [PASS], Run(NET, PRISTINE, es), Run(NET, PRISTINE, Once(es)));
  }

  lemma SecondOnce(es: seq<Event>, w: Worker, v: Worker)
    requires w == Run(NET, PRISTINE, es) && SteppedOnce(w) && v == Run(NET, PRISTINE, Once(es))
    ensures "l" in v.slot.adapters && v.slot.adapters["l"] == HALVED
  {
    SecondCycle(es, es + [PASS], w, v);
  }

  lemma FirstCycle(es: seq<Event>, es1: seq<Event>, w: Worker, v: Worker)
    requires es1 == es + [PASS] && w == Run(NET, PRISTINE, es) && Fresh(w, "f", "l")
      && v == Run(NET, PRISTINE, es1 + [STEP])
    ensures Beside(v, "f", "l") && v.cache["f"] == Runtime(DONE, Zeroed(NameOf(v), "l"))
    ensures v.slot.live == STEPPED && v.slot.adapters["l"] == ADAPTER && v.slot.current == Some("l")
  {
    AfterFirstPass(es, w, Run(NET, PRISTINE, es1));
    AfterFirstStep(es1, Run(NET, PRISTINE, es1), v);
  }

  lemma SecondCycle(es: seq<Event>, es1: seq<Event>, w: Worker, v: Worker)
    requires es1 == es + [PASS] && w == Run(NET, PRISTINE, es) && SteppedOnce(w)
      && v == Run(NET, PRISTINE, es1 + [STEP])
    ensures "l" in v.slot.adapters && v.slot.adapters["l"] == HALVED
  {
    AfterSecondPass(es, w, Run(NET, PRISTINE, es1));
    AfterSecondStep(es1, Run(NET, PRISTINE, es1), v);
  }

  lemma OtherJob(es: seq<Event>, e: Event, s: SessionId)
    requires e.session != s
    ensures Alone(NET, PRISTINE, s, es + [e]) == Alone(NET, PRISTINE, s, es)
  {
    assert (es + [e])[..|es|] == es;
  }

  lemma NoJobOfL(es: seq<Event>)
    ensures Alone(NET, PRISTINE, "l", Twice(es)) == Alone(NET, PRISTINE, "l", es)
  {
    NotOfL(es);
    NotOfL(Once(es));
  }

  lemma NotOfL(es: seq<Event>)
    ensures Alone(NET, PRISTINE, "l", Once(es)) == Alone(NET, PRISTINE, "l", es)
  {
    OtherJob(es, PASS, "l");
    OtherJob(es + [PASS], STEP, "l");
  }

  lemma HalfIsLess()
    ensures HALVED != ADAPTER
  {
    assert HALVED["x"] != ADAPTER["x"];
  }

  // ---------- beside the adapter that was attached last ----------

  const SHARED := INIT + [InitLora("l", LAYER, ADAPTER, None)]

  lemma AttachedFacts(w: Worker, v: Worker)
    requires Vacant(w) && "f" in w.cache && "f" in w.store && "f" in w.fpBase && v == Attached(w, "l", LAYER)
    ensures Vacant(v) && "f" in v.cache && v.cache["f"] == w.cache["f"] && "f" in v.store
      && v.store["f"] == w.store["f"]
    ensures v.fpBase == w.fpBase && v.slot.current == Some("l") && "l" in v.slot.adapters
      && v.slot.adapters["l"] == ADAPTER
  {
  }

  lemma AttachedMore(w: Worker, v: Worker)
    requires v == Attached(w, "l", LAYER)
    ensures "m" !in w.cache && "m" !in w.store ==> "m" !in v.cache && "m" !in v.store
    ensures v.slot.wrapped == w.slot.wrapped + LAYER
  {
  }

  lemma CreatedMore()
    ensures "f" in CREATED.cache && CREATED.cache["f"] == Runtime(NEW, map[]) && "f" in CREATED.fpBase
      && CREATED.fpBase["f"] == PRISTINE
    ensures "l" !in CREATED.cache && "l" !in CREATED.store && "m" !in CREATED.cache && "m" !in CREATED.store
    ensures CREATED.slot.wrapped == {}
  {
  }

  lemma SharedMore(w: Worker)
    requires w == Run(NET, PRISTINE, SHARED)
    ensures "m" !in w.cache && "m" !in w.store && w.slot.wrapped == LAYER
  {
    InitRun();
    CreatedMore();
    AttachesLast(INIT, "l");
    AttachesToCreated(CREATED, w);
  }

  lemma AttachesToCreated(w: Worker, v: Worker)
    requires "l" !in w.cache && "l" !in w.store && "m" !in w.cache && "m" !in w.store && w.slot.wrapped == {}
    requires v == WorkerState.InitLora(w, "l", LAYER, ADAPTER, None)
    ensures "m" !in v.cache && "m" !in v.store && v.slot.wrapped == LAYER
  {
    Attaches(w, "l", LAYER);
    AttachedMore(w, v);
  }

  lemma SharedRun(w: Worker)
    requires w == Run(NET, PRISTINE, SHARED)
    ensures Fresh(w, "f", "l")
  {
    var before := Run(NET, PRISTINE, INIT);
    InitRun();
    CreatedFacts();
    CreatedMore();
    Attaches(before, "l", LAYER);
    AttachStep(NET, before, "l", LAYER, None);
    RunOn(INIT, InitLora("l", LAYER, ADAPTER, None), before, Attached(before, "l", LAYER));
    AttachedFacts(before, w);
  }

  lemma StartOfL()
    ensures Alone(NET, PRISTINE, "l", SHARED) == Some(Begin(Lora, LAYER, ADAPTER))
  {
    assert SHARED[..1] == INIT;
  }

  /**
   * create f; create adapter l; pass and step f twice. No job of l has run, and its adapter has
   * moved: the zeros that f's first step kept for it are stepped with weight decay by the second.
   */
  lemma StepsWearDown()
    ensures var w := Run(NET, PRISTINE, Twice(SHARED));
      "l" in w.slot.adapters && w.slot.adapters["l"] == HALVED != ADAPTER
    ensures Alone(NET, PRISTINE, "l", Twice(SHARED)) == Some(Begin(Lora, LAYER, ADAPTER))
  {
    SharedRun(Run(NET, PRISTINE, SHARED));
    SecondStepHalves(SHARED);
    HalfIsLess();
    NoJobOfL(SHARED);
    StartOfL();
  }

  // ---------- beside the adapter that inherits ----------

  const ONE := [InitLora("l", LAYER, ADAPTER, None)]
  const TWO := ONE + [InitLora("m", LAYER, ADAPTER, None)]
  const HEIR := TWO + [InitFullParam("f", [], Some("m"))]

  /** An adapter session, just attached to an idle worker. */
  lemma AttachFacts(w: Worker, l: SessionId, v: Worker)
    requires Vacant(w) && l !in w.cache && l !in w.store && v == WorkerState.InitLora(w, l, LAYER, ADAPTER, None)
    ensures Vacant(v) && v.slot.current == Some(l) && v.slot.adapters == w.slot.adapters[l := ADAPTER]
      && v.fpBase == w.fpBase
    ensures l in v.cache && v.cache[l].meta.mode.Lora?
    ensures forall s :: s != l ==> (s in v.cache <==> s in w.cache) && (s in v.store <==> s in w.store)
    ensures v.cache == w.cache[l := v.cache[l]]
  {
    Attaches(w, l, LAYER);
  }

  lemma BootFacts()
    ensures Vacant(Boot(PRISTINE)) && Boot(PRISTINE).cache == map[] && Boot(PRISTINE).store == map[]
    ensures Boot(PRISTINE).slot.adapters == map[] && Boot(PRISTINE).fpBase == map[]
  {
  }

  lemma OneRun(w: Worker)
    requires w == Run(NET, PRISTINE, ONE)
    ensures Vacant(w) && w.slot.adapters == map["l" := ADAPTER] && w.fpBase == map[]
    ensures "m" !in w.cache && "m" !in w.store && "f" !in w.cache && "f" !in w.store
  {
    BootFacts();
    assert [] + ONE == ONE;
    AttachesLast([], "l");
    FirstAttach(Run(NET, PRISTINE, []), w);
  }

  lemma FirstAttach(w: Worker, v: Worker)
    requires Vacant(w) && w.cache == map[] && w.store == map[] && w.slot.adapters == map[] && w.fpBase == map[]
    requires v == WorkerState.InitLora(w, "l", LAYER, ADAPTER, None)
    ensures Vacant(v) && v.slot.adapters == map["l" := ADAPTER] && v.fpBase == map[]
    ensures "m" !in v.cache && "m" !in v.store && "f" !in v.cache && "f" !in v.store
  {
    AttachFacts(w, "l", v);
    OneIndex(w, v);
  }

  lemma AttachesLast(es: seq<Event>, l: SessionId)
    ensures Run(NET, PRISTINE, es + [InitLora(l, LAYER, ADAPTER, None)])
      == WorkerState.InitLora(Run(NET, PRISTINE, es), l, LAYER, ADAPTER, None)
  {
    assert (es + [InitLora(l, LAYER, ADAPTER, None)])[..|es|] == es;
  }

  lemma OneIndex(w: Worker, v: Worker)
    requires w.cache == map[] && w.store == map[] && w.slot.adapters == map[]
    requires v.slot.adapters == w.slot.adapters["l" := ADAPTER]
    requires forall s :: s != "l" ==> (s in v.cache <==> s in w.cache) && (s in v.store <==> s in w.store)
    ensures v.slot.adapters == map["l" := ADAPTER]
    ensures "m" !in v.cache && "m" !in v.store && "f" !in v.cache && "f" !in v.store
  {
    assert "m" != "l" && "f" != "l";
  }

  lemma TwoRun(w: Worker)
    requires w == Run(NET, PRISTINE, TWO)
    ensures Vacant(w) && w.slot.adapters == map["l" := ADAPTER, "m" := ADAPTER] && w.fpBase == map[]
    ensures w.slot.current == Some("m") && "m" in w.cache && w.cache["m"].meta.mode.Lora? && "f" !in w.cache
      && "f" !in w.store
  {
    var before := Run(NET, PRISTINE, ONE);
    OneRun(before);
    AttachesLast(ONE, "m");
    AttachFacts(before, "m", w);
  }

  /** The new session takes the place of the one whose adapter is current. */
  lemma Inherits(w: Worker, f: SessionId, l: SessionId, m: SessionId, v: Worker)
    requires Vacant(w) && l != m && f != l && f != m && w.slot.adapters == map[l := ADAPTER, m := ADAPTER]
      && w.fpBase == map[]
    requires w.slot.current == Some(m) && m in w.cache && w.cache[m].meta.mode.Lora? && f !in w.cache && f !in w.store
    requires v == WorkerState.InitFullParam(w, f, [], Some(m))
    ensures Fresh(v, f, l)
  {
    var rt := Runtime(NEW, map[]);
    var put := w.(fpBase := w.fpBase[f := PRISTINE], cache := w.cache[f := rt]);
    assert AttachFullParam(w, f, map[]) == w.(fpBase := w.fpBase[f := PRISTINE]);
    assert v == SaveMarker(Evict(put, m), f, rt);
    OneHeir(put.(cache := Without(put.cache, m)), l, m);
    HeirFacts(put, f, l, m, Evict(put, m));
  }

  lemma OneHeir(w: Worker, l: SessionId, m: SessionId)
    requires l != m && w.slot.adapters == map[l := ADAPTER, m := ADAPTER] && w.slot.current == Some(m)
    ensures var v := Deleted(w, m); v.slot.current == Some(l) && v.slot.adapters == map[l := ADAPTER]
    ensures var v := Deleted(w, m);
      v.slot.live == w.slot.live && v.slot.pristine == w.slot.pristine && v.slot.active == w.slot.active
      && (w.slot.left.adapters == map[] ==> v.slot.left.adapters == map[])
  {
    var rest := Without(w.slot.adapters, m);
    assert rest == map[l := ADAPTER];
    OnlyHeir(rest, l);
  }

  lemma OnlyHeir(adapters: map<SessionId, Weights>, l: SessionId)
    requires adapters == map[l := ADAPTER]
    ensures Heir(adapters) == Some(l)
  {
    assert l in adapters;
  }

  lemma HeirFacts(put: Worker, f: SessionId, l: SessionId, m: SessionId, out: Worker)
    requires Vacant(put) && f != m && m in put.cache && put.cache[m].meta.mode.Lora? && f !in put.store
    requires f in put.fpBase && put.fpBase[f] == PRISTINE && f in put.cache && put.cache[f] == Runtime(NEW, map[])
    requires out == Evict(put, m)
    requires var v := Deleted(put.(cache := Without(put.cache, m)), m);
      v.slot.current == Some(l) && l in v.slot.adapters && v.slot.adapters[l] == ADAPTER
      && v.slot.live == PRISTINE && v.slot.pristine == PRISTINE && v.slot.active == None
        && v.slot.left.adapters == map[]
    ensures Fresh(SaveMarker(out, f, Runtime(NEW, map[])), f, l)
  {
  }

  lemma HeirRun(w: Worker)
    requires w == Run(NET, PRISTINE, HEIR)
    ensures Fresh(w, "f", "l")
  {
    var before := Run(NET, PRISTINE, TWO);
    TwoRun(before);
    MakesRoom(TWO);
    Inherits(before, "f", "l", "m", w);
  }

  lemma MakesRoom(es: seq<Event>)
    ensures Run(NET, PRISTINE, es + [InitFullParam("f", [], Some("m"))])
      == WorkerState.InitFullParam(Run(NET, PRISTINE, es), "f", [], Some("m"))
  {
    assert (es + [InitFullParam("f", [], Some("m"))])[..|es|] == es;
  }

  lemma HeirAlone()
    ensures Alone(NET, PRISTINE, "l", HEIR) == Some(Begin(Lora, LAYER, ADAPTER))
  {
    OtherJob(TWO, InitFullParam("f", [], Some("m")), "l");
    OtherJob(ONE, InitLora("m", LAYER, ADAPTER, None), "l");
    assert ONE[..0] == [];
  }

  /**
   * create adapters l and m; create f in the place of m; pass and step f twice. Deleting m has
   * selected l's adapter, which is worn down in the same way.
   */
  lemma HeirIsWornDown()
    ensures var w := Run(NET, PRISTINE, Twice(HEIR));
      "l" in w.slot.adapters && w.slot.adapters["l"] == HALVED != ADAPTER
    ensures Alone(NET, PRISTINE, "l", Twice(HEIR)) == Some(Begin(Lora, LAYER, ADAPTER))
  {
    HeirRun(Run(NET, PRISTINE, HEIR));
    SecondStepHalves(HEIR);
    HalfIsLess();
    NoJobOfL(HEIR);
    HeirAlone();
  }
}
