/** A run in which a full-parameter step takes another session's gradient. */
module WitnessLeftovers {
  import opened Basics
  import opened JobTypes
  import opened WorkerState
  import opened WorkerInvariants
  import opened WorkerHandlers
  import opened PrivateSessions
  import opened NewSessions
  import opened WorkerRuns
  import opened LeftoverGradients
  import WG = WorkerGradients
  import opened WitnessRuns
  import opened WitnessLimits
  import opened WitnessSharing

  /** Every gradient is one, and a step subtracts it: there is no weight decay. */
  const PLAIN := Network(
    (weights: Weights, batch: Batch) => map n | n in weights :: 1.0,
    (base: Weights, adapter: Weights, batch: Batch) => map n | n in adapter :: 1.0,
    (weights: Weights, g: ParamGrads) => map n | n in weights :: weights[n] - Read(g, n),
    (base: Weights, adapter: Weights, g: ParamGrads) => map n | n in adapter :: adapter[n] - Read(g, n))

  const ONE_X: ParamGrads := map["x" := 1.0]

  lemma PlainIsHarmless()
    ensures Trains(PLAIN) && ZeroStepsAreHarmless(PLAIN)
  {
    forall base: Weights, adapter: Weights, g: ParamGrads | AllZero(g)
      ensures Load(adapter, PLAIN.loraStep(base, adapter, g)) == adapter
    {
      forall n | n in adapter
        ensures Read(g, n) == 0.0
      {
      }
    }
  }

  lemma PlainGradients()
    ensures PLAIN.fpGrad(PRISTINE, [7]) == map["a" := 1.0]
    ensures Restrict(ADAPTER, PLAIN.loraGrad(PRISTINE, ADAPTER, [7])) == ONE_X
  {
  }

  // ---------- the adapter session makes a pass ----------

  /** An adapter session, new on an idle worker. */
  predicate Begun(w: Worker, l: SessionId) {
    && Vacant(w) && w.slot.current == Some(l) && w.slot.adapters == map[l := ADAPTER] && w.fpBase == map[]
    && w.cache.Keys == {l} && w.store.Keys == {l} && w.cache[l] == Runtime(NewMeta(Lora, LAYER), map[])
    && w.store[l].meta == w.cache[l].meta
  }

  lemma Begins(w: Worker, l: SessionId, v: Worker)
    requires Vacant(w) && w.cache == map[] && w.store == map[] && w.slot.adapters == map[] && w.fpBase == map[]
    requires v == WorkerState.InitLora(w, l, LAYER, ADAPTER, None)
    ensures Begun(v, l)
  {
    Attaches(w, l, LAYER);
  }

  /** It has made one pass: the gradient is in its accumulator and still at its adapter. */
  predicate HasPassed(w: Worker, l: SessionId) {
    && w.slot.live == PRISTINE && w.slot.pristine == PRISTINE && w.slot.active == Some(l)
    && w.slot.current == Some(l) && w.slot.adapters == map[l := ADAPTER] && w.slot.left.adapters == map[l := ONE_X]
    && w.fpBase == map[] && w.cache.Keys == {l} && w.store.Keys == {l} && w.cache[l].meta.mode.Lora?
  }

  lemma AdapterPasses(net: Network, w: Worker, l: SessionId, v: Worker)
    requires Begun(w, l) && v == WorkerState.ForwardBackward(net, w, l, [7], 1, None)
    requires Restrict(ADAPTER, net.loraGrad(PRISTINE, ADAPTER, [7])) == ONE_X
    ensures HasPassed(v, l)
  {
    var rt, facing := w.cache[l], w.(slot := w.slot.(active := Some(l), flags := Flags(false, Some(l))));
    OpensInPlace(net, w, l, Lora, [7], 1, false);
    assert Activate(w, l, Lora) == facing;
    AdapterFills(net, facing, l, rt, v);
  }

  lemma AdapterFills(net: Network, w: Worker, l: SessionId, rt: Runtime, v: Worker)
    requires w.slot.current == Some(l) && w.slot.adapters == map[l := ADAPTER] && w.slot.live == PRISTINE
      && w.slot.pristine == PRISTINE
    requires w.slot.active == Some(l) && w.slot.flags == Flags(false, Some(l)) && w.slot.left.adapters == map[]
    requires w.fpBase == map[] && w.cache.Keys == {l} && w.store.Keys == {l} && rt.meta.mode.Lora?
    requires Restrict(ADAPTER, net.loraGrad(PRISTINE, ADAPTER, [7])) == ONE_X
      && v == BackwardAndSave(net, w, l, rt, [7], 1)
    ensures HasPassed(v, l)
  {
    var after := AfterPass(net, w, l, Lora, [7]);
    FilledAdapter(net, w, l, after);
    AdapterSaved(after, l, Accumulated(rt, Collected(after), 1));
  }

  lemma FilledAdapter(net: Network, w: Worker, l: SessionId, v: Worker)
    requires w.slot.current == Some(l) && w.slot.adapters == map[l := ADAPTER] && w.slot.live == PRISTINE
    requires w.slot.flags == Flags(false, Some(l)) && w.slot.left.adapters == map[]
    requires Restrict(ADAPTER, net.loraGrad(PRISTINE, ADAPTER, [7])) == ONE_X && v == AfterPass(net, w, l, Lora, [7])
    ensures v == w.(slot := w.slot.(left := Left(w.slot.left.base, map[l := ONE_X])))
  {
  }

  lemma AdapterSaved(w: Worker, l: SessionId, next: Runtime)
    requires l in w.cache && l in w.slot.adapters && next.meta.mode.Lora? && l in w.store
    ensures var v := Save(Keep(w, l, next), l, next);
      v.slot == w.slot && v.fpBase == w.fpBase && v.cache == w.cache[l := next] && v.store.Keys == w.store.Keys
  {
  }

  // ---------- a full-parameter session is created ----------

  /** A full-parameter session has come to the adapter session. */
  predicate Joined(w: Worker, l: SessionId, f: SessionId) {
    && w.slot.live == PRISTINE && w.slot.pristine == PRISTINE && w.slot.active == Some(l)
    && w.slot.current == Some(l) && w.slot.adapters == map[l := ADAPTER] && w.slot.left.adapters == map[l := ONE_X]
    && l in w.cache && w.cache[l].meta.mode.Lora? && f in w.fpBase && w.fpBase[f] == PRISTINE
    && f in w.cache && w.cache[f] == Runtime(NEW, map[]) && f in w.store && w.store[f].meta == MARKED
  }

  lemma Joins(w: Worker, l: SessionId, f: SessionId, v: Worker)
    requires HasPassed(w, l) && f != l && v == WorkerState.InitFullParam(w, f, [], None)
    ensures Joined(v, l, f)
  {
  }

  // ---------- its pass ----------

  /** What its accumulator holds: the gradient of the base, and that of the other session's adapter. */
  function Taken(k: LiveName, l: SessionId): Grads {
    map[k := 1.0, InAdapter(l, "x") := 1.0]
  }

  predicate HasTaken(w: Worker, l: SessionId, f: SessionId) {
    && Beside(w, f, l) && w.cache[f] == Runtime(PASSED, Taken(NameOf(w), l))
    && w.slot.live == PRISTINE && w.slot.adapters == map[l := ADAPTER]
  }

  lemma Faces(w: Worker, l: SessionId, f: SessionId)
    requires Joined(w, l, f) && f != l
    ensures Activate(w, f, FullParam) == w.(slot := w.slot.(active := Some(f), flags := Flags(true, None)))
  {
    LoadSame();
  }

  lemma TakesGradient(net: Network, w: Worker, l: SessionId, f: SessionId, v: Worker)
    requires Joined(w, l, f) && f != l && v == WorkerState.ForwardBackward(net, w, f, [7], 1, None)
    requires net.fpGrad(PRISTINE, [7]) == map["a" := 1.0]
    ensures HasTaken(v, l, f)
  {
    var facing := w.(slot := w.slot.(active := Some(f), flags := Flags(true, None)));
    Faces(w, l, f);
    FreshOpens(net, w, f, NEW);
    FacingTakes(net, facing, l, f, v);
  }

  lemma FacingTakes(net: Network, w: Worker, l: SessionId, f: SessionId, v: Worker)
    requires w.slot.live == PRISTINE && w.slot.flags == Flags(true, None) && w.slot.active == Some(f)
      && w.slot.current == Some(l)
    requires w.slot.adapters == map[l := ADAPTER] && w.slot.left.adapters == map[l := ONE_X]
    requires f in w.cache && net.fpGrad(PRISTINE, [7]) == map["a" := 1.0]
    requires v == BackwardAndSave(net, w, f, Runtime(NEW, map[]), [7], 1)
    ensures HasTaken(v, l, f)
  {
    OneParameterEach();
    FillsOnes(net, w, f);
    OneLeftover(w, l);
    CollectedFullParam(net, w, f, [7], PassedTo(w));
    OneName(w.slot.wrapped, PRISTINE, map["a" := 1.0]);
    Together(NameOf(w), l);
    PassThenSave(net, w, f, Runtime(NEW, map[]), PassedTo(w), Runtime(PASSED, Taken(NameOf(w), l)));
    TakenFacts(w, l, f, v);
  }

  lemma OneLeftover(w: Worker, l: SessionId)
    requires w.slot.flags == Flags(true, None) && w.slot.current == Some(l)
    requires w.slot.adapters == map[l := ADAPTER] && w.slot.left.adapters == map[l := ONE_X]
    ensures Strays(w, FullParam) == map[InAdapter(l, "x") := 1.0]
  {
    assert "x" in ADAPTER && "x" in ONE_X;
  }

  lemma Together(k: LiveName, l: SessionId)
    requires !k.InAdapter?
    ensures Accumulated(Runtime(NEW, map[]), Ones(k) + map[InAdapter(l, "x") := 1.0], 1) == Runtime(PASSED, Taken(k, l))
  {
    var g := Ones(k) + map[InAdapter(l, "x") := 1.0];
    assert g == Taken(k, l);
    var sum := Sum(map[], g);
    assert sum[k] == Read(sum, k) && sum[InAdapter(l, "x")] == Read(sum, InAdapter(l, "x"));
    assert sum == Taken(k, l);
  }

  lemma TakenFacts(w: Worker, l: SessionId, f: SessionId, v: Worker)
    requires w.slot.live == PRISTINE && w.slot.flags == Flags(true, None) && w.slot.active == Some(f)
      && w.slot.current == Some(l)
    requires w.slot.adapters == map[l := ADAPTER]
      && v == SavedLive(PassedTo(w), f, Runtime(PASSED, Taken(NameOf(w), l)))
    ensures HasTaken(v, l, f)
  {
  }

  // ---------- its step ----------

  lemma TakenMoves(w: Worker, l: SessionId)
    requires l in w.slot.adapters && w.slot.adapters[l] == ADAPTER
    ensures SteppedAdapter(PLAIN, w, l, Taken(NameOf(w), l)) == HALVED
  {
    TakenOwn(NameOf(w), l);
    PlainStep(w.slot.live);
    AdapterMovesTo(PLAIN, w, l, Taken(NameOf(w), l), ONE_X, HALVED);
  }

  lemma TakenOwn(k: LiveName, l: SessionId)
    requires !k.InAdapter?
    ensures AdapterGrads(l, ADAPTER, Taken(k, l)) == ONE_X && "x" in ONE_X
  {
  }

  lemma PlainStep(base: Weights)
    ensures Load(ADAPTER, PLAIN.loraStep(base, ADAPTER, ONE_X)) == HALVED
  {
    assert Read(ONE_X, "x") == 1.0;
    assert PLAIN.loraStep(base, ADAPTER, ONE_X) == HALVED;
  }

  lemma StepTakes(net: Network, w: Worker, l: SessionId, f: SessionId, v: Worker)
    requires HasTaken(w, l, f) && SteppedAdapter(net, w, l, Taken(NameOf(w), l)) == HALVED
    requires v == WorkerState.OptimStep(net, w, f, false, None)
    ensures l in v.slot.adapters && v.slot.adapters[l] == HALVED
  {
    var g := Taken(NameOf(w), l);
    assert NameOf(w) in g;
    OneParameterEach();
    var base, next := SteppedBase(net, w, g), Stepped(w.cache[f], Both(NameOf(w), l));
    SharedStep(net, w, f, l, g, base, HALVED, next);
    MovedFacts(w, f, l, base, HALVED, next, v);
  }

  // ---------- the run ----------

  const L1 := [InitLora("l", LAYER, ADAPTER, None)]
  const L2 := L1 + [ForwardBackward("l", [7], 1, None)]
  const L3 := L2 + [InitFullParam("f", [], None)]
  const L4 := L3 + [ForwardBackward("f", [7], 1, None)]

  lemma Next(es: seq<Event>, e: Event, w: Worker)
    requires w == Run(PLAIN, PRISTINE, es)
    ensures Run(PLAIN, PRISTINE, es + [e]) == Step(PLAIN, w, e)
  {
    assert (es + [e])[..|es|] == es;
  }

  lemma NextIsLegal(es: seq<Event>, e: Event, w: Worker)
    requires w == Run(PLAIN, PRISTINE, es) && LegalRun(PLAIN, PRISTINE, es) && Legal(PLAIN, w, e)
    ensures LegalRun(PLAIN, PRISTINE, es + [e])
  {
    assert (es + [e])[..|es|] == es;
  }

  lemma FirstJob(w: Worker)
    requires w == Run(PLAIN, PRISTINE, L1)
    ensures Begun(w, "l")
  {
    var boot := Run(PLAIN, PRISTINE, []);
    BootFacts();
    assert [] + L1 == L1;
    Next([], L1[0], boot);
    AttachStep(PLAIN, boot, "l", LAYER, None);
    Begins(boot, "l", w);
  }

  lemma FirstIsLegal()
    ensures LegalRun(PLAIN, PRISTINE, L1)
  {
    BootFacts();
    assert [] + L1 == L1;
    MayBegin(Run(PLAIN, PRISTINE, []), "l");
    NextIsLegal([], L1[0], Run(PLAIN, PRISTINE, []));
  }

  lemma MayBegin(w: Worker, l: SessionId)
    requires w.store == map[] && w.cache == map[]
    ensures Legal(PLAIN, w, InitLora(l, LAYER, ADAPTER, None))
  {
    assert "x" in ADAPTER;
  }

  lemma SecondJob(w: Worker)
    requires w == Run(PLAIN, PRISTINE, L2)
    ensures HasPassed(w, "l")
  {
    var before := Run(PLAIN, PRISTINE, L1);
    FirstJob(before);
    Next(L1, ForwardBackward("l", [7], 1, None), before);
    PassStep(PLAIN, before, "l", None);
    PassesWithPlain(before, w);
  }

  lemma PassesWithPlain(w: Worker, v: Worker)
    requires Begun(w, "l") && v == WorkerState.ForwardBackward(PLAIN, w, "l", [7], 1, None)
    ensures HasPassed(v, "l")
  {
    PlainGradients();
    AdapterPasses(PLAIN, w, "l", v);
  }

  lemma SecondIsLegal()
    ensures LegalRun(PLAIN, PRISTINE, L2)
  {
    var before := Run(PLAIN, PRISTINE, L1);
    FirstIsLegal();
    FirstJob(before);
    MayPass(before, "l");
    NextIsLegal(L1, ForwardBackward("l", [7], 1, None), before);
  }

  lemma MayPass(w: Worker, s: SessionId)
    requires w.slot.active != Some(s) || !IsFullParam(w, s)
    ensures Legal(PLAIN, w, ForwardBackward(s, [7], 1, None))
  {
  }

  /** The adapter session may step on its pass. */
  lemma OwnStepIsLegal(w: Worker)
    requires w == Run(PLAIN, PRISTINE, L2)
    ensures LegalRun(PLAIN, PRISTINE, L2 + [OptimStep("l", false, None)])
  {
    SecondJob(w);
    SecondIsLegal();
    OnePass();
    PlainIsHarmless();
    WG.GradientsAreExact(PLAIN, PRISTINE, "l", L2, w);
    MayStepAdapter(w);
    NextIsLegal(L2, OptimStep("l", false, None), w);
  }

  lemma OnePass()
    ensures |WG.Cycle("l", L2)| == 1
  {
    assert L2[..1] == L1 && L1[..0] == [];
    assert WG.Cycle("l", L1) == [];
  }

  lemma MayStepAdapter(w: Worker)
    requires HasPassed(w, "l") && "l" in w.store && w.store["l"].meta.accumSteps > 0
    ensures Legal(PLAIN, w, OptimStep("l", false, None))
  {
  }

  lemma ThirdJob(w: Worker)
    requires w == Run(PLAIN, PRISTINE, L3)
    ensures Joined(w, "l", "f")
  {
    var before := Run(PLAIN, PRISTINE, L2);
    SecondJob(before);
    Next(L2, InitFullParam("f", [], None), before);
    InitStep(PLAIN, before, "f");
    JoinsAdapter(before, w);
  }

  lemma JoinsAdapter(w: Worker, v: Worker)
    requires HasPassed(w, "l") && v == WorkerState.InitFullParam(w, "f", [], None)
    ensures Joined(v, "l", "f")
  {
    assert "l" != "f";
    Joins(w, "l", "f", v);
  }

  lemma ThirdIsLegal()
    ensures LegalRun(PLAIN, PRISTINE, L3)
  {
    var before := Run(PLAIN, PRISTINE, L2);
    SecondIsLegal();
    SecondJob(before);
    MayJoin(before);
    NextIsLegal(L2, InitFullParam("f", [], None), before);
  }

  lemma MayJoin(w: Worker)
    requires HasPassed(w, "l")
    ensures Legal(PLAIN, w, InitFullParam("f", [], None))
  {
    assert "l" != "f";
  }

  lemma FourthJob(w: Worker)
    requires w == Run(PLAIN, PRISTINE, L4)
    ensures HasTaken(w, "l", "f")
  {
    var before := Run(PLAIN, PRISTINE, L3);
    ThirdJob(before);
    Next(L3, ForwardBackward("f", [7], 1, None), before);
    PassStep(PLAIN, before, "f", None);
    TakesWithPlain(before, w);
  }

  lemma TakesWithPlain(w: Worker, v: Worker)
    requires Joined(w, "l", "f") && v == WorkerState.ForwardBackward(PLAIN, w, "f", [7], 1, None)
    ensures HasTaken(v, "l", "f")
  {
    assert "l" != "f";
    PlainGradients();
    TakesGradient(PLAIN, w, "l", "f", v);
  }

  lemma FourthIsLegal()
    ensures LegalRun(PLAIN, PRISTINE, L4)
  {
    var before := Run(PLAIN, PRISTINE, L3);
    ThirdIsLegal();
    ThirdJob(before);
    NotActive(before);
    NextIsLegal(L3, ForwardBackward("f", [7], 1, None), before);
  }

  lemma NotActive(w: Worker)
    requires Joined(w, "l", "f")
    ensures Legal(PLAIN, w, ForwardBackward("f", [7], 1, None))
  {
    assert "l" != "f";
    MayPass(w, "f");
  }

  /** Up to the pass of f all sessions are private. */
  lemma StillPrivate(w: Worker)
    requires w == Run(PLAIN, PRISTINE, L4)
    ensures LegalRun(PLAIN, PRISTINE, L4) && Session(w, "l") == Alone(PLAIN, PRISTINE, "l", L4)
  {
    PlainIsHarmless();
    LoadSame();
    FourthIsLegal();
    RunsArePrivate(PLAIN, PRISTINE, L4);
  }

  lemma AdapterAlone()
    ensures Alone(PLAIN, PRISTINE, "l", L4).Some? && Alone(PLAIN, PRISTINE, "l", L4).value.weights == ADAPTER
  {
    assert L4[..3] == L3 && L3[..2] == L2 && L2[..1] == L1 && "l" != "f";
    assert L1[..0] == [];
    assert Alone(PLAIN, PRISTINE, "l", L4) == Alone(PLAIN, PRISTINE, "l", L2);
    assert Alone(PLAIN, PRISTINE, "l", L1) == Some(Begin(Lora, LAYER, ADAPTER));
  }

  /**
   * create adapter l; pass l; create f; pass f; step f. All but the last job are within the guards, and
   * zero steps do nothing, yet the step moves l's adapter with the gradient of l's own, pending pass.
   */
  lemma StepTakesGradient(before: Worker, w: Worker)
    requires before == Run(PLAIN, PRISTINE, L4) && w == Run(PLAIN, PRISTINE, L4 + [OptimStep("f", false, None)])
    ensures ZeroStepsAreHarmless(PLAIN) && LegalRun(PLAIN, PRISTINE, L4)
    ensures Session(before, "l").Some? && Session(before, "l").value.weights == ADAPTER
    ensures Session(before, "l") == Alone(PLAIN, PRISTINE, "l", L4)
    ensures "l" in w.slot.adapters && w.slot.adapters["l"] == HALVED != ADAPTER
  {
    PlainIsHarmless();
    StillPrivate(before);
    AdapterAlone();
    FifthJob(before, w);
    HalfIsLess();
  }

  lemma FifthJob(before: Worker, w: Worker)
    requires before == Run(PLAIN, PRISTINE, L4) && w == Run(PLAIN, PRISTINE, L4 + [OptimStep("f", false, None)])
    ensures "l" in w.slot.adapters && w.slot.adapters["l"] == HALVED
  {
    FourthJob(before);
    Next(L4, OptimStep("f", false, None), before);
    OptimizerStep(PLAIN, before, "f");
    StepMovesAdapter(before, w);
  }

  lemma StepMovesAdapter(w: Worker, v: Worker)
    requires HasTaken(w, "l", "f") && v == WorkerState.OptimStep(PLAIN, w, "f", false, None)
    ensures "l" in v.slot.adapters && v.slot.adapters["l"] == HALVED
  {
    TakenMoves(w, "l");
    StepTakes(PLAIN, w, "l", "f", v);
  }
}
