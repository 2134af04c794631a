/** What attaching an adapter does to full-parameter training, and training to the adapters. */
module AdapterAttach {
  import opened Basics
  import opened JobTypes
  import opened WorkerState
  import opened WorkerInvariants
  import opened WorkerHandlers
  import opened PrivateSessions
  import opened NewSessions
  import opened WorkerRuns

  // ---------- attaching ----------

  /** The frame of an initialization, which needs no more than the shape of the state. */
  lemma InitLoraSame(w: Worker, l: SessionId, targets: set<ParamName>, initial: Weights, victim: Option<SessionId>,
      f: SessionId, v: Worker)
    requires Shape(w) && l !in w.cache && initial != map[] && f != l && victim != Some(f) && victim != Some(l)
    requires v == WorkerState.InitLora(w, l, targets, initial, victim)
    ensures Same(Widened(w, targets), v, f)
  {
    var wide, rt := Widened(w, targets), Runtime(NewMeta(Lora, targets), map[]);
    WidenedShape(w, targets);
    WidenedFirst(w, l, targets, initial, victim);
    var mid := Inserted(wide, l, rt, initial);
    InsertedShape(wide, l, rt, initial, mid);
    InsertedSame(wide, l, rt, initial, f);
    PutForm(wide, l, rt, initial, victim);
    assert Attach(wide, l, rt.meta, initial) == AttachAdapter(wide, l, targets, initial);
    AttachThenSave(mid, l, rt, victim, f, if victim.Some? then Evict(mid, victim.value) else mid, v);
    SameTrans(wide, mid, v, f);
  }

  lemma AttachThenSave(mid: Worker, l: SessionId, rt: Runtime, victim: Option<SessionId>, f: SessionId, out: Worker,
      v: Worker)
    requires Shape(mid) && l in mid.cache && mid.cache[l] == rt && f != l && victim != Some(f) && victim != Some(l)
    requires out == if victim.Some? then Evict(mid, victim.value) else mid
    requires v == Save(out, l, rt)
    ensures Same(mid, v, f)
  {
    if victim.Some? {
      EvictKeeps(mid, victim.value, out);
      assert Same(mid, out, f) && Same(mid, out, l);
    }
    SaveSame(out, l, rt, v, f);
    SameTrans(mid, out, v, f);
  }

  lemma InitLoraFreezes(w: Worker, l: SessionId, targets: set<ParamName>, initial: Weights, victim: Option<SessionId>,
      f: SessionId, v: Worker)
    requires Shape(w) && l !in w.cache && f != l && victim != Some(f) && IsFullParam(w, f)
    requires v == WorkerState.InitLora(w, l, targets, initial, victim)
    ensures !v.slot.flags.base && IsFullParam(v, f)
    ensures w.slot.active == Some(f) <==> v.slot.active == Some(f)
  {
    var rt, attached := Runtime(NewMeta(Lora, targets), map[]), AttachAdapter(w, l, targets, initial);
    PutFlags(attached, l, rt, victim, f);
    SaveSlot(Put(attached, l, rt, victim), l, rt);
  }

  lemma SaveSlot(w: Worker, s: SessionId, rt: Runtime)
    ensures Save(w, s, rt).slot == w.slot && Save(w, s, rt).cache == w.cache
  {
  }

  /**
   * A new adapter goes unnoticed by a full-parameter session that could be trained before exactly
   * when the session is not the active one and has no gradient under a name that is taken away.
   */
  lemma AttachUnnoticedIff(w: Worker, l: SessionId, targets: set<ParamName>, initial: Weights,
      victim: Option<SessionId>, f: SessionId, v: Worker)
    requires Good(w) && IsFullParam(w, f) && Armed(w, f)
    requires l !in w.store && l !in w.cache && initial != map[] && victim != Some(f) && victim != Some(l)
    requires v == WorkerState.InitLora(w, l, targets, initial, victim)
    ensures Session(v, f) == Session(w, f) && Armed(v, f) <==> w.slot.active != Some(f) && Quiet(w, f, targets)
  {
    InitLoraSame(w, l, targets, initial, victim, f, v);
    SameSession(Widened(w, targets), v, f);
    WideningKeepsIff(w, targets, f);
    InitLoraFreezes(w, l, targets, initial, victim, f, v);
  }

  /** Reloading an adapter session for its weights alone freezes the base under an active session, and does no more. */
  lemma ReloadUnnoticedIff(w: Worker, l: SessionId, ckpt: Weights, victim: Option<SessionId>, f: SessionId, v: Worker)
    requires Good(w) && IsFullParam(w, f) && Armed(w, f) && f != l
    requires l in w.store && l !in w.cache && w.store[l].meta.mode.Lora? && w.store[l].meta.accumSteps == 0
    requires Spares(w, l, victim) && victim != Some(f)
    requires v == WorkerState.LoadWeights(w, l, ckpt, None, victim)
    ensures Session(v, f) == Session(w, f)
    ensures Armed(v, f) <==> w.slot.active != Some(f)
  {
    StoredIsSession(w, l);
    LoadWeightsIsPrivate(w, l, ckpt, victim, v);
    LoadedFlags(w, l, ckpt, victim, f, v);
  }

  lemma LoadedFlags(w: Worker, l: SessionId, ckpt: Weights, victim: Option<SessionId>, f: SessionId, v: Worker)
    requires Good(w) && IsFullParam(w, f) && f != l && l in w.store && l !in w.cache && w.store[l].meta.mode.Lora?
      && victim != Some(f)
    requires v == WorkerState.LoadWeights(w, l, ckpt, None, victim)
    ensures !v.slot.flags.base && IsFullParam(v, f)
    ensures w.slot.active == Some(f) <==> v.slot.active == Some(f)
  {
    assert SavedIsSound(w.store[l], l, w.slot);
    var saved := w.store[l];
    var attached := AttachAdapter(w, l, saved.meta.targets, saved.weights.value);
    PutFlags(attached, l, Revived(saved), victim, f);
    var w1 := Put(attached, l, Revived(saved), victim);
    assert Ensure(w, l, victim) == Opened(w1, Revived(saved));
    CheckpointFlags(w1, l, Revived(saved), ckpt, f, v);
  }

  lemma CheckpointFlags(w: Worker, l: SessionId, rt: Runtime, ckpt: Weights, f: SessionId, v: Worker)
    requires rt.meta.mode.Lora? && f != l && IsFullParam(w, f)
    requires v == w || var next := rt.(grads := map[]); v == Save(Keep(Replaced(w, l, Lora, ckpt), l, next), l, next)
    ensures v.slot.flags == w.slot.flags && v.slot.active == w.slot.active && IsFullParam(v, f)
  {
    if v != w {
      var next := rt.(grads := map[]);
      SaveSlot(Keep(Replaced(w, l, Lora, ckpt), l, next), l, next);
    }
  }

  lemma PutFlags(w: Worker, l: SessionId, rt: Runtime, victim: Option<SessionId>, f: SessionId)
    requires IsFullParam(w, f) && f != l && victim != Some(f) && !w.slot.flags.base
    ensures !Put(w, l, rt, victim).slot.flags.base && IsFullParam(Put(w, l, rt, victim), f)
    ensures Put(w, l, rt, victim).slot.active == Some(f) <==> w.slot.active == Some(f)
  {
  }

  // ---------- training on a frozen base ----------

  /** A pass over a frozen base is counted and adds nothing of the session's own. */
  lemma FrozenPassAddsNothing(net: Network, w: Worker, f: SessionId, batch: Batch, tokens: nat, v: Worker)
    requires Good(w) && IsFullParam(w, f) && w.slot.active == Some(f) && !w.slot.flags.base && batch != []
    requires v == WorkerState.ForwardBackward(net, w, f, batch, tokens, None)
    ensures f in v.cache && v.cache[f].grads == Sum(w.cache[f].grads, Strays(w, FullParam))
    ensures w.slot.flags.adapter == w.slot.current ==> v.cache[f].grads == w.cache[f].grads
    ensures v.cache[f].meta == w.cache[f].meta.(
      accumSteps := w.cache[f].meta.accumSteps + 1, lossTokens := w.cache[f].meta.lossTokens + tokens)
    ensures v.slot.live == w.slot.live && v.slot.active == Some(f)
  {
    NeverStale(w, f);
    FrozenPass(net, w, f, w.cache[f], batch, tokens, v);
    SumNothing(w.cache[f].grads);
  }

  lemma FrozenPass(net: Network, w: Worker, f: SessionId, rt: Runtime, batch: Batch, tokens: nat, v: Worker)
    requires IsFullParam(w, f) && w.cache[f] == rt && !w.slot.flags.base && batch != []
    requires v == BackwardAndSave(net, w, f, rt, batch, tokens)
    ensures f in v.cache && v.cache[f] == Accumulated(rt, Strays(w, FullParam), tokens)
    ensures v.slot.live == w.slot.live && v.slot.active == w.slot.active
  {
    var after := AfterPass(net, w, f, FullParam, batch);
    AfterPassForm(net, w, f, FullParam, batch, after);
    CollectedFrozen(net, w, f, batch, after);
    var next := Accumulated(rt, Collected(after), tokens);
    SaveSlot(Keep(after, f, next), f, next);
  }

  lemma CollectedFrozen(net: Network, w: Worker, f: SessionId, batch: Batch, v: Worker)
    requires !w.slot.flags.base && v == AfterPass(net, w, f, FullParam, batch)
    ensures Collected(v) == Strays(w, FullParam)
  {
    assert CollectedAdapter(v) == Strays(w, FullParam);
  }

  lemma SumNothing(g: Grads)
    ensures Sum(g, map[]) == g
  {
    forall k | k in g
      ensures Sum(g, map[])[k] == g[k]
    {
      assert Sum(g, map[])[k] == Read(Sum(g, map[]), k);
    }
  }

  /** A step on a frozen base is counted, leaves the weights and throws the whole accumulator away. */
  lemma FrozenStepDropsAll(net: Network, w: Worker, f: SessionId, rt: Runtime, byTokens: bool, v: Worker)
    requires Good(w) && IsFullParam(w, f) && w.cache[f] == rt && w.slot.active == Some(f) && !w.slot.flags.base
    requires !NoAdapterTrains(w) && rt.grads != map[]
    requires v == WorkerState.OptimStep(net, w, f, byTokens, None)
    ensures f in v.cache && v.cache[f] == Stepped(rt, Trainable(w)) && Nonzero(v.cache[f].grads) == map[]
    ensures v.slot.live == w.slot.live && v.slot.active == Some(f)
  {
    StepInPlace(net, w, f, byTokens);
    FrozenStep(net, w, f, rt, byTokens, v);
  }

  lemma FrozenStep(net: Network, w: Worker, f: SessionId, rt: Runtime, byTokens: bool, v: Worker)
    requires IsFullParam(w, f) && w.cache[f] == rt && w.slot.active == Some(f) && !w.slot.flags.base
    requires Trainable(w) != {} && rt.grads != map[] && v == StepAndSave(net, w, f, rt, byTokens)
    ensures f in v.cache && v.cache[f] == Stepped(rt, Trainable(w)) && Nonzero(v.cache[f].grads) == map[]
    ensures v.slot.live == w.slot.live && v.slot.active == Some(f)
  {
    FrozenSave(net, w, f, rt, byTokens, v);
    ZerosAreZero(Trainable(w));
  }

  /** For the active session a step is no more than its second half. */
  lemma StepInPlace(net: Network, w: Worker, f: SessionId, byTokens: bool)
    requires Good(w) && IsFullParam(w, f) && w.slot.active == Some(f)
    ensures WorkerState.OptimStep(net, w, f, byTokens, None) == StepAndSave(net, w, f, w.cache[f], byTokens)
    ensures !NoAdapterTrains(w) ==> Trainable(w) != {}
  {
    NeverStale(w, f);
    if !NoAdapterTrains(w) {
      SomethingIsTrainable(w);
    }
  }

  lemma ZerosAreZero(names: set<LiveName>)
    ensures Nonzero(Zeros(names)) == map[]
  {
  }

  predicate NoAdapterTrains(w: Worker) {
    w.slot.flags.adapter.None? || w.slot.flags.adapter.value !in w.slot.adapters
  }

  lemma SomethingIsTrainable(w: Worker)
    requires IndexShape(w) && !NoAdapterTrains(w)
    ensures Trainable(w) != {}
  {
    var a := w.slot.flags.adapter.value;
    var n :| n in w.slot.adapters[a];
    assert InAdapter(a, n) in Trainable(w);
  }

  lemma FrozenSave(net: Network, w: Worker, f: SessionId, rt: Runtime, byTokens: bool, v: Worker)
    requires IsFullParam(w, f) && w.cache[f] == rt && w.slot.active == Some(f) && !w.slot.flags.base
    requires rt.grads != map[] && Trainable(w) != {} && v == StepAndSave(net, w, f, rt, byTokens)
    ensures f in v.cache && v.cache[f] == Stepped(rt, Trainable(w))
    ensures v.slot.live == w.slot.live && v.slot.active == Some(f)
  {
    var w3 := Trained(net, w, Normalized(rt.grads, rt.meta.lossTokens, byTokens));
    SaveSlot(Keep(w3, f, Stepped(rt, Trainable(w))), f, Stepped(rt, Trainable(w)));
  }

  /** Any other session's turn ends it: the next activation sets the flags anew. */
  lemma TurnRearms(w: Worker, f: SessionId, t: SessionId, victim: Option<SessionId>, v: Worker)
    requires Good(w) && t in w.store && t != f && Spares(w, t, victim) && v == WorkerState.Forward(w, t, victim)
    ensures Armed(v, f)
  {
    var o := Ensure(w, t, victim);
    var w2 := Activate(o.worker, t, if o.Opened? then o.runtime.meta.mode else Lora);
    OpenIsGood(w, t, victim, o, w2);
    PassedKeeps(w2, t, v);
  }

  // ---------- what a step does to the adapters ----------

  /** No other session is changed by the step. */
  ghost predicate OthersStay(net: Network, w: Worker, f: SessionId, rt: Runtime, byTokens: bool) {
    forall t :: t != f ==> Session(StepAndSave(net, w, f, rt, byTokens), t) == Session(w, t)
  }

  /**
   * A full-parameter step leaves the other sessions alone, whatever the optimizer, exactly when no
   * adapter is trainable beside the base or the accumulator holds nothing for it.
   */
  lemma StepSparesIff(w: Worker, f: SessionId, rt: Runtime, byTokens: bool)
    requires Good(w) && IsFullParam(w, f) && w.cache[f] == rt && RunsOnItsOwn(w, f) && Armed(w, f)
    requires rt.meta.accumSteps > 0
    ensures (forall net :: Trains(net) ==> OthersStay(net, w, f, rt, byTokens)) <==> Foreign(w, rt.grads) == map[]
  {
    if Foreign(w, rt.grads) == map[] {
      forall net | Trains(net)
        ensures OthersStay(net, w, f, rt, byTokens)
      {
        HarmlessStepSpares(net, w, f, rt, byTokens);
      }
    } else {
      PusherTrains();
      PusherMoves(w, f, rt, byTokens);
    }
  }

  /** The guard of the step is exact: it holds for every network exactly when no network moves another session. */
  lemma MayStepIsExact(w: Worker, f: SessionId, rt: Runtime, byTokens: bool)
    requires Good(w) && IsFullParam(w, f) && w.cache[f] == rt && RunsOnItsOwn(w, f) && Armed(w, f)
    requires rt.meta.accumSteps > 0 && w.slot.active == Some(f)
    ensures (forall net :: Trains(net) ==> MayStep(net, w, f))
      <==> (forall net :: Trains(net) ==> OthersStay(net, w, f, rt, byTokens))
  {
    StepSparesIff(w, f, rt, byTokens);
    PusherTrains();
    PusherIsNotHarmless();
    assert MayStep(PUSHER, w, f) <==> Foreign(w, rt.grads) == map[];
  }

  lemma PusherIsNotHarmless()
    ensures !ZeroStepsAreHarmless(PUSHER)
  {
    var adapter: Weights := map["x" := 0.0];
    var g: ParamGrads := map["x" := 0.0];
    assert AllZero(g) && "x" in adapter;
    assert Load(adapter, PUSHER.loraStep(map[], adapter, g))["x"] == 1.0;
  }

  /** It holds for adapter sessions, for sessions still to become active, and while no adapter is trainable. */
  lemma OthersMayStep(net: Network, w: Worker, s: SessionId)
    requires !IsFullParam(w, s) || w.slot.active != Some(s) || NoAdapterTrains(w)
    ensures MayStep(net, w, s)
  {
  }

  /** Nor does a step on nothing but zeros change another session, if the optimizer does nothing with them. */
  lemma HarmlessStepSpares(net: Network, w: Worker, f: SessionId, rt: Runtime, byTokens: bool)
    requires Good(w) && IsFullParam(w, f) && w.cache[f] == rt && RunsOnItsOwn(w, f) && Armed(w, f)
    requires rt.meta.accumSteps > 0
    requires Foreign(w, rt.grads) == map[] || (ZeroStepsAreHarmless(net) && AllZero(Foreign(w, rt.grads)))
    ensures OthersStay(net, w, f, rt, byTokens)
  {
    NormalizedForeign(w, rt.grads, rt.meta.lossTokens, byTokens);
    ForeignSpares(net, w, f, Normalized(rt.grads, rt.meta.lossTokens, byTokens));
    OptimizeFacing(net, w, f, rt, byTokens, StepAndSave(net, w, f, rt, byTokens));
  }

  /** An optimizer that adds one to every parameter of an adapter, whatever the gradient. */
  const PUSHER := Network(
    (weights: Weights, batch: Batch) => map n | n in weights :: 1.0,
    (base: Weights, adapter: Weights, batch: Batch) => map n | n in adapter :: 1.0,
    (weights: Weights, g: ParamGrads) => weights,
    (base: Weights, adapter: Weights, g: ParamGrads) => map n | n in adapter :: adapter[n] + 1.0)

  lemma PusherTrains()
    ensures Trains(PUSHER)
  {
  }

  lemma PusherMoves(w: Worker, f: SessionId, rt: Runtime, byTokens: bool)
    requires Good(w) && IsFullParam(w, f) && w.cache[f] == rt && RunsOnItsOwn(w, f) && Armed(w, f)
    requires rt.meta.accumSteps > 0 && Foreign(w, rt.grads) != map[]
    ensures !OthersStay(PUSHER, w, f, rt, byTokens)
  {
    ResidentIsSound(w, f);
    NotEmpty(w, f, rt);
    SomethingTrains(w, f);
    var a := w.slot.flags.adapter.value;
    var v := StepAndSave(PUSHER, w, f, rt, byTokens);
    assert a in w.cache && !IsFullParam(w, a);
    MovedAdapter(PUSHER, w, f, rt, byTokens, a, v);
    NormalizedForeign(w, rt.grads, rt.meta.lossTokens, byTokens);
    Pushed(w, a, Normalized(rt.grads, rt.meta.lossTokens, byTokens));
    assert Session(v, a) != Session(w, a);
  }

  lemma Pushed(w: Worker, a: SessionId, g: Grads)
    requires a in w.slot.adapters && w.slot.adapters[a] != map[] && AdapterGrads(a, w.slot.adapters[a], g) != map[]
    ensures SteppedAdapter(PUSHER, w, a, g) != w.slot.adapters[a]
  {
    var n :| n in w.slot.adapters[a];
    assert SteppedAdapter(PUSHER, w, a, g)[n] == w.slot.adapters[a][n] + 1.0;
  }

  lemma MovedAdapter(net: Network, w: Worker, f: SessionId, rt: Runtime, byTokens: bool, a: SessionId, v: Worker)
    requires Shape(w) && IsFullParam(w, f) && w.cache[f] == rt && w.slot.active == Some(f)
    requires rt.grads != map[] && Trainable(w) != {} && v == StepAndSave(net, w, f, rt, byTokens)
    requires w.slot.flags.adapter == Some(a) && a != f && a in w.slot.adapters
    ensures Session(w, a).Some? && Session(w, a).value.weights == w.slot.adapters[a]
    ensures Session(v, a).Some? && Session(v, a).value.weights
      == SteppedAdapter(net, w, a, Normalized(rt.grads, rt.meta.lossTokens, byTokens))
  {
    var w3 := Trained(net, w, Normalized(rt.grads, rt.meta.lossTokens, byTokens));
    assert a in w.cache && !IsFullParam(w, a);
    StepKeepsAdapters(w3, f, Stepped(rt, Trainable(w)), a);
  }

  lemma StepKeepsAdapters(w: Worker, f: SessionId, next: Runtime, a: SessionId)
    requires IsFullParam(w, f) && next.meta.mode.FullParam? && a != f && a in w.cache
    ensures var v := Save(Keep(w, f, next), f, next);
      a in v.cache && v.cache[a] == w.cache[a] && v.slot == w.slot
  {
  }

  /** A step while an adapter is trainable puts that adapter's zeros into the session's accumulator. */
  lemma StepLeavesZeros(net: Network, w: Worker, f: SessionId, rt: Runtime, byTokens: bool, a: SessionId, v: Worker)
    requires Good(w) && IsFullParam(w, f) && w.cache[f] == rt && w.slot.active == Some(f)
    requires rt.grads != map[] && w.slot.flags.adapter == Some(a) && a in w.slot.adapters
    requires v == StepAndSave(net, w, f, rt, byTokens)
    ensures f in v.cache && forall n :: n in w.slot.adapters[a] ==> InAdapter(a, n) in v.cache[f].grads
    ensures Foreign(v, v.cache[f].grads) != map[] && AllZero(Foreign(v, v.cache[f].grads))
  {
    var n :| n in w.slot.adapters[a];
    assert InAdapter(a, n) in Trainable(w);
    var next, w3 := Stepped(rt, Trainable(w)), Trained(net, w, Normalized(rt.grads, rt.meta.lossTokens, byTokens));
    SavedRuntime(w3, f, next);
    TrainedNames(net, w, a, Normalized(rt.grads, rt.meta.lossTokens, byTokens), w3);
    ForeignAt(v, a, n, next.grads);
  }

  lemma SavedRuntime(w: Worker, f: SessionId, next: Runtime)
    requires f in w.cache
    ensures var v := Save(Keep(w, f, next), f, next); f in v.cache && v.cache[f] == next && v.slot == w.slot
  {
  }

  lemma TrainedNames(net: Network, w: Worker, a: SessionId, g: Grads, v: Worker)
    requires a in w.slot.adapters && v == Trained(net, w, g)
    ensures v.cache == w.cache && v.slot.flags == w.slot.flags
    ensures a in v.slot.adapters && v.slot.adapters[a].Keys == w.slot.adapters[a].Keys
  {
  }

  lemma ForeignAt(w: Worker, a: SessionId, n: ParamName, g: Grads)
    requires w.slot.flags.adapter == Some(a) && a in w.slot.adapters && n in w.slot.adapters[a] && InAdapter(a, n) in g
    ensures Foreign(w, g) != map[]
  {
    assert n in Foreign(w, g);
  }

  // ---------- optimizer state ----------

  /** The parameters of the adapter that is trainable beside the base. */
  function BesideBase(w: Worker): set<ParamName> {
    var a := w.slot.flags.adapter;
    if a.Some? && a.value in w.slot.adapters then w.slot.adapters[a.value].Keys else {}
  }

  lemma {:induction false} BaseCount(wrapped: set<ParamName>, names: set<ParamName>)
    ensures |set n | n in names :: BaseName(wrapped, n)| == |names|
    decreases |names|
  {
    if names != {} {
      var n :| n in names;
      BaseCount(wrapped, names - {n});
      assert (set m | m in names :: BaseName(wrapped, m))
        == (set m | m in names - {n} :: BaseName(wrapped, m)) + {BaseName(wrapped, n)};
    }
  }

  lemma {:induction false} AdapterCount(a: SessionId, names: set<ParamName>)
    ensures |set n | n in names :: InAdapter(a, n)| == |names|
    decreases |names|
  {
    if names != {} {
      var n :| n in names;
      AdapterCount(a, names - {n});
      assert (set m | m in names :: InAdapter(a, m))
        == (set m | m in names - {n} :: InAdapter(a, m)) + {InAdapter(a, n)};
    }
  }

  lemma TrainableCount(w: Worker)
    requires w.slot.flags.base
    ensures |Trainable(w)| == |w.slot.live.Keys| + |BesideBase(w)|
  {
    var base, beside := BaseNames(w), AdapterNames(w);
    TrainableParts(w);
    BaseCount(w.slot.wrapped, w.slot.live.Keys);
    AdapterCount(if w.slot.flags.adapter.Some? then w.slot.flags.adapter.value else "", BesideBase(w));
    assert base !! beside;
  }

  function BaseNames(w: Worker): set<LiveName> {
    set n | n in w.slot.live.Keys :: BaseName(w.slot.wrapped, n)
  }

  function AdapterNames(w: Worker): set<LiveName> {
    var a := if w.slot.flags.adapter.Some? then w.slot.flags.adapter.value else "";
    set n | n in BesideBase(w) :: InAdapter(a, n)
  }

  lemma TrainableParts(w: Worker)
    requires w.slot.flags.base
    ensures Trainable(w) == BaseNames(w) + AdapterNames(w)
  {
    forall k
      ensures k in Trainable(w) <==> k in BaseNames(w) || k in AdapterNames(w)
    {
    }
  }

  /**
   * The optimizer state saved by a step is kept at the next one only for as many parameters, and one
   * entry of the accumulator tells of each. It survives exactly when the adapters beside the base at
   * the two steps, if any, are of one size.
   */
  lemma MomentsSurviveIff(net: Network, w: Worker, f: SessionId, rt: Runtime, byTokens: bool, v: Worker, later: Worker)
    requires IsFullParam(w, f) && w.cache[f] == rt && w.slot.active == Some(f) && w.slot.flags.base
    requires rt.grads != map[] && w.slot.live != map[] && v == StepAndSave(net, w, f, rt, byTokens)
    requires later.slot.flags.base && later.slot.live.Keys == w.slot.live.Keys
    ensures f in v.cache
    ensures |v.cache[f].grads.Keys| == |Trainable(later)| <==> |BesideBase(w)| == |BesideBase(later)|
  {
    var n :| n in w.slot.live;
    assert BaseName(w.slot.wrapped, n) in Trainable(w);
    SavedRuntime(Trained(net, w, Normalized(rt.grads, rt.meta.lossTokens, byTokens)), f, Stepped(rt, Trainable(w)));
    assert v.cache[f].grads.Keys == Trainable(w);
    TrainableCount(w);
    TrainableCount(later);
  }

  // ---------- adapter names ----------

  /** The name an adapter goes by in the model: dashes become underscores. */
  function AdapterName(s: SessionId): string {
    "sess_" + Underscored(s)
  }

  function Underscored(s: string): (r: string)
    ensures |r| == |s|
    ensures forall i :: 0 <= i < |s| ==> r[i] == if s[i] == '-' then '_' else s[i]
  {
    if s == [] then [] else [if s[0] == '-' then '_' else s[0]] + Underscored(s[1..])
  }

  /** Two sessions share an adapter exactly when their ids differ in dashes for underscores at most. */
  lemma SharedNameIff(a: SessionId, b: SessionId)
    ensures AdapterName(a) == AdapterName(b) <==>
      |a| == |b| && forall i :: 0 <= i < |a| ==> a[i] == b[i] || (a[i] in "-_" && b[i] in "-_")
  {
    var prefix := "sess_";
    if AdapterName(a) == AdapterName(b) {
      assert AdapterName(a)[|prefix|..] == Underscored(a) && AdapterName(b)[|prefix|..] == Underscored(b);
      forall i | 0 <= i < |a|
        ensures a[i] == b[i] || (a[i] in "-_" && b[i] in "-_")
      {
        assert Underscored(a)[i] == Underscored(b)[i];
      }
    }
    if |a| == |b| && forall i :: 0 <= i < |a| ==> a[i] == b[i] || (a[i] in "-_" && b[i] in "-_") {
      assert Underscored(a) == Underscored(b);
    }
  }

  /** Ids without underscores, the ones the gateway makes up, have adapters of their own. */
  lemma DashedIdsDiffer(a: SessionId, b: SessionId)
    requires '_' !in a && '_' !in b
    ensures AdapterName(a) == AdapterName(b) <==> a == b
  {
    SharedNameIff(a, b);
    if AdapterName(a) == AdapterName(b) {
      assert forall i :: 0 <= i < |a| ==> a[i] in a && b[i] in b;
    }
  }
}
