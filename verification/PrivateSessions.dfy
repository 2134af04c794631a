/** Handlers against the reference: every session trained on a copy of its own. */
module PrivateSessions {
  import opened Basics
  import opened JobTypes
  import opened WorkerState
  import opened WorkerInvariants
  import opened WorkerHandlers

  // ---------- the reference ----------

  /** The gradient of one batch at the session's own weights. */
  function OwnGradient(net: Network, pristine: Weights, mode: Mode, own: Weights, batch: Batch): ParamGrads {
    Restrict(own, if mode.FullParam? then net.fpGrad(own, batch) else net.loraGrad(pristine, own, batch))
  }

  function OwnStep(net: Network, pristine: Weights, mode: Mode, own: Weights, g: ParamGrads): Weights {
    Load(own, if mode.FullParam? then net.fpStep(own, g) else net.loraStep(pristine, own, g))
  }

  function Begin(mode: Mode, targets: set<ParamName>, weights: Weights): Private {
    Private(NewMeta(mode, targets), weights, map[])
  }

  /** An empty batch is an error and adds nothing. */
  function Accumulate(net: Network, pristine: Weights, p: Private, batch: Batch, tokens: nat): Private {
    if batch == [] then p
    else
      Private(
        p.meta.(accumSteps := p.meta.accumSteps + 1, lossTokens := p.meta.lossTokens + tokens),
        p.weights,
        Sum(p.grads, OwnGradient(net, pristine, p.meta.mode, p.weights, batch)))
  }

  function Optimize(net: Network, pristine: Weights, p: Private, byTokens: bool): Private {
    Private(
      p.meta.(totalSteps := p.meta.totalSteps + 1, accumSteps := 0, lossTokens := 0),
      OwnStep(net, pristine, p.meta.mode, p.weights, Normalized(p.grads, p.meta.lossTokens, byTokens)),
      map[])
  }

  function Resume(p: Private, ckpt: Weights): Private {
    Private(p.meta, Load(p.weights, ckpt), map[])
  }

  /** Every batch reaches every parameter. */
  ghost predicate Trains(net: Network) {
    && (forall weights: Weights, batch :: weights.Keys <= net.fpGrad(weights, batch).Keys)
    && (forall base, adapter: Weights, batch :: adapter.Keys <= net.loraGrad(base, adapter, batch).Keys)
  }

  /** A step on gradients that are all zero is no step: no weight decay. */
  ghost predicate ZeroStepsAreHarmless(net: Network) {
    forall base, adapter, g :: AllZero(g) ==> Load(adapter, net.loraStep(base, adapter, g)) == adapter
  }

  predicate AllZero(g: ParamGrads) {
    forall n :: n in g ==> g[n] == 0.0
  }

  /** What an accumulator holds for the adapter that is trainable beside the base. */
  function Foreign(w: Worker, g: Grads): ParamGrads {
    var a := w.slot.flags.adapter;
    if a.Some? && a.value in w.slot.adapters then AdapterGrads(a.value, w.slot.adapters[a.value], g) else map[]
  }

  /** The `.grad` fields left at the current adapter, by live names. */
  function Leftover(w: Worker): Grads {
    var c := w.slot.current;
    if c.Some? && c.value in w.slot.adapters && c.value in w.slot.left.adapters then
      AdapterNamed(c.value, w.slot.adapters[c.value], w.slot.left.adapters[c.value])
    else map[]
  }

  /**
   * The gradients of another session's adapter that a full-parameter pass finds: those left at the
   * current adapter, unless it was trainable before the pass and they were dropped.
   */
  function Strays(w: Worker, mode: Mode): Grads {
    if mode.FullParam? && w.slot.current != w.slot.flags.adapter then Leftover(w) else map[]
  }

  /** The same gradients, but for entries of adapters in a full-parameter session. */
  ghost predicate Carries(mode: Mode, more: Grads, own: Grads) {
    forall k :: k in more || k in own ==>
      (mode.FullParam? && k.InAdapter?) || (k in more && k in own && more[k] == own[k])
  }

  // ---------- gradients ----------

  lemma NormalizedOwn(wrapped: set<ParamName>, s: SessionId, params: Weights, g: Grads, tokens: nat, byTokens: bool)
    ensures BaseGrads(wrapped, params, Normalized(g, tokens, byTokens))
      == Normalized(BaseGrads(wrapped, params, g), tokens, byTokens)
    ensures AdapterGrads(s, params, Normalized(g, tokens, byTokens))
      == Normalized(AdapterGrads(s, params, g), tokens, byTokens)
  {
  }

  /** One more pass: the accumulator under live names, seen as the session's own gradients. */
  lemma AddOwn(wrapped: set<ParamName>, s: SessionId, meta: Meta, next: Meta, params: Weights, g: Grads,
      raw: ParamGrads, more: Grads, sum: Grads)
    requires SoundGrads(wrapped, s, meta, params, g) && params.Keys <= raw.Keys
    requires next.mode == meta.mode && next.accumSteps == meta.accumSteps + 1
    requires Carries(meta.mode, more, Named(wrapped, s, meta.mode, params, raw)) && sum == Sum(g, more)
    ensures OwnGrads(wrapped, s, next, params, sum) == Sum(OwnGrads(wrapped, s, meta, params, g), Restrict(params, raw))
  {
    var before, after := OwnGrads(wrapped, s, meta, params, g), OwnGrads(wrapped, s, next, params, sum);
    OwnKeys(wrapped, s, meta, params, g);
    OwnKeys(wrapped, s, next, params, sum);
    forall n | n in params
      ensures n in after && n in Sum(before, Restrict(params, raw)) && after[n] == Sum(before, Restrict(params, raw))[n]
    {
      AddedAt(wrapped, s, meta, next, params, g, raw, more, sum, n);
    }
    SameMaps(after, Sum(before, Restrict(params, raw)), params);
  }

  lemma AddedAt(wrapped: set<ParamName>, s: SessionId, meta: Meta, next: Meta, params: Weights, g: Grads,
      raw: ParamGrads, more: Grads, sum: Grads, n: ParamName)
    requires SoundGrads(wrapped, s, meta, params, g) && n in params && n in raw
    requires next.mode == meta.mode && next.accumSteps == meta.accumSteps + 1
    requires Carries(meta.mode, more, Named(wrapped, s, meta.mode, params, raw)) && sum == Sum(g, more)
    ensures n in OwnGrads(wrapped, s, next, params, sum)
      && n in Sum(OwnGrads(wrapped, s, meta, params, g), Restrict(params, raw))
    ensures OwnGrads(wrapped, s, next, params, sum)[n]
      == Sum(OwnGrads(wrapped, s, meta, params, g), Restrict(params, raw))[n]
  {
    AddOne(wrapped, s, meta, params, g, raw, more, sum, n);
    OwnAt(wrapped, s, next, params, sum, n);
    OwnSum(OwnGrads(wrapped, s, meta, params, g), params, raw, n);
  }

  lemma SameMaps(a: ParamGrads, b: ParamGrads, params: Weights)
    requires a.Keys <= params.Keys && b.Keys <= params.Keys
    requires forall n :: n in params ==> n in a && n in b && a[n] == b[n]
    ensures a == b
  {
  }

  lemma OwnKeys(wrapped: set<ParamName>, s: SessionId, meta: Meta, params: Weights, g: Grads)
    ensures OwnGrads(wrapped, s, meta, params, g).Keys <= params.Keys
  {
  }

  lemma OwnAt(wrapped: set<ParamName>, s: SessionId, meta: Meta, params: Weights, g: Grads, n: ParamName)
    requires n in params && meta.accumSteps > 0
    ensures var k := if meta.mode.FullParam? then BaseName(wrapped, n) else InAdapter(s, n);
      k in g ==> n in OwnGrads(wrapped, s, meta, params, g) && OwnGrads(wrapped, s, meta, params, g)[n] == g[k]
  {
  }

  lemma OwnSum(own: ParamGrads, params: Weights, raw: ParamGrads, n: ParamName)
    requires n in params && n in raw
    ensures n in Sum(own, Restrict(params, raw)) && Sum(own, Restrict(params, raw))[n] == Read(own, n) + raw[n]
  {
    assert Sum(own, Restrict(params, raw))[n] == Read(Sum(own, Restrict(params, raw)), n);
  }

  lemma AddOne(wrapped: set<ParamName>, s: SessionId, meta: Meta, params: Weights, g: Grads, raw: ParamGrads,
      more: Grads, sum: Grads, n: ParamName)
    requires SoundGrads(wrapped, s, meta, params, g) && n in params && n in raw
    requires Carries(meta.mode, more, Named(wrapped, s, meta.mode, params, raw)) && sum == Sum(g, more)
    ensures var k := if meta.mode.FullParam? then BaseName(wrapped, n) else InAdapter(s, n);
      k in sum && sum[k] == Read(OwnGrads(wrapped, s, meta, params, g), n) + raw[n]
  {
    var k := if meta.mode.FullParam? then BaseName(wrapped, n) else InAdapter(s, n);
    var own := Named(wrapped, s, meta.mode, params, raw);
    assert k in own && own[k] == raw[n];
    assert k in more && more[k] == raw[n];
    assert sum[k] == Read(sum, k);
    if meta.accumSteps == 0 && k in g {
      assert k !in Nonzero(g);
    }
  }

  lemma SumIsSound(wrapped: set<ParamName>, s: SessionId, meta: Meta, next: Meta, params: Weights, g: Grads,
      raw: ParamGrads, more: Grads, sum: Grads)
    requires SoundGrads(wrapped, s, meta, params, g) && params.Keys <= raw.Keys
    requires next.mode == meta.mode && next.accumSteps == meta.accumSteps + 1
    requires Carries(meta.mode, more, Named(wrapped, s, meta.mode, params, raw)) && sum == Sum(g, more)
    ensures SoundGrads(wrapped, s, next, params, sum)
  {
    forall n | n in params
      ensures (if meta.mode.FullParam? then BaseName(wrapped, n) else InAdapter(s, n)) in sum
    {
      AddOne(wrapped, s, meta, params, g, raw, more, sum, n);
    }
    forall k | k in sum && k.Wrapped?
      ensures k.name in wrapped
    {
      assert k in g || k in Named(wrapped, s, meta.mode, params, raw);
    }
  }

  lemma ZerosAreSound(w: Worker, s: SessionId, meta: Meta, params: Weights)
    requires meta.accumSteps == 0
    ensures SoundGrads(w.slot.wrapped, s, meta, params, Zeros(Trainable(w)))
    ensures Trainable(w) != {} ==> Zeros(Trainable(w)) != map[]
  {
    if Trainable(w) != {} {
      var k :| k in Trainable(w);
      assert k in Zeros(Trainable(w));
    }
  }

  // ---------- handlers ----------

  lemma SameTrans(a: Worker, b: Worker, c: Worker, t: SessionId)
    requires Same(a, b, t) && Same(b, c, t)
    ensures Same(a, c, t)
  {
  }

  lemma PassedIsGood(w: Worker, s: SessionId, v: Worker)
    requires Good(w) && s in w.cache && RunsOnItsOwn(w, s) && v == Passed(w, w.cache[s].meta.mode)
    ensures Good(v) && SameSessions(w, v)
  {
    PassedKeeps(w, s, v);
    StepIsSynced(w, v);
    forall t
      ensures Session(v, t) == Session(w, t)
    {
      SameSession(w, v, t);
    }
  }

  lemma ForwardIsPrivate(w: Worker, s: SessionId, victim: Option<SessionId>, v: Worker)
    requires Good(w) && s in w.store && Spares(w, s, victim) && v == Forward(w, s, victim)
    ensures Good(v) && SameSessions(w, v)
  {
    var o := Ensure(w, s, victim);
    var w2 := Activate(o.worker, s, if o.Opened? then o.runtime.meta.mode else Lora);
    OpenIsGood(w, s, victim, o, w2);
    PassedIsGood(w2, s, v);
  }

  lemma KeepSame(w: Worker, s: SessionId, rt: Runtime, t: SessionId)
    requires t != s
    ensures Same(w, Keep(w, s, rt), t)
  {
  }

  lemma KeepShape(w: Worker, s: SessionId, rt: Runtime, v: Worker)
    requires Shape(w) && s in w.cache && w.cache[s].meta.mode == rt.meta.mode
      && w.cache[s].meta.targets == rt.meta.targets
    requires v == Keep(w, s, rt)
    ensures SlotShape(v) && IndexShape(v)
    ensures s in v.cache && v.cache[s] == rt && Held(v, s) == Held(w, s)
  {
  }

  /** Replacing weights, flags and runtime of a resident session and saving it. */
  lemma ChangedIsGood(w: Worker, w3: Worker, s: SessionId, next: Runtime, v: Worker)
    requires Good(w) && Shape(w3) && s in w.cache
    requires w.cache[s].meta.mode == next.meta.mode && w.cache[s].meta.targets == next.meta.targets
    requires w3.cache == w.cache && w3.store == w.store
    requires w3.slot.pristine == w.slot.pristine && w3.slot.wrapped == w.slot.wrapped
    requires forall t :: t != s ==> Same(w, w3, t)
    requires SoundGrads(w.slot.wrapped, s, next.meta, Held(w3, s), next.grads)
    requires next.grads == map[] ==> next.meta == w.cache[s].meta && Held(w3, s).Keys == Held(w, s).Keys
    requires v == Save(Keep(w3, s, next), s, next)
    ensures Good(v) && v.slot.pristine == w.slot.pristine && v.slot.wrapped == w.slot.wrapped
    ensures Session(v, s) == Some(Private(Plain(next.meta), Held(w3, s),
      OwnGrads(w.slot.wrapped, s, next.meta, Held(w3, s), next.grads)))
    ensures forall t :: t != s ==> Session(v, t) == Session(w, t)
  {
    var w4 := Keep(w3, s, next);
    KeepShape(w3, s, next, w4);
    forall t | t != s
      ensures Same(w, w4, t)
    {
      KeepSame(w3, s, next, t);
      SameTrans(w, w3, w4, t);
    }
    OldFileIsSound(w, s, next.meta, Held(w3, s), next.grads);
    SaveIsGood(w, w4, s, next, v);
  }

  lemma OldFileIsSound(w: Worker, s: SessionId, meta: Meta, params: Weights, g: Grads)
    requires Good(w) && s in w.cache
    requires g == map[] ==> meta == w.cache[s].meta && params.Keys == Held(w, s).Keys
    ensures g == map[] && OldGrads(w, s).Some? ==> SoundGrads(w.slot.wrapped, s, meta, params, OldGrads(w, s).value)
  {
    assert Synced(w, s);
    if g == map[] && OldGrads(w, s).Some? {
      var saved := w.store[s];
      assert SoundGrads(w.slot.wrapped, s, saved.meta, SavedParams(saved, w.slot.pristine), Pending(saved));
      if IsFullParam(w, s) {
        HeldKeys(w, s);
      }
      PlainIsEnough(w.slot.wrapped, s, saved.meta, meta, SavedParams(saved, w.slot.pristine), params, Pending(saved));
    }
  }

  lemma PlainIsEnough(wrapped: set<ParamName>, s: SessionId, meta: Meta, other: Meta, a: Weights, b: Weights, g: Grads)
    requires Plain(meta) == Plain(other) && a.Keys == b.Keys && SoundGrads(wrapped, s, meta, a, g)
    ensures SoundGrads(wrapped, s, other, b, g)
  {
  }

  // ---------- forward_backward ----------

  /** What the backward pass of a facing, armed session computes, before it goes by live names. */
  function Raw(net: Network, pristine: Weights, mode: Mode, own: Weights, batch: Batch): ParamGrads {
    if mode.FullParam? then net.fpGrad(own, batch) else net.loraGrad(pristine, own, batch)
  }

  /**
   * What the accumulation loop finds after a pass: the gradient at the session's own weights and
   * what was left at another session's adapter. Leftovers of the base are always dropped first.
   */
  lemma CollectedIsOwn(net: Network, w: Worker, s: SessionId, mode: Mode, batch: Batch, v: Worker)
    requires Shape(w) && s in w.cache && mode == w.cache[s].meta.mode && RunsOnItsOwn(w, s) && Armed(w, s)
    requires Ready(w, s, mode) && v == AfterPass(net, w, s, mode, batch)
    ensures Collected(v) ==
      Named(w.slot.wrapped, s, mode, Held(w, s), Raw(net, w.slot.pristine, mode, Held(w, s), batch)) + Strays(w, mode)
  {
    if mode.FullParam? {
      CollectedFullParam(net, w, s, batch, v);
    } else {
      CollectedLora(net, w, s, batch, v);
    }
  }

  lemma CollectedFullParam(net: Network, w: Worker, s: SessionId, batch: Batch, v: Worker)
    requires w.slot.flags.base && v == AfterPass(net, w, s, FullParam, batch)
    ensures Collected(v) ==
      BaseNamed(w.slot.wrapped, w.slot.live, net.fpGrad(w.slot.live, batch)) + Strays(w, FullParam)
  {
    FilledFullParam(net, w, s, batch, v);
    NamedRestrict(w.slot.wrapped, s, w.slot.live, net.fpGrad(w.slot.live, batch));
    assert CollectedAdapter(v) == Strays(w, FullParam);
  }

  lemma FilledFullParam(net: Network, w: Worker, s: SessionId, batch: Batch, v: Worker)
    requires w.slot.flags.base && v == AfterPass(net, w, s, FullParam, batch)
    ensures v.slot.flags == Flags(true, w.slot.current) && v.slot.live == w.slot.live
      && v.slot.wrapped == w.slot.wrapped
    ensures v.slot.adapters == w.slot.adapters
    ensures v.slot.left == Left(Restrict(w.slot.live, net.fpGrad(w.slot.live, batch)), Cleared(w).slot.left.adapters)
  {
  }

  lemma CollectedLora(net: Network, w: Worker, s: SessionId, batch: Batch, v: Worker)
    requires w.slot.flags == Flags(false, Some(s)) && s in w.slot.adapters && w.slot.current == Some(s)
    requires v == AfterPass(net, w, s, Lora, batch)
    ensures Collected(v) == AdapterNamed(s, w.slot.adapters[s], net.loraGrad(w.slot.live, w.slot.adapters[s], batch))
  {
    NamedRestrict(w.slot.wrapped, s, w.slot.adapters[s], net.loraGrad(w.slot.live, w.slot.adapters[s], batch));
  }

  lemma NamedRestrict(wrapped: set<ParamName>, s: SessionId, params: Weights, g: ParamGrads)
    ensures BaseNamed(wrapped, params, Restrict(params, g)) == BaseNamed(wrapped, params, g)
    ensures AdapterNamed(s, params, Restrict(params, g)) == AdapterNamed(s, params, g)
  {
  }

  lemma RawCovers(net: Network, pristine: Weights, mode: Mode, own: Weights, batch: Batch)
    requires Trains(net)
    ensures own.Keys <= Raw(net, pristine, mode, own, batch).Keys
    ensures Restrict(own, Raw(net, pristine, mode, own, batch)) == OwnGradient(net, pristine, mode, own, batch)
  {
  }

  lemma ForwardBackwardIsPrivate(net: Network, w: Worker, s: SessionId, batch: Batch, tokens: nat,
      victim: Option<SessionId>, v: Worker)
    requires Trains(net) && Armed(w, s)
    requires Good(w) && s in w.store && Spares(w, s, victim) && v == ForwardBackward(net, w, s, batch, tokens, victim)
    ensures Good(v) && v.slot.pristine == w.slot.pristine && v.slot.wrapped == w.slot.wrapped && Session(w, s).Some?
    ensures Session(v, s) == Some(Accumulate(net, w.slot.pristine, Session(w, s).value, batch, tokens))
    ensures forall t :: t != s ==> Session(v, t) == Session(w, t)
  {
    var o := Ensure(w, s, victim);
    var w2 := Activate(o.worker, s, if o.Opened? then o.runtime.meta.mode else Lora);
    OpenIsGood(w, s, victim, o, w2);
    var rt := o.runtime;
    assert Session(w2, s) == Some(Resident(w2, s));
    if batch != [] {
      AccumulateFacing(net, w2, s, rt, batch, AfterPass(net, w2, s, rt.meta.mode, batch), tokens, v);
    }
  }

  lemma AccumulateFacing(net: Network, w: Worker, s: SessionId, rt: Runtime, batch: Batch, w3: Worker, tokens: nat,
      v: Worker)
    requires Trains(net) && batch != []
    requires Good(w) && s in w.cache && w.cache[s] == rt && RunsOnItsOwn(w, s) && Armed(w, s)
      && Ready(w, s, rt.meta.mode)
    requires w3 == AfterPass(net, w, s, rt.meta.mode, batch)
    requires var next := Accumulated(rt, Collected(w3), tokens); v == Save(Keep(w3, s, next), s, next)
    ensures Good(v) && v.slot.pristine == w.slot.pristine && v.slot.wrapped == w.slot.wrapped
    ensures Session(v, s) == Some(Accumulate(net, w.slot.pristine, Resident(w, s), batch, tokens))
    ensures forall t :: t != s ==> Session(v, t) == Session(w, t)
  {
    var next := Accumulated(rt, Collected(w3), tokens);
    AccumulatedIsOwn(net, w, s, rt, batch, w3, next, tokens);
    NotEmpty(w, s, next);
    AfterPassKeeps(net, w, s, batch, w3);
    ChangedIsGood(w, w3, s, next, v);
  }

  lemma NotEmpty(w: Worker, s: SessionId, rt: Runtime)
    requires Shape(w) && s in w.cache && rt.meta.accumSteps > 0
      && SoundGrads(w.slot.wrapped, s, rt.meta, Held(w, s), rt.grads)
    requires rt.meta.mode == w.cache[s].meta.mode
    ensures rt.grads != map[]
  {
    if IsFullParam(w, s) {
      HeldKeys(w, s);
    } else {
      assert s in w.slot.adapters;
    }
    var n :| n in Held(w, s);
    assert (if rt.meta.mode.FullParam? then BaseName(w.slot.wrapped, n) else InAdapter(s, n)) in rt.grads;
  }

  lemma AccumulatedIsOwn(net: Network, w: Worker, s: SessionId, rt: Runtime, batch: Batch, w3: Worker, next: Runtime,
      tokens: nat)
    requires Trains(net) && batch != []
    requires Good(w) && s in w.cache && w.cache[s] == rt && RunsOnItsOwn(w, s) && Armed(w, s)
      && Ready(w, s, rt.meta.mode)
    requires w3 == AfterPass(net, w, s, rt.meta.mode, batch) && next == Accumulated(rt, Collected(w3), tokens)
    ensures SoundGrads(w.slot.wrapped, s, next.meta, Held(w, s), next.grads)
    ensures Private(Plain(next.meta), Held(w, s), OwnGrads(w.slot.wrapped, s, next.meta, Held(w, s), next.grads))
      == Accumulate(net, w.slot.pristine, Resident(w, s), batch, tokens)
  {
    var raw := Raw(net, w.slot.pristine, rt.meta.mode, Held(w, s), batch);
    ResidentIsSound(w, s);
    CollectedIsOwn(net, w, s, rt.meta.mode, batch, w3);
    StraysAreForeign(w, rt.meta.mode, Named(w.slot.wrapped, s, rt.meta.mode, Held(w, s), raw));
    RawCovers(net, w.slot.pristine, rt.meta.mode, Held(w, s), batch);
    SumOfPasses(net, w.slot.pristine, w.slot.wrapped, s, rt, Held(w, s), batch, raw, Collected(w3), next, tokens);
  }

  lemma StraysAreForeign(w: Worker, mode: Mode, own: Grads)
    ensures Carries(mode, own + Strays(w, mode), own)
  {
  }

  lemma ResidentIsSound(w: Worker, s: SessionId)
    requires Good(w) && s in w.cache
    ensures SoundGrads(w.slot.wrapped, s, w.cache[s].meta, Held(w, s), w.cache[s].grads)
  {
    assert Synced(w, s);
  }

  lemma SumOfPasses(net: Network, pristine: Weights, wrapped: set<ParamName>, s: SessionId, rt: Runtime, own: Weights,
      batch: Batch, raw: ParamGrads, more: Grads, next: Runtime, tokens: nat)
    requires SoundGrads(wrapped, s, rt.meta, own, rt.grads) && batch != []
    requires own.Keys <= raw.Keys && Restrict(own, raw) == OwnGradient(net, pristine, rt.meta.mode, own, batch)
    requires Carries(rt.meta.mode, more, Named(wrapped, s, rt.meta.mode, own, raw))
      && next == Accumulated(rt, more, tokens)
    ensures SoundGrads(wrapped, s, next.meta, own, next.grads)
    ensures Private(Plain(next.meta), own, OwnGrads(wrapped, s, next.meta, own, next.grads))
      == Accumulate(
        net, pristine, Private(Plain(rt.meta), own, OwnGrads(wrapped, s, rt.meta, own, rt.grads)), batch, tokens)
  {
    AddOwn(wrapped, s, rt.meta, next.meta, own, rt.grads, raw, more, next.grads);
    SumIsSound(wrapped, s, rt.meta, next.meta, own, rt.grads, raw, more, next.grads);
  }

  // ---------- optim_step ----------

  /** What the step of an armed session does to its own weights and to nobody else's. */
  ghost predicate StepSpares(net: Network, w: Worker, s: SessionId, g: Grads) {
    var a := w.slot.flags.adapter;
    a.Some? && a.value != s && a.value in w.slot.adapters ==>
      SteppedAdapter(net, w, a.value, g) == w.slot.adapters[a.value]
  }

  lemma ForeignSpares(net: Network, w: Worker, s: SessionId, g: Grads)
    requires Foreign(w, g) == map[] || (ZeroStepsAreHarmless(net) && AllZero(Foreign(w, g)))
    ensures StepSpares(net, w, s, g)
  {
  }

  lemma LoraSpares(net: Network, w: Worker, s: SessionId, g: Grads)
    requires w.slot.flags.adapter == Some(s)
    ensures StepSpares(net, w, s, g)
  {
  }

  lemma TrainedShape(net: Network, w: Worker, g: Grads, v: Worker)
    requires Shape(w) && v == Trained(net, w, g) && (w.slot.flags.base ==> ActiveIsFullParam(w))
    ensures SlotShape(v) && IndexShape(v)
    ensures v.cache == w.cache && v.store == w.store && v.slot.pristine == w.slot.pristine
      && v.slot.wrapped == w.slot.wrapped
  {
  }

  lemma TrainedSame(net: Network, w: Worker, s: SessionId, g: Grads, v: Worker, t: SessionId)
    requires Shape(w) && s in w.cache && RunsOnItsOwn(w, s) && StepSpares(net, w, s, g)
    requires v == Trained(net, w, g) && t != s
    ensures Same(w, v, t)
  {
    SparedAdapter(net, w, s, g, v, t);
    SameByParts(w, s, v, t);
  }

  lemma SparedAdapter(net: Network, w: Worker, s: SessionId, g: Grads, v: Worker, t: SessionId)
    requires StepSpares(net, w, s, g) && v == Trained(net, w, g) && t != s
    ensures v.cache == w.cache && v.store == w.store && v.fpBase == w.fpBase
    ensures v.slot == w.slot.(live := v.slot.live, adapters := v.slot.adapters, left := v.slot.left)
    ensures v.slot.adapters.Keys == w.slot.adapters.Keys
    ensures t in w.slot.adapters ==> v.slot.adapters[t] == w.slot.adapters[t]
  {
  }

  /** An inactive session is its stash or its adapter. */
  lemma SameByParts(w: Worker, s: SessionId, v: Worker, t: SessionId)
    requires w.slot.active == Some(s) && t != s
    requires v.cache == w.cache && v.store == w.store && v.fpBase == w.fpBase
    requires v.slot == w.slot.(live := v.slot.live, adapters := v.slot.adapters, left := v.slot.left)
    requires v.slot.adapters.Keys == w.slot.adapters.Keys
      && (t in w.slot.adapters ==> v.slot.adapters[t] == w.slot.adapters[t])
    ensures Same(w, v, t)
  {
  }

  lemma OwnIsNotEmpty(w: Worker, s: SessionId, rt: Runtime, byTokens: bool)
    requires Good(w) && s in w.cache && w.cache[s] == rt && RunsOnItsOwn(w, s) && rt.meta.accumSteps > 0
    ensures rt.meta.mode.FullParam? ==> BaseGrads(w.slot.wrapped, Held(w, s),
      Normalized(rt.grads, rt.meta.lossTokens, byTokens)) != map[]
    ensures rt.meta.mode.Lora? ==>
      AdapterGrads(s, Held(w, s), Normalized(rt.grads, rt.meta.lossTokens, byTokens)) != map[]
  {
    assert Synced(w, s);
    if IsFullParam(w, s) {
      HeldKeys(w, s);
      var n :| n in Held(w, s);
      assert BaseName(w.slot.wrapped, n) in rt.grads;
      assert n in BaseGrads(w.slot.wrapped, Held(w, s), Normalized(rt.grads, rt.meta.lossTokens, byTokens));
    } else {
      var n :| n in Held(w, s);
      assert InAdapter(s, n) in rt.grads;
      assert n in AdapterGrads(s, Held(w, s), Normalized(rt.grads, rt.meta.lossTokens, byTokens));
    }
  }

  lemma TrainedHeld(net: Network, w: Worker, s: SessionId, rt: Runtime, byTokens: bool, v: Worker)
    requires Good(w) && s in w.cache && w.cache[s] == rt && RunsOnItsOwn(w, s) && Armed(w, s) && rt.meta.accumSteps > 0
    requires v == Trained(net, w, Normalized(rt.grads, rt.meta.lossTokens, byTokens))
    ensures Held(v, s) == OwnStep(net, w.slot.pristine, rt.meta.mode, Held(w, s),
      Normalized(Resident(w, s).grads, rt.meta.lossTokens, byTokens))
  {
    OwnIsNotEmpty(w, s, rt, byTokens);
    NormalizedOwn(w.slot.wrapped, s, Held(w, s), rt.grads, rt.meta.lossTokens, byTokens);
    var g := Normalized(rt.grads, rt.meta.lossTokens, byTokens);
    if IsFullParam(w, s) {
      FullParamTrained(net, w, s, g, v);
    } else {
      LoraTrained(net, w, s, g, v);
    }
  }

  lemma FullParamTrained(net: Network, w: Worker, s: SessionId, g: Grads, v: Worker)
    requires IsFullParam(w, s) && w.slot.active == Some(s) && w.slot.flags.base && v == Trained(net, w, g)
    requires BaseGrads(w.slot.wrapped, Held(w, s), g) != map[]
    ensures Held(v, s) == Load(Held(w, s), net.fpStep(Held(w, s), BaseGrads(w.slot.wrapped, Held(w, s), g)))
  {
  }

  lemma LoraTrained(net: Network, w: Worker, s: SessionId, g: Grads, v: Worker)
    requires s in w.cache && !IsFullParam(w, s) && RunsOnItsOwn(w, s) && v == Trained(net, w, g)
    requires AdapterGrads(s, Held(w, s), g) != map[]
    ensures Held(v, s) == Load(Held(w, s), net.loraStep(w.slot.pristine, Held(w, s), AdapterGrads(s, Held(w, s), g)))
  {
  }

  /**
   * The session may step without touching a neighbour: it is to become active first, or its
   * accumulator holds nothing for the adapter that is trainable beside the base, or zeros that do nothing.
   */
  ghost predicate MayStep(net: Network, w: Worker, s: SessionId) {
    IsFullParam(w, s) && w.slot.active == Some(s) ==>
      var g := Foreign(w, w.cache[s].grads);
      g == map[] || (ZeroStepsAreHarmless(net) && AllZero(g))
  }

  lemma OptimStepIsPrivate(net: Network, w: Worker, s: SessionId, byTokens: bool, victim: Option<SessionId>, v: Worker)
    requires Good(w) && s in w.store && Spares(w, s, victim) && v == OptimStep(net, w, s, byTokens, victim)
    requires Armed(w, s) && MayStep(net, w, s)
    requires Session(w, s).Some? && Session(w, s).value.meta.accumSteps > 0
    ensures Good(v) && v.slot.pristine == w.slot.pristine && v.slot.wrapped == w.slot.wrapped
    ensures Session(v, s) == Some(Optimize(net, w.slot.pristine, Session(w, s).value, byTokens))
    ensures forall t :: t != s ==> Session(v, t) == Session(w, t)
  {
    var o := Ensure(w, s, victim);
    var w2 := Activate(o.worker, s, if o.Opened? then o.runtime.meta.mode else Lora);
    OpenIsGood(w, s, victim, o, w2);
    var rt := o.runtime;
    assert Session(w2, s) == Some(Resident(w2, s));
    OpenMaySpare(net, w, s, victim, o, w2);
    StepIsSpared(net, w2, s, rt, byTokens);
    OptimizeFacing(net, w2, s, rt, byTokens, v);
  }

  lemma StepIsSpared(net: Network, w: Worker, s: SessionId, rt: Runtime, byTokens: bool)
    requires s in w.cache && w.cache[s] == rt && RunsOnItsOwn(w, s) && MayStep(net, w, s)
    ensures StepSpares(net, w, s, Normalized(rt.grads, rt.meta.lossTokens, byTokens))
  {
    var g := Normalized(rt.grads, rt.meta.lossTokens, byTokens);
    if IsFullParam(w, s) {
      NormalizedForeign(w, rt.grads, rt.meta.lossTokens, byTokens);
      ForeignSpares(net, w, s, g);
    } else {
      LoraSpares(net, w, s, g);
    }
  }

  lemma NormalizedForeign(w: Worker, g: Grads, tokens: nat, byTokens: bool)
    ensures Foreign(w, Normalized(g, tokens, byTokens)).Keys == Foreign(w, g).Keys
    ensures AllZero(Foreign(w, g)) ==> AllZero(Foreign(w, Normalized(g, tokens, byTokens)))
    ensures Foreign(w, g) == map[] <==> Foreign(w, Normalized(g, tokens, byTokens)) == map[]
  {
    assert Foreign(w, g) == map[] <==> Foreign(w, g).Keys == {};
    var h := Foreign(w, Normalized(g, tokens, byTokens));
    assert h == map[] <==> h.Keys == {};
  }

  /** A change of the active session leaves no adapter trainable beside the base. */
  lemma OpenMaySpare(net: Network, w: Worker, s: SessionId, victim: Option<SessionId>, o: Opening, v: Worker)
    requires Good(w) && s in w.store && Spares(w, s, victim) && o == Ensure(w, s, victim) && MayStep(net, w, s)
    requires o.Opened? ==> v == Activate(o.worker, s, o.runtime.meta.mode)
    ensures o.Opened? && MayStep(net, v, s)
  {
    EnsureIsGood(w, s, victim, o);
    if IsFullParam(o.worker, s) && o.worker.slot.active != Some(s) {
      ActivateFullParam(o.worker, s);
    }
  }

  lemma SomethingTrains(w: Worker, s: SessionId)
    requires Shape(w) && s in w.cache && RunsOnItsOwn(w, s) && Armed(w, s)
    ensures Trainable(w) != {} && (w.slot.flags.base ==> ActiveIsFullParam(w))
  {
    if IsFullParam(w, s) {
      assert w.slot.live.Keys == w.slot.pristine.Keys;
      var n :| n in w.slot.live;
      assert BaseName(w.slot.wrapped, n) in Trainable(w);
    } else {
      var n :| n in w.slot.adapters[s];
      assert InAdapter(s, n) in Trainable(w);
    }
  }

  lemma OptimizeFacing(net: Network, w: Worker, s: SessionId, rt: Runtime, byTokens: bool, v: Worker)
    requires Good(w) && s in w.cache && w.cache[s] == rt && RunsOnItsOwn(w, s) && Armed(w, s)
      && Ready(w, s, rt.meta.mode)
    requires rt.meta.accumSteps > 0 && StepSpares(net, w, s, Normalized(rt.grads, rt.meta.lossTokens, byTokens))
    requires v == StepAndSave(net, w, s, rt, byTokens)
    ensures Good(v) && v.slot.pristine == w.slot.pristine && v.slot.wrapped == w.slot.wrapped
    ensures Session(v, s) == Some(Optimize(net, w.slot.pristine, Resident(w, s), byTokens))
    ensures forall t :: t != s ==> Session(v, t) == Session(w, t)
  {
    var g := Normalized(rt.grads, rt.meta.lossTokens, byTokens);
    var w3, next := Trained(net, w, g), Stepped(rt, Trainable(w));
    ResidentIsSound(w, s);
    NotEmpty(w, s, rt);
    SomethingTrains(w, s);
    TrainedShape(net, w, g, w3);
    TrainedHeld(net, w, s, rt, byTokens, w3);
    forall t | t != s
      ensures Same(w, w3, t)
    {
      TrainedSame(net, w, s, g, w3, t);
    }
    ZerosAreSound(w, s, next.meta, Held(w3, s));
    SteppedIsOwn(net, w, s, rt, next, byTokens, Held(w3, s));
    ChangedIsGood(w, w3, s, next, v);
  }

  lemma SteppedIsOwn(net: Network, w: Worker, s: SessionId, rt: Runtime, next: Runtime, byTokens: bool,
      weights: Weights)
    requires s in w.cache && w.cache[s] == rt && next == Stepped(rt, Trainable(w))
    requires weights == OwnStep(net, w.slot.pristine, rt.meta.mode, Held(w, s),
      Normalized(Resident(w, s).grads, rt.meta.lossTokens, byTokens))
    ensures Private(Plain(next.meta), weights, OwnGrads(w.slot.wrapped, s, next.meta, weights, next.grads))
      == Optimize(net, w.slot.pristine, Resident(w, s), byTokens)
  {
  }

  // ---------- saving and checkpoints ----------

  lemma SaveWeightsIsPrivate(w: Worker, s: SessionId, v: Worker)
    requires Good(w) && v == SaveWeights(w, s)
    ensures Good(v) && SameSessions(w, v)
  {
    if s in w.cache {
      ResidentIsSaved(w, s, v);
      OneSession(w, v, s);
    }
  }

  lemma ResidentIsSaved(w: Worker, s: SessionId, v: Worker)
    requires Good(w) && s in w.cache && v == Save(w, s, w.cache[s])
    ensures Good(v)
    ensures v.slot.pristine == w.slot.pristine && v.slot.wrapped == w.slot.wrapped
      && Session(v, s) == Some(Resident(w, s))
    ensures forall t :: t != s ==> Session(v, t) == Session(w, t)
  {
    ResidentIsWritten(w, s);
    SameSelf(w);
    SaveIsGood(w, w, s, w.cache[s], v);
  }

  lemma SameSelf(w: Worker)
    ensures forall t :: Same(w, w, t)
  {
  }

  lemma ResidentIsWritten(w: Worker, s: SessionId)
    requires Good(w) && s in w.cache
    ensures GradsWritten(w, s, w.cache[s])
  {
    ResidentIsSound(w, s);
    OldFileIsSound(w, s, w.cache[s].meta, Held(w, s), w.cache[s].grads);
  }

  lemma OneSession(w: Worker, v: Worker, s: SessionId)
    requires v.slot.pristine == w.slot.pristine && v.slot.wrapped == w.slot.wrapped
    requires Session(v, s) == Session(w, s) && forall t :: t != s ==> Session(v, t) == Session(w, t)
    ensures SameSessions(w, v)
  {
  }

  lemma ReplacedShape(w: Worker, s: SessionId, mode: Mode, ckpt: Weights, v: Worker)
    requires Shape(w) && s in w.cache && mode == w.cache[s].meta.mode
    requires mode.FullParam? ==> Covers(ckpt, w.slot.pristine)
    requires v == Replaced(w, s, mode, ckpt)
    ensures SlotShape(v) && IndexShape(v)
  {
    ReplacedSlot(w, s, mode, ckpt, v);
    ReplacedIndex(w, s, mode, ckpt, v);
  }

  lemma ReplacedSlot(w: Worker, s: SessionId, mode: Mode, ckpt: Weights, v: Worker)
    requires SlotShape(w) && s in w.cache && mode == w.cache[s].meta.mode && v == Replaced(w, s, mode, ckpt)
    ensures SlotShape(v)
  {
  }

  lemma ReplacedIndex(w: Worker, s: SessionId, mode: Mode, ckpt: Weights, v: Worker)
    requires IndexShape(w) && s in w.cache && mode == w.cache[s].meta.mode && v == Replaced(w, s, mode, ckpt)
    requires mode.FullParam? ==> Covers(ckpt, w.slot.pristine)
    ensures IndexShape(v)
  {
    if mode.FullParam? {
      StagedIndex(w, s, ckpt, v);
    } else if s in w.slot.adapters {
      LoadedIndex(w, s, ckpt, v);
    }
  }

  lemma StagedIndex(w: Worker, s: SessionId, ckpt: Weights, v: Worker)
    requires IndexShape(w) && IsFullParam(w, s) && Covers(ckpt, w.slot.pristine)
    requires v.fpBase == w.fpBase[s := ckpt] && v.cache == w.cache
    requires v.slot.adapters == w.slot.adapters && v.slot.pristine == w.slot.pristine
      && v.slot.wrapped == w.slot.wrapped
    ensures IndexShape(v)
  {
  }

  lemma LoadedIndex(w: Worker, s: SessionId, ckpt: Weights, v: Worker)
    requires IndexShape(w) && s in w.slot.adapters && v.fpBase == w.fpBase && v.cache == w.cache
    requires v.slot.adapters == w.slot.adapters[s := Load(w.slot.adapters[s], ckpt)]
    requires v.slot.pristine == w.slot.pristine && v.slot.wrapped == w.slot.wrapped
    ensures IndexShape(v)
  {
    assert Load(w.slot.adapters[s], ckpt).Keys == w.slot.adapters[s].Keys;
  }

  lemma ReplacedHeld(w: Worker, s: SessionId, mode: Mode, ckpt: Weights, v: Worker)
    requires Shape(w) && s in w.cache && mode == w.cache[s].meta.mode
    requires mode.FullParam? ==> Covers(ckpt, w.slot.pristine)
    requires v == Replaced(w, s, mode, ckpt)
    ensures v.cache == w.cache && v.store == w.store && v.slot.active == w.slot.active
    ensures v.slot.pristine == w.slot.pristine && v.slot.wrapped == w.slot.wrapped
    ensures Held(v, s) == Load(Held(w, s), ckpt)
  {
  }

  lemma ReplacedSame(w: Worker, s: SessionId, mode: Mode, ckpt: Weights, v: Worker, t: SessionId)
    requires Shape(w) && s in w.cache && mode == w.cache[s].meta.mode && t != s
    requires v == Replaced(w, s, mode, ckpt)
    ensures Same(w, v, t)
  {
    ReplacedRest(w, s, mode, ckpt, v);
    ElsewhereSame(w, s, v, t);
  }

  lemma ReplacedRest(w: Worker, s: SessionId, mode: Mode, ckpt: Weights, v: Worker)
    requires v == Replaced(w, s, mode, ckpt)
    ensures v.cache == w.cache && v.store == w.store && v.slot.active == w.slot.active
    ensures v.slot.pristine == w.slot.pristine && v.slot.wrapped == w.slot.wrapped
    ensures w.slot.active != Some(s) ==> v.slot.live == w.slot.live
    ensures Without(v.slot.adapters, s) == Without(w.slot.adapters, s) && Without(v.fpBase, s) == Without(w.fpBase, s)
  {
  }

  lemma ElsewhereSame(w: Worker, s: SessionId, v: Worker, t: SessionId)
    requires IndexShape(w) && s in w.cache && t != s
    requires v.cache == w.cache && v.store == w.store && v.slot.active == w.slot.active
    requires v.slot.pristine == w.slot.pristine && v.slot.wrapped == w.slot.wrapped
    requires w.slot.active != Some(s) ==> v.slot.live == w.slot.live
    requires Without(v.slot.adapters, s) == Without(w.slot.adapters, s) && Without(v.fpBase, s) == Without(w.fpBase, s)
    ensures Same(w, v, t)
  {
    HeldElsewhere(w, s, v, t);
  }

  lemma HeldElsewhere(w: Worker, s: SessionId, v: Worker, t: SessionId)
    requires t != s && v.cache == w.cache && v.slot.active == w.slot.active && v.slot.pristine == w.slot.pristine
    requires w.slot.active != Some(s) ==> v.slot.live == w.slot.live
    requires Without(v.slot.adapters, s) == Without(w.slot.adapters, s) && Without(v.fpBase, s) == Without(w.fpBase, s)
    ensures t in w.cache ==> Held(v, t) == Held(w, t)
  {
    assert t in Without(v.slot.adapters, s) <==> t in v.slot.adapters;
    assert t in Without(w.slot.adapters, s) <==> t in w.slot.adapters;
    assert t in Without(v.fpBase, s) <==> t in v.fpBase;
    assert t in Without(w.fpBase, s) <==> t in w.fpBase;
  }

  lemma LoadWeightsIsPrivate(w: Worker, s: SessionId, ckpt: Weights, victim: Option<SessionId>, v: Worker)
    requires Good(w) && s in w.store && Spares(w, s, victim) && v == LoadWeights(w, s, ckpt, None, victim)
    requires Session(w, s).Some? && Session(w, s).value.meta.accumSteps == 0
    requires Session(w, s).value.meta.mode.FullParam? ==> Covers(ckpt, w.slot.pristine)
    ensures Good(v) && v.slot.pristine == w.slot.pristine && v.slot.wrapped == w.slot.wrapped
    ensures Session(v, s) == Some(Resume(Session(w, s).value, ckpt))
    ensures forall t :: t != s ==> Session(v, t) == Session(w, t)
  {
    var o := Ensure(w, s, victim);
    EnsureIsGood(w, s, victim, o);
    var w1, rt := o.worker, o.runtime;
    assert Session(w1, s) == Some(Resident(w1, s));
    assert rt.meta.mode.Lora? ==> s in w1.slot.adapters;
    ResumeResident(w1, s, rt, ckpt, v);
  }

  lemma ResumeResident(w: Worker, s: SessionId, rt: Runtime, ckpt: Weights, v: Worker)
    requires Good(w) && s in w.cache && w.cache[s] == rt && rt.meta.accumSteps == 0
    requires rt.meta.mode.FullParam? ==> Covers(ckpt, w.slot.pristine)
    requires var next := rt.(grads := map[]); v == Save(Keep(Replaced(w, s, rt.meta.mode, ckpt), s, next), s, next)
    ensures Good(v) && v.slot.pristine == w.slot.pristine && v.slot.wrapped == w.slot.wrapped
    ensures Session(v, s) == Some(Resume(Resident(w, s), ckpt))
    ensures forall t :: t != s ==> Session(v, t) == Session(w, t)
  {
    var next := rt.(grads := map[]);
    var w2 := Replaced(w, s, rt.meta.mode, ckpt);
    ReplacedShape(w, s, rt.meta.mode, ckpt, w2);
    ReplacedHeld(w, s, rt.meta.mode, ckpt, w2);
    forall t | t != s
      ensures Same(w, w2, t)
    {
      ReplacedSame(w, s, rt.meta.mode, ckpt, w2, t);
    }
    NonzeroOfEmpty();
    ChangedIsGood(w, w2, s, next, v);
  }
}
