/** What stays in the `.grad` fields of the adapters, and whose accumulator it gets into. */
module LeftoverGradients {
  import opened Basics
  import opened JobTypes
  import opened WorkerState
  import opened WorkerInvariants
  import opened WorkerHandlers
  import opened PrivateSessions
  import opened NewSessions
  import opened WorkerRuns
  import opened WorkerGradients

  // ---------- what a pass takes in ----------

  /**
   * Something is left at the current adapter, and the pass will not drop it first: the session is
   * to become active, or the adapter has not been trainable since it did.
   */
  predicate TakesIn(w: Worker, f: SessionId) {
    Leftover(w) != map[] && (w.slot.active != Some(f) || w.slot.current != w.slot.flags.adapter)
  }

  lemma ActivatedStrays(w: Worker, f: SessionId, v: Worker)
    requires Shape(w) && IsFullParam(w, f) && v == Activate(w, f, FullParam)
    ensures Strays(v, FullParam) == if TakesIn(w, f) then Leftover(w) else map[]
  {
    if w.slot.active != Some(f) {
      ActivatedSlot(w, f, v);
      SameLeft(w, v);
    }
  }

  lemma ActivatedSlot(w: Worker, f: SessionId, v: Worker)
    requires Shape(w) && IsFullParam(w, f) && w.slot.active != Some(f) && v == Activate(w, f, FullParam)
    ensures v.slot.flags == Flags(true, None) && v.slot.current == w.slot.current
    ensures v.slot.adapters == w.slot.adapters && v.slot.left == w.slot.left
  {
    ActivateFades(w, f, FullParam);
  }

  lemma SameLeft(w: Worker, v: Worker)
    requires v.slot.current == w.slot.current && v.slot.adapters == w.slot.adapters && v.slot.left == w.slot.left
    ensures Leftover(v) == Leftover(w)
    ensures v.slot.flags.adapter == None ==> Strays(v, FullParam) == Leftover(w)
  {
  }

  /** What a pass of `f` adds to its accumulator, once the session has been loaded. */
  function Added(net: Network, w: Worker, f: SessionId, batch: Batch): Grads {
    Collected(AfterPass(net, Activate(w, f, FullParam), f, FullParam, batch))
  }

  lemma AddedForm(net: Network, w: Worker, f: SessionId, batch: Batch)
    requires Shape(w) && IsFullParam(w, f) && Armed(w, f)
    ensures Added(net, w, f, batch) ==
      BaseNamed(w.slot.wrapped, Held(w, f), net.fpGrad(Held(w, f), batch))
      + (if TakesIn(w, f) then Leftover(w) else map[])
  {
    var v := Activate(w, f, FullParam);
    ActivateKeeps(w, f, v);
    assert Same(w, v, f);
    CollectedIsOwn(net, v, f, FullParam, batch, AfterPass(net, v, f, FullParam, batch));
    ActivatedStrays(w, f, v);
  }

  /**
   * A full-parameter pass adds the gradient at the session's own weights and nothing else exactly
   * when there is nothing for it to take in; otherwise it adds what was left at the current adapter.
   */
  lemma PassTakesInIff(net: Network, w: Worker, f: SessionId, batch: Batch, tokens: nat, victim: Option<SessionId>,
      at: Worker, v: Worker)
    requires Good(w) && f in w.store && w.store[f].meta.mode.FullParam? && Spares(w, f, victim) && Armed(w, f)
      && batch != []
    requires at == Ensure(w, f, victim).worker && v == WorkerState.ForwardBackward(net, w, f, batch, tokens, victim)
    ensures f in at.cache && f in v.cache
    ensures v.cache[f].grads == Sum(at.cache[f].grads, Added(net, at, f, batch))
    ensures var own := BaseNamed(at.slot.wrapped, Held(at, f), net.fpGrad(Held(at, f), batch));
      && (Added(net, at, f, batch) == own <==> !TakesIn(at, f))
      && (TakesIn(at, f) ==> Added(net, at, f, batch) == own + Leftover(at))
  {
    LoadedToPass(net, w, f, batch, tokens, victim, at);
    ResidentTakesIn(net, at, f, at.cache[f], batch, tokens, v);
  }

  lemma LoadedToPass(net: Network, w: Worker, f: SessionId, batch: Batch, tokens: nat, victim: Option<SessionId>,
      at: Worker)
    requires Good(w) && f in w.store && w.store[f].meta.mode.FullParam? && Spares(w, f, victim) && Armed(w, f)
    requires at == Ensure(w, f, victim).worker
    ensures Good(at) && IsFullParam(at, f) && Armed(at, f)
    ensures WorkerState.ForwardBackward(net, w, f, batch, tokens, victim)
      == BackwardAndSave(net, Activate(at, f, FullParam), f, at.cache[f], batch, tokens)
  {
    var o := Ensure(w, f, victim);
    EnsureIsGood(w, f, victim, o);
    StoredMode(w, at, f);
    ArmedAfterLoad(w, at, f);
    PassOpens(net, w, f, batch, tokens, victim, o);
  }

  lemma ResidentTakesIn(net: Network, w: Worker, f: SessionId, rt: Runtime, batch: Batch, tokens: nat, v: Worker)
    requires Shape(w) && IsFullParam(w, f) && w.cache[f] == rt && Armed(w, f) && batch != []
    requires v == BackwardAndSave(net, Activate(w, f, FullParam), f, rt, batch, tokens)
    ensures f in v.cache && v.cache[f].grads == Sum(rt.grads, Added(net, w, f, batch))
    ensures var own := BaseNamed(w.slot.wrapped, Held(w, f), net.fpGrad(Held(w, f), batch));
      && (Added(net, w, f, batch) == own <==> !TakesIn(w, f))
      && (TakesIn(w, f) ==> Added(net, w, f, batch) == own + Leftover(w))
  {
    PassAdds(net, w, f, rt, batch, tokens, v);
    AddedIff(net, w, f, batch, Held(w, f), Added(net, w, f, batch));
  }

  lemma AddedIff(net: Network, w: Worker, f: SessionId, batch: Batch, held: Weights, added: Grads)
    requires Shape(w) && IsFullParam(w, f) && Armed(w, f) && held == Held(w, f) && added == Added(net, w, f, batch)
    ensures var own := BaseNamed(w.slot.wrapped, held, net.fpGrad(held, batch));
      && (added == own <==> !TakesIn(w, f))
      && (TakesIn(w, f) ==> added == own + Leftover(w))
  {
    AddedForm(net, w, f, batch);
    NothingOrMore(w, f, BaseNamed(w.slot.wrapped, held, net.fpGrad(held, batch)), added);
  }

  lemma NothingOrMore(w: Worker, f: SessionId, own: Grads, added: Grads)
    requires forall k :: k in own ==> !k.InAdapter?
    requires added == own + (if TakesIn(w, f) then Leftover(w) else map[])
    ensures added == own <==> !TakesIn(w, f)
  {
    if TakesIn(w, f) {
      var k :| k in Leftover(w);
      assert k in added && k !in own;
    } else {
      assert own + map[] == own;
    }
  }

  lemma PassOpens(net: Network, w: Worker, f: SessionId, batch: Batch, tokens: nat, victim: Option<SessionId>,
      o: Opening)
    requires o == Ensure(w, f, victim) && o.Opened?
    ensures WorkerState.ForwardBackward(net, w, f, batch, tokens, victim)
      == BackwardAndSave(net, Activate(o.worker, f, o.runtime.meta.mode), f, o.runtime, batch, tokens)
  {
  }

  lemma StoredMode(w: Worker, v: Worker, f: SessionId)
    requires Good(v) && f in w.store && v.store == w.store && f in v.cache
    ensures v.cache[f].meta.mode == w.store[f].meta.mode
  {
    assert Synced(v, f);
  }

  lemma ArmedAfterLoad(w: Worker, v: Worker, f: SessionId)
    requires Armed(w, f) && (if f in w.cache then v == w else v.slot.active != Some(f))
    ensures Armed(v, f)
  {
  }

  lemma PassAdds(net: Network, w: Worker, f: SessionId, rt: Runtime, batch: Batch, tokens: nat, v: Worker)
    requires Shape(w) && IsFullParam(w, f) && w.cache[f] == rt && batch != []
    requires v == BackwardAndSave(net, Activate(w, f, FullParam), f, rt, batch, tokens)
    ensures f in v.cache && v.cache[f] == Accumulated(rt, Added(net, w, f, batch), tokens)
  {
    var w2 := Activate(w, f, FullParam);
    ActivateKeeps(w, f, w2);
    assert Same(w, w2, f);
    var after := AfterPass(net, w2, f, FullParam, batch);
    AfterPassForm(net, w2, f, FullParam, batch, after);
    SavedInCache(after, f, Accumulated(rt, Collected(after), tokens));
  }

  lemma SavedInCache(w: Worker, f: SessionId, next: Runtime)
    requires f in w.cache
    ensures f in Save(Keep(w, f, next), f, next).cache && Save(Keep(w, f, next), f, next).cache[f] == next
  {
  }

  // ---------- what is left, over whole runs ----------

  ghost predicate LeftFits(w: Worker) {
    w.slot.left.adapters.Keys <= w.slot.adapters.Keys
  }

  /** Nothing new is left at any adapter but, if anything, that of `s`. */
  ghost predicate Fades(w: Worker, v: Worker, s: Option<SessionId>) {
    && (LeftFits(w) ==> LeftFits(v))
    && forall a :: a in v.slot.left.adapters && Some(a) != s ==>
         a in w.slot.left.adapters && v.slot.left.adapters[a] == w.slot.left.adapters[a]
  }

  lemma FadesTrans(a: Worker, b: Worker, c: Worker, s: Option<SessionId>)
    requires Fades(a, b, s) && Fades(b, c, s)
    ensures Fades(a, c, s)
  {
  }

  lemma FadesMore(a: Worker, b: Worker, s: Option<SessionId>)
    requires Fades(a, b, None)
    ensures Fades(a, b, s)
  {
  }

  lemma EvictFades(w: Worker, s: SessionId)
    ensures Fades(w, Evict(w, s), None)
  {
    var out := w.(cache := Without(w.cache, s));
    DeletedFades(out, s);
    if s in w.cache {
      OnEvictSlot(out, s, w.cache[s].meta.mode);
    }
  }

  lemma DeletedFades(w: Worker, s: SessionId)
    ensures Deleted(w, s).slot.adapters == Without(w.slot.adapters, s)
    ensures Deleted(w, s).slot.left.adapters == Without(w.slot.left.adapters, s)
    ensures Fades(w, Deleted(w, s), None)
  {
  }

  lemma OnEvictSlot(w: Worker, s: SessionId, mode: Mode)
    ensures var slot := if mode.Lora? then Deleted(w, s).slot else w.slot;
      OnEvict(w, s, mode).slot.adapters == slot.adapters && OnEvict(w, s, mode).slot.left == slot.left
  {
  }

  lemma PutFades(w: Worker, s: SessionId, rt: Runtime, victim: Option<SessionId>)
    ensures Fades(w, Put(w, s, rt, victim), None)
  {
    if victim.Some? {
      EvictFades(w.(cache := w.cache[s := rt]), victim.value);
    }
  }

  lemma AttachFades(w: Worker, s: SessionId, meta: Meta, weights: Weights)
    ensures Fades(w, Attach(w, s, meta, weights), None)
  {
  }

  lemma EnsureFades(w: Worker, s: SessionId, victim: Option<SessionId>)
    ensures Fades(w, Ensure(w, s, victim).worker, None)
  {
    if !(s in w.cache && !Stale(w, s)) {
      var out := Evict(w, s);
      EvictFades(w, s);
      if s in out.store && Loadable(out.store[s]) {
        var saved := out.store[s];
        var attached := Attach(out, s, saved.meta, StoredWeights(saved, out.slot.pristine));
        AttachFades(out, s, saved.meta, StoredWeights(saved, out.slot.pristine));
        PutFades(attached, s, Revived(saved), victim);
        FadesTrans(w, out, attached, None);
        FadesTrans(w, attached, LoadSession(out, s, victim), None);
      }
    }
  }

  lemma ActivateFades(w: Worker, s: SessionId, mode: Mode)
    ensures var v := Activate(w, s, mode); v.slot.left == w.slot.left && v.slot.adapters == w.slot.adapters
  {
  }

  lemma SaveFades(w: Worker, s: SessionId, rt: Runtime)
    ensures Save(Keep(w, s, rt), s, rt).slot == w.slot
    ensures Save(w, s, rt).slot == w.slot
  {
  }

  lemma OpenFades(w: Worker, s: SessionId, victim: Option<SessionId>, o: Opening, v: Worker)
    requires o == Ensure(w, s, victim) && o.Opened? && v == Activate(o.worker, s, o.runtime.meta.mode)
    ensures Fades(w, v, None)
  {
    EnsureFades(w, s, victim);
    ActivateFades(o.worker, s, o.runtime.meta.mode);
    FadesTrans(w, o.worker, v, None);
  }

  lemma PassFades(net: Network, w: Worker, s: SessionId, mode: Mode, batch: Batch)
    requires Ready(w, s, mode)
    ensures Fades(w, AfterPass(net, w, s, mode, batch), Some(s))
  {
  }

  lemma TrainedFades(net: Network, w: Worker, g: Grads)
    ensures Fades(w, Trained(net, w, g), None)
  {
  }

  lemma ForwardFades(w: Worker, s: SessionId, victim: Option<SessionId>)
    ensures Fades(w, WorkerState.Forward(w, s, victim), None)
  {
    var o := Ensure(w, s, victim);
    EnsureFades(w, s, victim);
    if o.Opened? {
      OpenFades(w, s, victim, o, Activate(o.worker, s, o.runtime.meta.mode));
    }
  }

  lemma ForwardBackwardFades(net: Network, w: Worker, s: SessionId, batch: Batch, tokens: nat,
      victim: Option<SessionId>)
    ensures
      var filler := if batch == [] then None else Some(s);
      Fades(w, WorkerState.ForwardBackward(net, w, s, batch, tokens, victim), filler)
  {
    var o := Ensure(w, s, victim);
    EnsureFades(w, s, victim);
    FadesMore(w, o.worker, Some(s));
    if o.Opened? {
      var w2 := Activate(o.worker, s, o.runtime.meta.mode);
      OpenFades(w, s, victim, o, w2);
      FadesMore(w, w2, Some(s));
      if Ready(w2, s, o.runtime.meta.mode) && batch != [] {
        var after := AfterPass(net, w2, s, o.runtime.meta.mode, batch);
        PassFades(net, w2, s, o.runtime.meta.mode, batch);
        FadesTrans(w, w2, after, Some(s));
        SaveFades(after, s, Accumulated(o.runtime, Collected(after), tokens));
      }
    }
  }

  lemma OptimStepFades(net: Network, w: Worker, s: SessionId, byTokens: bool, victim: Option<SessionId>)
    ensures Fades(w, WorkerState.OptimStep(net, w, s, byTokens, victim), None)
  {
    var o := Ensure(w, s, victim);
    EnsureFades(w, s, victim);
    if o.Opened? {
      var w2, rt := Activate(o.worker, s, o.runtime.meta.mode), o.runtime;
      OpenFades(w, s, victim, o, w2);
      var g := Normalized(rt.grads, rt.meta.lossTokens, byTokens);
      TrainedFades(net, w2, g);
      FadesTrans(w, w2, Trained(net, w2, g), None);
      SaveFades(Trained(net, w2, g), s, Stepped(rt, Trainable(w2)));
    }
  }

  lemma LoadWeightsFades(w: Worker, s: SessionId, ckpt: Weights, victim: Option<SessionId>)
    ensures Fades(w, WorkerState.LoadWeights(w, s, ckpt, None, victim), None)
  {
    var o := Ensure(w, s, victim);
    EnsureFades(w, s, victim);
    if o.Opened? {
      var replaced, next := Replaced(o.worker, s, o.runtime.meta.mode, ckpt), o.runtime.(grads := map[]);
      ReplacedFades(o.worker, s, o.runtime.meta.mode, ckpt);
      FadesTrans(w, o.worker, replaced, None);
      SaveFades(replaced, s, next);
    }
  }

  lemma ReplacedFades(w: Worker, s: SessionId, mode: Mode, ckpt: Weights)
    ensures Fades(w, Replaced(w, s, mode, ckpt), None)
  {
  }

  lemma {:induction false} GateFades(w: Worker, s: SessionId, sids: seq<SessionId>)
    ensures Fades(w, Gate(w, s, sids).0, None)
    decreases |sids|
  {
    if sids != [] {
      if sids[0] == s {
        GateFades(w, s, sids[1..]);
      } else if sids[0] !in w.cache || w.cache[sids[0]].meta.totalSteps == 0 {
        var out := Evict(w, sids[0]);
        var v := out.(fpBase := Without(out.fpBase, sids[0]));
        EvictFades(w, sids[0]);
        GateFades(v, s, sids[1..]);
        FadesTrans(w, v, Gate(v, s, sids[1..]).0, None);
      }
    }
  }

  lemma InitFullParamFades(w: Worker, s: SessionId, sids: seq<SessionId>, victim: Option<SessionId>)
    ensures Fades(w, WorkerState.InitFullParam(w, s, sids, victim), None)
  {
    var w1, rt := Gate(w, s, sids).0, Runtime(NewMeta(FullParam, {}), map[]);
    GateFades(w, s, sids);
    var attached := AttachFullParam(w1, s, map[]);
    FadesTrans(w, w1, attached, None);
    PutFades(attached, s, rt, victim);
    FadesTrans(w, attached, Put(attached, s, rt, victim), None);
  }

  lemma InitLoraFades(w: Worker, s: SessionId, targets: set<ParamName>, initial: Weights, victim: Option<SessionId>)
    ensures Fades(w, WorkerState.InitLora(w, s, targets, initial, victim), None)
  {
    var rt, attached := Runtime(NewMeta(Lora, targets), map[]), AttachAdapter(w, s, targets, initial);
    PutFades(attached, s, rt, victim);
    FadesTrans(w, attached, Put(attached, s, rt, victim), None);
    SaveFades(Put(attached, s, rt, victim), s, rt);
  }

  /** The one whose `.grad` fields the event may fill. */
  function Filler(e: Event): Option<SessionId> {
    if e.ForwardBackward? && e.batch != [] then Some(e.session) else None
  }

  lemma StepFades(net: Network, w: Worker, e: Event)
    ensures Fades(w, Step(net, w, e), Filler(e))
  {
    match e
    case InitFullParam(s, sids, victim) => InitFullParamFades(w, s, sids, victim);
    case InitLora(s, targets, initial, victim) => InitLoraFades(w, s, targets, initial, victim);
    case Forward(s, victim) => ForwardFades(w, s, victim);
    case ForwardBackward(s, batch, tokens, victim) => ForwardBackwardFades(net, w, s, batch, tokens, victim);
    case OptimStep(s, byTokens, victim) => OptimStepFades(net, w, s, byTokens, victim);
    case SaveWeights(s) =>
      if s in w.cache {
        SaveFades(w, s, w.cache[s]);
      }
    case LoadWeights(s, ckpt, victim) => LoadWeightsFades(w, s, ckpt, victim);
  }

  // ---------- what a session leaves itself ----------

  lemma PassFills(net: Network, w: Worker, s: SessionId, batch: Batch, tokens: nat, victim: Option<SessionId>,
      v: Worker)
    requires Good(w) && s in w.store && w.store[s].meta.mode.Lora? && Spares(w, s, victim) && batch != []
    requires v == WorkerState.ForwardBackward(net, w, s, batch, tokens, victim)
    ensures s in v.slot.adapters && s in v.slot.left.adapters
    ensures v.slot.left.adapters[s] == OwnGradient(net, w.slot.pristine, Lora, v.slot.adapters[s], batch)
  {
    var o := Ensure(w, s, victim);
    var w2 := Activate(o.worker, s, if o.Opened? then o.runtime.meta.mode else Lora);
    OpenIsGood(w, s, victim, o, w2);
    StoredMode(w, w2, s);
    PassOpens(net, w, s, batch, tokens, victim, o);
    FillsOwn(net, w2, s, o.runtime, batch, tokens, v);
  }

  lemma FillsOwn(net: Network, w: Worker, s: SessionId, rt: Runtime, batch: Batch, tokens: nat, v: Worker)
    requires s in w.slot.adapters && w.slot.current == Some(s) && w.slot.live == w.slot.pristine
    requires rt.meta.mode.Lora? && batch != [] && v == BackwardAndSave(net, w, s, rt, batch, tokens)
    ensures v.slot.adapters == w.slot.adapters && s in v.slot.left.adapters
    ensures v.slot.active == w.slot.active && v.slot.current == w.slot.current
    ensures v.slot.left.adapters[s] == OwnGradient(net, w.slot.pristine, Lora, w.slot.adapters[s], batch)
  {
    var after := AfterPass(net, w, s, Lora, batch);
    SaveFades(after, s, Accumulated(rt, Collected(after), tokens));
  }

  lemma StepDrops(net: Network, w: Worker, s: SessionId, byTokens: bool, victim: Option<SessionId>, v: Worker)
    requires Good(w) && s in w.store && w.store[s].meta.mode.Lora? && Spares(w, s, victim)
    requires w.store[s].meta.accumSteps > 0 && v == WorkerState.OptimStep(net, w, s, byTokens, victim)
    ensures s !in v.slot.left.adapters
  {
    var o := Ensure(w, s, victim);
    var w2 := Activate(o.worker, s, if o.Opened? then o.runtime.meta.mode else Lora);
    OpenIsGood(w, s, victim, o, w2);
    StoredMode(w, w2, s);
    SameCount(w, w2, s);
    ResidentIsSound(w2, s);
    NotEmpty(w2, s, o.runtime);
    SomethingTrains(w2, s);
    DropsOwn(net, w2, s, o.runtime, byTokens, v);
  }

  lemma SameCount(w: Worker, v: Worker, s: SessionId)
    requires Good(v) && s in w.store && v.store == w.store && s in v.cache
    ensures v.cache[s].meta.accumSteps == w.store[s].meta.accumSteps
  {
    assert Synced(v, s);
  }

  lemma DropsOwn(net: Network, w: Worker, s: SessionId, rt: Runtime, byTokens: bool, v: Worker)
    requires w.slot.flags == Flags(false, Some(s)) && Ready(w, s, rt.meta.mode) && rt.grads != map[]
      && Trainable(w) != {}
    requires v == StepAndSave(net, w, s, rt, byTokens)
    ensures s !in v.slot.left.adapters
  {
    SaveFades(Trained(net, w, Normalized(rt.grads, rt.meta.lossTokens, byTokens)), s, Stepped(rt, Trainable(w)));
  }

  /** A pass of an adapter session leaves its gradient to the next full-parameter session that becomes active. */
  lemma PassIsTakenNext(net: Network, w: Worker, s: SessionId, batch: Batch, tokens: nat, victim: Option<SessionId>,
      v: Worker, f: SessionId)
    requires Trains(net) && Good(w) && s in w.store && w.store[s].meta.mode.Lora? && Spares(w, s, victim) && batch != []
    requires v == WorkerState.ForwardBackward(net, w, s, batch, tokens, victim) && f != s
    ensures v.slot.active == Some(s) && v.slot.current == Some(s) && TakesIn(v, f)
  {
    var o := Ensure(w, s, victim);
    var w2 := Activate(o.worker, s, if o.Opened? then o.runtime.meta.mode else Lora);
    OpenIsGood(w, s, victim, o, w2);
    StoredMode(w, w2, s);
    PassOpens(net, w, s, batch, tokens, victim, o);
    FillsOwn(net, w2, s, o.runtime, batch, tokens, v);
    AdapterIsSession(w2, s);
    LeavesAll(net, w2.slot.pristine, w2.slot.adapters[s], batch, v, s);
  }

  lemma LeavesAll(net: Network, pristine: Weights, own: Weights, batch: Batch, v: Worker, s: SessionId)
    requires Trains(net) && own != map[] && v.slot.current == Some(s) && s in v.slot.adapters
      && v.slot.adapters[s] == own
    requires s in v.slot.left.adapters && v.slot.left.adapters[s] == OwnGradient(net, pristine, Lora, own, batch)
    ensures Leftover(v) != map[]
  {
    var n :| n in own;
    assert n in v.slot.left.adapters[s];
    assert InAdapter(s, n) in Leftover(v);
  }

  // ---------- leftovers are pending ----------

  /** The leftover is the gradient of the last pass since the session's last step. */
  ghost predicate LastPass(net: Network, pristine: Weights, ps: seq<Pass>, own: Weights, g: ParamGrads) {
    ps != [] && g == OwnGradient(net, pristine, Lora, own, ps[|ps| - 1].batch)
  }

  ghost predicate AllPending(net: Network, pristine: Weights, es: seq<Event>, w: Worker) {
    && LeftFits(w)
    && forall a :: a in w.slot.left.adapters ==>
         LastPass(net, pristine, Cycle(a, es), w.slot.adapters[a], w.slot.left.adapters[a])
  }

  /**
   * In every legal run, what is left at an adapter is the gradient of the last pass of its session,
   * at the session's present weights, and the session has not stepped since.
   */
  lemma {:induction false} LeftoverIsLastPass(net: Network, pristine: Weights, es: seq<Event>, w: Worker)
    requires Trains(net) && pristine != map[] && LegalRun(net, pristine, es) && w == Run(net, pristine, es)
    ensures AllPending(net, pristine, es, w)
  {
    if es != [] {
      var before, e := es[..|es| - 1], es[|es| - 1];
      var w0 := Run(net, pristine, before);
      LeftoverIsLastPass(net, pristine, before, w0);
      RunsArePrivate(net, pristine, before);
      RunsArePrivate(net, pristine, es);
      StepIsPrivate(net, w0, e, w);
      StepFades(net, w0, e);
      forall a | a in w.slot.left.adapters
        ensures LastPass(net, pristine, Cycle(a, es), w.slot.adapters[a], w.slot.left.adapters[a])
      {
        if Filler(e) == Some(a) {
          FilledByPass(net, pristine, es, e, w0, w);
        } else {
          StillPending(net, pristine, es, e, a, w0, w);
        }
      }
    }
  }

  lemma AdapterIsSession(w: Worker, a: SessionId)
    requires Shape(w) && a in w.slot.adapters
    ensures a in w.cache && !IsFullParam(w, a) && Session(w, a) == Some(Resident(w, a))
      && Held(w, a) == w.slot.adapters[a]
  {
  }

  lemma FilledByPass(net: Network, pristine: Weights, es: seq<Event>, e: Event, w0: Worker, w: Worker)
    requires es != [] && e == es[|es| - 1] && e.ForwardBackward? && e.batch != []
    requires Good(w0) && Good(w) && Legal(net, w0, e) && w == Step(net, w0, e) && LeftFits(w0) && LeftFits(w)
    requires w0.slot.pristine == pristine && e.session in w.slot.left.adapters
    ensures LastPass(net, pristine, Cycle(e.session, es), w.slot.adapters[e.session], w.slot.left.adapters[e.session])
  {
    FillerIsLora(net, w0, e, w);
    PassFills(net, w0, e.session, e.batch, e.tokens, e.victim, w);
    CycleEnds(es, e);
  }

  lemma CycleEnds(es: seq<Event>, e: Event)
    requires es != [] && e == es[|es| - 1] && e.ForwardBackward? && e.batch != []
    ensures var ps := Cycle(e.session, es); ps != [] && ps[|ps| - 1].batch == e.batch
  {
  }

  lemma FillerIsLora(net: Network, w0: Worker, e: Event, w: Worker)
    requires e.ForwardBackward? && e.batch != []
    requires Good(w0) && Good(w) && Legal(net, w0, e) && w == Step(net, w0, e) && e.session in w.slot.adapters
    ensures e.session in w0.store && w0.store[e.session].meta.mode.Lora?
  {
    AdapterIsSession(w, e.session);
    StoredIsSession(w, e.session);
    if e.session !in w0.store {
      UnknownSession(net, w0, e);
    } else if w0.store[e.session].meta.mode.FullParam? {
      StaysFullParam(net, w0, e, w);
    }
  }

  lemma StaysFullParam(net: Network, w0: Worker, e: Event, w: Worker)
    requires Good(w0) && Good(w) && e.ForwardBackward? && e.session in w0.store
      && w0.store[e.session].meta.mode.FullParam?
    requires Legal(net, w0, e) && w == Step(net, w0, e) && e.batch != []
    ensures e.session !in w.slot.adapters
  {
    var s := e.session;
    LoadedToPass(net, w0, s, e.batch, e.tokens, e.victim, Ensure(w0, s, e.victim).worker);
    var at := Ensure(w0, s, e.victim).worker;
    PassAdds(net, at, s, at.cache[s], e.batch, e.tokens, w);
    assert IsFullParam(w, s);
  }

  lemma StillPending(net: Network, pristine: Weights, es: seq<Event>, e: Event, a: SessionId, w0: Worker, w: Worker)
    requires es != [] && e == es[|es| - 1] && Filler(e) != Some(a)
    requires Trains(net) && pristine != map[] && LegalRun(net, pristine, es)
    requires w0 == Run(net, pristine, es[..|es| - 1]) && w == Run(net, pristine, es)
    requires Good(w0) && Good(w) && Legal(net, w0, e) && Simulates(net, w0, e, w) && Fades(w0, w, Filler(e))
    requires AllPending(net, pristine, es[..|es| - 1], w0) && LeftFits(w) && a in w.slot.left.adapters
    ensures LastPass(net, pristine, Cycle(a, es), w.slot.adapters[a], w.slot.left.adapters[a])
  {
    if e.session == a {
      OwnEvent(net, pristine, es, e, a, w0, w);
    }
    CycleStays(es, e, a);
    AdapterIsSession(w0, a);
    SessionStays(net, w0, e, w, a);
    SameAdapter(w0, w, a);
  }

  /** Neither a pass nor a step of the session, nor a checkpoint or its start. */
  predicate Leaves(e: Event, a: SessionId) {
    e.session == a ==> e.Forward? || e.SaveWeights? || (e.ForwardBackward? && e.batch == [])
  }

  lemma CycleStays(es: seq<Event>, e: Event, a: SessionId)
    requires es != [] && e == es[|es| - 1] && Leaves(e, a)
    ensures Cycle(a, es) == Cycle(a, es[..|es| - 1])
  {
  }

  lemma SessionStays(net: Network, w0: Worker, e: Event, w: Worker, a: SessionId)
    requires Simulates(net, w0, e, w) && Leaves(e, a) && Session(w0, a).Some?
    ensures Session(w, a) == Session(w0, a)
  {
  }

  lemma SameAdapter(w0: Worker, w: Worker, a: SessionId)
    requires Shape(w0) && Shape(w) && a in w0.slot.adapters && a in w.slot.adapters
    requires Session(w, a).Some? && Session(w0, a).Some? && Session(w, a).value.weights == Session(w0, a).value.weights
    ensures w.slot.adapters[a] == w0.slot.adapters[a]
  {
    AdapterIsSession(w0, a);
    AdapterIsSession(w, a);
  }

  /** The session's own events that leave its leftover are neither passes nor steps. */
  lemma OwnEvent(net: Network, pristine: Weights, es: seq<Event>, e: Event, a: SessionId, w0: Worker, w: Worker)
    requires es != [] && e == es[|es| - 1] && Filler(e) != Some(a) && e.session == a
    requires Trains(net) && pristine != map[] && LegalRun(net, pristine, es)
    requires w0 == Run(net, pristine, es[..|es| - 1]) && w == Run(net, pristine, es)
    requires Good(w0) && Legal(net, w0, e) && a in w0.slot.adapters && a in w.slot.left.adapters
      && Cycle(a, es[..|es| - 1]) != []
    ensures Leaves(e, a)
  {
    AdapterIsSession(w0, a);
    StoredIsSession(w0, a);
    StoredMode(w0, w0, a);
    GradientsAreExact(net, pristine, a, es[..|es| - 1], w0);
    if e.OptimStep? {
      StepDrops(net, w0, a, e.byTokens, e.victim, Step(net, w0, e));
    }
  }

  /**
   * So what a full-parameter pass takes in after a legal run is the last gradient of the session
   * whose adapter is current, which has had a pass since its last optimizer step.
   */
  lemma TakenInIsPending(net: Network, pristine: Weights, es: seq<Event>, w: Worker, f: SessionId)
    requires Trains(net) && pristine != map[] && LegalRun(net, pristine, es) && w == Run(net, pristine, es)
    requires TakesIn(w, f)
    ensures var c := w.slot.current.value;
      && c in w.slot.adapters && Cycle(c, es) != []
      && Leftover(w) == AdapterNamed(c, w.slot.adapters[c],
           OwnGradient(net, pristine, Lora, w.slot.adapters[c], Cycle(c, es)[|Cycle(c, es)| - 1].batch))
  {
    LeftoverIsLastPass(net, pristine, es, w);
  }
}
