/** The worker object: every method changes the fields the way the specification says. */
module GPUWorkers {
  import opened Basics
  import opened JobTypes
  import opened WorkerState
  import opened WorkerInvariants
  import opened WorkerHandlers
  import opened PrivateSessions
  import opened NewSessions
  import opened WorkerRuns

  /** The step, when it is legal, keeps the invariant and touches its own session alone. */
  ghost predicate Lawful(net: Network, w: Worker, e: Event, v: Worker) {
    Trains(net) && Good(w) && Legal(net, w, e) ==> Good(v) && Simulates(net, w, e, v)
  }

  lemma LegalStep(net: Network, w: Worker, e: Event)
    ensures Lawful(net, w, e, Step(net, w, e))
  {
    if Trains(net) && Good(w) && Legal(net, w, e) {
      StepIsPrivate(net, w, e, Step(net, w, e));
    }
  }

  /** The accumulator after all gradients but those of `names` have been added. */
  ghost function AllBut(accum: Grads, g: Grads, names: set<LiveName>): Grads {
    Sum(accum, g - names)
  }

  lemma AddEntry(accum: Grads, g: Grads, names: set<LiveName>, n: LiveName)
    requires n in names && names <= g.Keys
    ensures var r := AllBut(accum, g, names);
      AllBut(accum, g, names - {n}) == r[n := if n in r then r[n] + g[n] else g[n]]
  {
    assert g - (names - {n}) == (g - names)[n := g[n]];
  }

  lemma NoneAndAll(accum: Grads, g: Grads)
    ensures AllBut(accum, g, g.Keys) == accum
    ensures AllBut(accum, g, {}) == Sum(accum, g)
  {
    assert g - {} == g;
    assert Sum(accum, g - g.Keys) == accum;
  }

  /** The names `named_parameters` lists. */
  function AllNames(w: Worker): set<LiveName> {
    (set n | n in w.slot.live :: BaseName(w.slot.wrapped, n))
    + (set a, n | a in w.slot.adapters && n in w.slot.adapters[a] :: InAdapter(a, n))
  }

  /** A parameter's `.grad`. */
  function GradOf(w: Worker, k: LiveName): Option<real> {
    match k
    case InAdapter(a, n) =>
      if a in w.slot.left.adapters && n in w.slot.left.adapters[a] then Some(w.slot.left.adapters[a][n]) else None
    case _ => if k.name in w.slot.left.base then Some(w.slot.left.base[k.name]) else None
  }

  /** A walk over all parameters finds what the specification collects. */
  lemma CollectedAt(w: Worker, k: LiveName)
    ensures k in Collected(w) <==> k in AllNames(w) && k in Trainable(w) && GradOf(w, k).Some?
    ensures k in Collected(w) ==> GradOf(w, k) == Some(Collected(w)[k])
  {
    if k.InAdapter? {
      AdapterAt(w, k);
    } else {
      BaseAt(w, k);
    }
  }

  lemma AdapterAt(w: Worker, k: LiveName)
    requires k.InAdapter?
    ensures k !in CollectedBase(w)
    ensures k in CollectedAdapter(w) <==> k in AllNames(w) && k in Trainable(w) && GradOf(w, k).Some?
    ensures k in CollectedAdapter(w) ==> GradOf(w, k) == Some(CollectedAdapter(w)[k])
  {
  }

  lemma BaseAt(w: Worker, k: LiveName)
    requires !k.InAdapter?
    ensures k !in CollectedAdapter(w)
    ensures k in CollectedBase(w) <==> k in AllNames(w) && k in Trainable(w) && GradOf(w, k).Some?
    ensures k in CollectedBase(w) ==> GradOf(w, k) == Some(CollectedBase(w)[k])
  {
  }

  /** The accumulator after all collected gradients but those of `names` have been added. */
  ghost function Unadded(accum: Grads, w: Worker, names: set<LiveName>): Grads {
    AllBut(accum, Collected(w), Collected(w).Keys * names)
  }

  lemma AllUnadded(accum: Grads, w: Worker)
    ensures Unadded(accum, w, AllNames(w)) == accum
    ensures Unadded(accum, w, {}) == Sum(accum, Collected(w))
  {
    forall k | k in Collected(w)
      ensures k in AllNames(w)
    {
      CollectedAt(w, k);
    }
    assert Collected(w).Keys * AllNames(w) == Collected(w).Keys && Collected(w).Keys * {} == {};
    NoneAndAll(accum, Collected(w));
  }

  /** One round of the accumulation loop: the gradient is added, or starts its entry. */
  function WithGrad(r: Grads, w: Worker, n: LiveName): Grads {
    var x := GradOf(w, n);
    if n in Trainable(w) && x.Some? then r[n := if n in r then r[n] + x.value else x.value] else r
  }

  lemma OneLessUnadded(accum: Grads, w: Worker, names: set<LiveName>, n: LiveName, r: Grads)
    requires n in names && n in AllNames(w) && r == Unadded(accum, w, names)
    ensures WithGrad(r, w, n) == Unadded(accum, w, names - {n})
  {
    CollectedAt(w, n);
    var g := Collected(w);
    if n in g {
      assert g.Keys * names - {n} == g.Keys * (names - {n});
      AddEntry(accum, g, g.Keys * names, n);
    } else {
      assert g.Keys * names == g.Keys * (names - {n});
    }
  }

  class GPUWorker {
    const net: Network
    const pristine: Weights
    var live: Weights
    var active: Option<SessionId>
    var adapters: map<SessionId, Weights>
    var current: Option<SessionId>
    var wrapped: set<ParamName>
    var flags: Flags
    var left: Left
    var fpBase: map<SessionId, Weights>
    var cache: map<SessionId, Runtime>
    var store: map<SessionId, Saved>

    function State(): Worker
      reads this
    {
      Worker(Slot(live, pristine, active, adapters, current, wrapped, flags, left), fpBase, cache, store)
    }

    ghost predicate Valid()
      reads this
    {
      Trains(net) && Good(State())
    }

    /** The pristine snapshot is taken at boot, before any session can change the base. */
    constructor (net: Network, loaded: Weights)
      requires Trains(net) && loaded != map[]
      ensures this.net == net && pristine == loaded && State() == Boot(loaded) && Valid()
    {
      this.net, pristine, live := net, loaded, loaded;
      active, current, adapters, wrapped, flags := None, None, map[], {}, Flags(false, None);
      left := Left(map[], map[]);
      fpBase, cache, store := map[], map[], map[];
    }

    // ---------- base weights ----------

    /** The names of the live model's state dict, adapters apart. */
    function LiveKeys(): (r: set<LiveName>)
      reads this
      ensures forall k :: k in r <==> !k.InAdapter? && k.name in live && k == BaseName(wrapped, k.name)
    {
      set n | n in live :: BaseName(wrapped, n)
    }

    /** The snapshot goes by unwrapped names. */
    method CaptureLiveBaseWeights() returns (out: Weights)
      ensures out == live
    {
      out := map[];
      var keys := LiveKeys();
      while keys != {}
        invariant keys <= LiveKeys()
        invariant forall n :: n in out <==> n in live && BaseName(wrapped, n) !in keys
        invariant forall n :: n in out ==> out[n] == live[n]
        decreases |keys|
      {
        var k :| k in keys;
        out := out[k.name := live[k.name]];
        keys := keys - {k};
      }
      assert out.Keys == live.Keys;
    }

    /** Unwrapped names are looked up as they are, then below the wrapping; unknown ones are skipped. */
    method LoadBaseIntoLive(sd: Weights)
      modifies this`live
      ensures State() == LoadedLive(old(State()), sd)
    {
      var payload: map<LiveName, real> := map[];
      var keys := sd.Keys;
      while keys != {}
        invariant keys <= sd.Keys
        invariant forall n :: n in live ==> (BaseName(wrapped, n) in payload <==> n in sd && n !in keys)
        invariant forall n :: n in live && n in sd && n !in keys ==> payload[BaseName(wrapped, n)] == sd[n]
        decreases |keys|
      {
        var k :| k in keys;
        keys := keys - {k};
        if Bare(k) in LiveKeys() {
          payload := payload[Bare(k) := sd[k]];
        } else if Wrapped(k) in LiveKeys() {
          payload := payload[Wrapped(k) := sd[k]];
        }
      }
      live := map n | n in live :: if BaseName(wrapped, n) in payload then payload[BaseName(wrapped, n)] else live[n];
      assert live == Load(old(live), sd);
    }

    method RestorePristineBase()
      modifies this`live
      ensures State() == RestorePristine(old(State()))
    {
      LoadBaseIntoLive(pristine);
    }

    method RestoreFullParamBase(s: SessionId)
      modifies this`live
      ensures State() == RestoreFullParam(old(State()), s)
    {
      if s !in fpBase {
        RestorePristineBase();
        return;
      }
      LoadBaseIntoLive(fpBase[s]);
    }

    method StashActiveFullParamBase()
      modifies this`fpBase
      ensures State() == Stash(old(State()))
    {
      if active.None? || active.value !in cache || cache[active.value].meta.mode != FullParam {
        return;
      }
      var captured := CaptureLiveBaseWeights();
      fpBase := fpBase[active.value := captured];
    }

    /** Which parameters the session trains: the base, or its own adapter. */
    method SetGradForSession(s: SessionId, mode: Mode)
      modifies this`current, this`flags
      ensures current == (if mode.Lora? then Some(s) else old(current))
      ensures flags == if mode.Lora? then Flags(false, Some(s)) else Flags(true, None)
    {
      if mode == FullParam {
        flags := Flags(true, None);
      } else {
        flags := Flags(false, None);
        SetAdapter(s);
      }
    }

    method SetAdapter(s: SessionId)
      modifies this`current, this`flags
      ensures current == Some(s) && flags == old(flags).(adapter := Some(s))
    {
      current := Some(s);
      flags := flags.(adapter := Some(s));
    }

    /** The adapters are off during a full-parameter pass and on again behind it. */
    method ExecContext(mode: Mode)
      modifies this`flags
      ensures State() == Passed(old(State()), mode)
    {
      if mode == FullParam {
        flags := flags.(adapter := None);
        flags := flags.(adapter := current);
      }
    }

    method ActivateSession(s: SessionId, mode: Mode)
      modifies this`fpBase, this`live, this`active, this`current, this`flags
      ensures State() == Activate(old(State()), s, mode)
    {
      if active != Some(s) {
        var outgoingIsFp := active.Some? && active.value in cache && cache[active.value].meta.mode == FullParam;
        StashActiveFullParamBase();
        if mode == FullParam {
          RestoreFullParamBase(s);
        } else if outgoingIsFp {
          RestorePristineBase();
        }
        active := Some(s);
        SetGradForSession(s, mode);
      } else if mode == Lora {
        SetAdapter(s);
      }
    }

    // ---------- cache ----------

    method OnEvict(s: SessionId, mode: Mode)
      modifies this`fpBase, this`live, this`active, this`adapters, this`current, this`wrapped, this`flags, this`left
      ensures State() == WorkerState.OnEvict(old(State()), s, mode)
    {
      if mode == FullParam {
        fpBase := Without(fpBase, s);
        if active == Some(s) {
          RestorePristineBase();
          active := None;
        }
      } else {
        DeleteAdapter(s);
        if active == Some(s) {
          active := None;
        }
      }
    }

    /** Deleting the current adapter selects another one, if there is any. */
    method DeleteAdapter(s: SessionId)
      modifies this`adapters, this`current, this`flags, this`left
      ensures State() == Deleted(old(State()), s)
    {
      adapters := Without(adapters, s);
      left := left.(adapters := Without(left.adapters, s));
      if current == Some(s) {
        var heir := Heir(adapters);
        current := heir;
        flags := flags.(adapter := heir);
      } else if flags.adapter == Some(s) {
        flags := flags.(adapter := None);
      }
    }

    method CacheEvict(s: SessionId)
      modifies this`cache, this`fpBase, this`live, this`active, this`adapters, this`current, this`wrapped, this`flags,
        this`left
      ensures State() == Evict(old(State()), s)
    {
      if s in cache {
        var mode := cache[s].meta.mode;
        cache := Without(cache, s);
        OnEvict(s, mode);
      }
    }

    method CachePut(s: SessionId, rt: Runtime, victim: Option<SessionId>)
      modifies this`cache, this`fpBase, this`live, this`active, this`adapters, this`current, this`wrapped, this`flags,
        this`left
      ensures State() == Put(old(State()), s, rt, victim)
    {
      var known := s in cache;
      cache := cache[s := rt];
      if !known && victim.Some? {
        CacheEvict(victim.value);
      }
    }

    method AttachFullParamSession(s: SessionId, weights: Weights)
      modifies this`fpBase
      ensures State() == AttachFullParam(old(State()), s, weights)
    {
      StashActiveFullParamBase();
      if weights != map[] {
        fpBase := fpBase[s := weights];
      } else if s !in fpBase {
        fpBase := fpBase[s := pristine];
      }
    }

    /** Adding the adapter wraps its targets and freezes the base. */
    method AttachAdapter(s: SessionId, targets: set<ParamName>, weights: Weights)
      modifies this`adapters, this`current, this`wrapped, this`flags, this`left
      ensures State() == WorkerState.AttachAdapter(old(State()), s, targets, weights)
    {
      wrapped := wrapped + targets;
      adapters := adapters[s := weights];
      flags := Flags(false, None);
      SetAdapter(s);
    }

    // ---------- store ----------

    /** None stands for the lookup error of a session that was never stored. */
    method LoadSessionFromStore(s: SessionId, victim: Option<SessionId>) returns (rt: Option<Runtime>)
      modifies this`cache, this`fpBase, this`live, this`active, this`adapters, this`current, this`wrapped, this`flags,
        this`left
      ensures rt.Some? <==> s in store && Loadable(store[s])
      ensures rt.None? ==> State() == old(State())
      ensures rt.Some? ==> rt.value == Revived(old(store)[s]) && State() == LoadSession(old(State()), s, victim)
    {
      if s !in store {
        return None;
      }
      var saved := store[s];
      var usePristine := saved.meta.mode == FullParam && saved.meta.pristineInit;
      if !usePristine && saved.weights == None {
        if saved.meta.mode == Lora {
          return None;
        }
        usePristine := true;
      }
      var weights := if usePristine then pristine else saved.weights.value;
      if saved.meta.mode == FullParam {
        AttachFullParamSession(s, weights);
      } else {
        AttachAdapter(s, saved.meta.targets, weights);
      }
      var revived := Revived(saved);
      CachePut(s, revived, victim);
      return Some(revived);
    }

    method EnsureSessionLoaded(s: SessionId, victim: Option<SessionId>) returns (rt: Option<Runtime>)
      modifies this`cache, this`fpBase, this`live, this`active, this`adapters, this`current, this`wrapped, this`flags,
        this`left
      ensures Ensure(old(State()), s, victim) == if rt.Some? then Opened(State(), rt.value) else Missing(State())
    {
      if s in cache {
        if !Stale(State(), s) {
          return Some(cache[s]);
        }
        CacheEvict(s);
      }
      ghost var out := State();
      assert out == Evict(old(State()), s);
      rt := LoadSessionFromStore(s, victim);
    }

    /** False when the adapter to be saved is gone. */
    method SaveSessionToStore(s: SessionId, rt: Runtime) returns (ok: bool)
      modifies this`store, this`fpBase
      ensures State() == Save(old(State()), s, rt)
      ensures ok <==> (rt.meta.mode.Lora? ==> s in adapters)
    {
      var weights: Weights := map[];
      if rt.meta.mode == FullParam {
        if active == Some(s) {
          weights := CaptureLiveBaseWeights();
          fpBase := fpBase[s := weights];
        } else if s in fpBase {
          weights := fpBase[s];
        }
      } else {
        if s !in adapters {
          return false;
        }
        weights := adapters[s];
      }
      var file := if s in store then store[s].grads else None;
      if rt.grads != map[] {
        file := Some(if rt.meta.accumSteps == 0 then map[] else rt.grads);
      }
      store := store[s := Saved(rt.meta, Some(weights), file)];
      return true;
    }

    // ---------- handlers ----------

    method HandleForward(s: SessionId, victim: Option<SessionId>) returns (ok: bool)
      modifies this
      ensures State() == Step(net, old(State()), Forward(s, victim))
      ensures ok == Succeeds(old(State()), Event.Forward(s, victim))
    {
      var rt := EnsureSessionLoaded(s, victim);
      if rt.None? {
        return false;
      }
      ActivateSession(s, rt.value.meta.mode);
      if rt.value.meta.mode == Lora && s !in adapters {
        return false;
      }
      ExecContext(rt.value.meta.mode);
      return true;
    }

    method HandleSaveWeights(s: SessionId) returns (ok: bool)
      modifies this
      ensures State() == Step(net, old(State()), SaveWeights(s))
      ensures ok == Succeeds(old(State()), Event.SaveWeights(s))
    {
      if s !in cache {
        return false;
      }
      ok := SaveSessionToStore(s, cache[s]);
    }

    method HandleForwardBackward(s: SessionId, batch: Batch, tokens: nat, victim: Option<SessionId>) returns (ok: bool)
      modifies this
      ensures State() == Step(net, old(State()), ForwardBackward(s, batch, tokens, victim))
      ensures ok == Succeeds(old(State()), Event.ForwardBackward(s, batch, tokens, victim))
    {
      var rt := EnsureSessionLoaded(s, victim);
      if rt.None? {
        return false;
      }
      ActivateSession(s, rt.value.meta.mode);
      ok := BackwardAndSave(s, rt.value, batch, tokens);
    }

    method BackwardAndSave(s: SessionId, rt: Runtime, batch: Batch, tokens: nat) returns (ok: bool)
      modifies this
      ensures State() == WorkerState.BackwardAndSave(net, old(State()), s, rt, batch, tokens)
      ensures ok == (Ready(old(State()), s, rt.meta.mode) && batch != [])
    {
      var meta := rt.meta;
      if (meta.mode == Lora && (s !in adapters || current != Some(s))) || batch == [] {
        return false;
      }
      BackwardPass(s, meta.mode, batch);
      var accum := AccumulateOnCpu(rt.grads);
      var next := Runtime(meta.(accumSteps := meta.accumSteps + 1, lossTokens := meta.lossTokens + tokens), accum);
      if s in cache {
        cache := cache[s := next];
      }
      ok := SaveSessionToStore(s, next);
    }

    /** `p.grad = None` for every trainable parameter. */
    method ClearGrads()
      modifies this`left
      ensures State() == Cleared(old(State()))
    {
      if flags.base {
        left := left.(base := map[]);
      }
      if flags.adapter.Some? {
        left := left.(adapters := Without(left.adapters, flags.adapter.value));
      }
    }

    /** The `.grad` fields are dropped and filled; nothing reaches a frozen base. */
    method BackwardPass(s: SessionId, mode: Mode, batch: Batch)
      requires Ready(State(), s, mode)
      modifies this`flags, this`left
      ensures State() == AfterPass(net, old(State()), s, mode, batch)
    {
      ClearGrads();
      if mode == Lora {
        var own := adapters[s];
        left := left.(adapters := left.adapters[s := Restrict(own, net.loraGrad(live, own, batch))]);
      } else if flags.base {
        left := left.(base := Restrict(live, net.fpGrad(live, batch)));
      }
      ExecContext(mode);
    }

    /** Every trainable parameter that has a `.grad` adds it to the accumulator, or starts its entry. */
    method AccumulateOnCpu(accum: Grads) returns (r: Grads)
      ensures r == Sum(accum, Collected(State()))
    {
      r := AccumulateAll(accum, State());
    }

    static method AccumulateAll(accum: Grads, w: Worker) returns (r: Grads)
      ensures r == Sum(accum, Collected(w))
    {
      r := accum;
      var names := AllNames(w);
      AllUnadded(accum, w);
      while names != {}
        invariant names <= AllNames(w) && r == Unadded(accum, w, names)
        decreases |names|
      {
        var n :| n in names;
        OneLessUnadded(accum, w, names, n, r);
        r := WithGrad(r, w, n);
        names := names - {n};
      }
    }

    /** One optimizer over the trainable parameters; those without a gradient are skipped, and all are cleared. */
    method TakeStep(g: Grads)
      modifies this`live, this`adapters, this`left
      ensures State() == Trained(net, old(State()), g)
    {
      var before := live;
      if flags.base {
        var own := BaseGrads(wrapped, live, g);
        if own != map[] {
          LoadBaseIntoLive(net.fpStep(live, own));
        }
      }
      if flags.adapter.Some? && flags.adapter.value in adapters {
        var a := flags.adapter.value;
        var own := AdapterGrads(a, adapters[a], g);
        if own != map[] {
          adapters := adapters[a := Load(adapters[a], net.loraStep(before, adapters[a], own))];
        }
        assert adapters == old(adapters)[a := SteppedAdapter(net, old(State()), a, g)];
      }
      ClearGrads();
    }

    method HandleOptimStep(s: SessionId, byTokens: bool, victim: Option<SessionId>) returns (ok: bool)
      modifies this
      ensures State() == Step(net, old(State()), OptimStep(s, byTokens, victim))
      ensures ok == Succeeds(old(State()), Event.OptimStep(s, byTokens, victim))
    {
      var rt := EnsureSessionLoaded(s, victim);
      if rt.None? {
        return false;
      }
      ActivateSession(s, rt.value.meta.mode);
      ok := StepAndSave(s, rt.value, byTokens);
    }

    method StepAndSave(s: SessionId, rt: Runtime, byTokens: bool) returns (ok: bool)
      modifies this
      ensures State() == WorkerState.StepAndSave(net, old(State()), s, rt, byTokens)
      ensures ok == (Ready(old(State()), s, rt.meta.mode) && rt.grads != map[] && Trainable(old(State())) != {})
    {
      var meta := rt.meta;
      if (meta.mode == Lora && (s !in adapters || current != Some(s))) || rt.grads == map[] {
        return false;
      }
      var params := Trainable(State());
      if params == {} {
        return false;
      }
      TakeStep(Normalized(rt.grads, meta.lossTokens, byTokens));
      var next := Runtime(meta.(totalSteps := meta.totalSteps + 1, accumSteps := 0, lossTokens := 0), Zeros(params));
      if s in cache {
        cache := cache[s := next];
      }
      ok := SaveSessionToStore(s, next);
    }

    method TakeCheckpoint(s: SessionId, mode: Mode, ckpt: Weights)
      requires mode == Lora ==> s in adapters
      modifies this`fpBase, this`live, this`adapters
      ensures State() == Replaced(old(State()), s, mode, ckpt)
    {
      if mode == FullParam {
        fpBase := fpBase[s := ckpt];
        if active == Some(s) {
          LoadBaseIntoLive(ckpt);
        }
      } else {
        adapters := adapters[s := Load(adapters[s], ckpt)];
      }
    }

    method HandleLoadWeights(s: SessionId, ckpt: Weights, victim: Option<SessionId>) returns (ok: bool)
      modifies this
      ensures State() == Step(net, old(State()), LoadWeights(s, ckpt, victim))
      ensures ok == Succeeds(old(State()), Event.LoadWeights(s, ckpt, victim))
    {
      var rt := EnsureSessionLoaded(s, victim);
      if rt.None? {
        return false;
      }
      if rt.value.meta.mode == Lora && s !in adapters {
        return false;
      }
      ok := CheckpointAndSave(s, rt.value, ckpt);
    }

    method CheckpointAndSave(s: SessionId, rt: Runtime, ckpt: Weights) returns (ok: bool)
      requires rt.meta.mode.Lora? ==> s in adapters
      modifies this
      ensures var next := rt.(grads := map[]);
        State() == Save(Keep(Replaced(old(State()), s, rt.meta.mode, ckpt), s, next), s, next)
      ensures ok
    {
      TakeCheckpoint(s, rt.meta.mode, ckpt);
      assert rt.meta.mode.Lora? ==> s in adapters;
      var next := rt.(grads := map[]);
      if s in cache {
        cache := cache[s := next];
      }
      ok := SaveSessionToStore(s, next);
    }

    /** `incumbents` is the order in which the gate visits the full-parameter sessions. */
    method EnforceFftCapacity(s: SessionId, incumbents: seq<SessionId>) returns (admitted: bool)
      modifies this`cache, this`fpBase, this`live, this`active, this`adapters, this`current, this`wrapped, this`flags,
        this`left
      ensures (State(), admitted) == Gate(old(State()), s, incumbents)
    {
      var i := 0;
      while i < |incumbents|
        invariant 0 <= i <= |incumbents|
        invariant Gate(State(), s, incumbents[i..]) == Gate(old(State()), s, incumbents)
      {
        var sid := incumbents[i];
        assert incumbents[i..][0] == sid && incumbents[i..][1..] == incumbents[i + 1..];
        if sid != s {
          if sid in cache && cache[sid].meta.totalSteps != 0 {
            return false;
          }
          CacheEvict(sid);
          fpBase := Without(fpBase, sid);
        }
        i := i + 1;
      }
      return true;
    }

    method HandleInitFullParam(s: SessionId, incumbents: seq<SessionId>, victim: Option<SessionId>) returns (ok: bool)
      modifies this
      ensures State() == Step(net, old(State()), InitFullParam(s, incumbents, victim))
      ensures ok == Succeeds(old(State()), Event.InitFullParam(s, incumbents, victim))
    {
      var admitted := EnforceFftCapacity(s, incumbents);
      if !admitted {
        return false;
      }
      AttachFullParamSession(s, map[]);
      var rt := Runtime(NewMeta(FullParam, {}), map[]);
      CachePut(s, rt, victim);
      var meta := rt.meta.(pristineInit := true);
      store := store[s := if s in store then store[s].(meta := meta) else Saved(meta, None, None)];
      return true;
    }

    method HandleInitLora(s: SessionId, targets: set<ParamName>, initial: Weights,
        victim: Option<SessionId>) returns (ok: bool)
      modifies this
      ensures State() == Step(net, old(State()), InitLora(s, targets, initial, victim))
      ensures ok == Succeeds(old(State()), Event.InitLora(s, targets, initial, victim))
    {
      AttachAdapter(s, targets, initial);
      var rt := Runtime(NewMeta(Lora, targets), map[]);
      CachePut(s, rt, victim);
      ok := SaveSessionToStore(s, rt);
    }

    /** One job under the model lock; an unknown session makes the handler fail. */
    method ExecuteJob(e: Event) returns (ok: bool)
      modifies this
      ensures State() == Step(net, old(State()), e)
      ensures ok == Succeeds(old(State()), e)
      ensures Lawful(net, old(State()), e, State())
    {
      LegalStep(net, State(), e);
      match e
      case InitFullParam(s, incumbents, victim) => ok := HandleInitFullParam(s, incumbents, victim);
      case InitLora(s, targets, initial, victim) => ok := HandleInitLora(s, targets, initial, victim);
      case Forward(s, victim) => ok := HandleForward(s, victim);
      case ForwardBackward(s, batch, tokens, victim) => ok := HandleForwardBackward(s, batch, tokens, victim);
      case OptimStep(s, byTokens, victim) => ok := HandleOptimStep(s, byTokens, victim);
      case SaveWeights(s) => ok := HandleSaveWeights(s);
      case LoadWeights(s, ckpt, victim) => ok := HandleLoadWeights(s, ckpt, victim);
    }
  }
}
