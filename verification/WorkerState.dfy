/** One GPU worker: a live base model shared by adapter and full-parameter sessions. */
module WorkerState {
  import opened Basics
  import opened JobTypes
  import Names

  type ParamName = string

  /** State dicts, keyed by the names of the unwrapped model or, for an adapter, by its own. */
  type Weights = map<ParamName, real>

  /** Gradients by parameter; a parameter that is missing has none, which is not the same as zero. */
  type ParamGrads = map<ParamName, real>

  /**
   * The names under which `named_parameters` lists the live model: wrapping a layer for adapters
   * moves its parameter below `.base_layer`.
   */
  datatype LiveName = Bare(name: ParamName) | Wrapped(name: ParamName) | InAdapter(owner: SessionId, name: ParamName)

  /** Accumulated gradients go by the live names of the time they were added. */
  type Grads = map<LiveName, real>
  type Batch = seq<int>

  datatype Mode = Lora | FullParam

  /** `targets` are the base parameters that the session's adapter configuration wraps. */
  datatype Meta = Meta(
    mode: Mode,
    targets: set<ParamName>,
    totalSteps: nat,
    accumSteps: nat,
    lossTokens: nat,
    pristineInit: bool)

  /** A resident session. */
  datatype Runtime = Runtime(meta: Meta, grads: Grads)

  /** A session's files: `session_meta.json`, `lora_weights.pt` and `grad_accum.pt`. */
  datatype Saved = Saved(meta: Meta, weights: Option<Weights>, grads: Option<Grads>)

  /** Which parameters require gradients: the base, and one session's adapter. */
  datatype Flags = Flags(base: bool, adapter: Option<SessionId>)

  /**
   * The `.grad` fields: what backward passes left behind. They belong to the parameters themselves,
   * so wrapping does not rename them; an adapter with no entry has none.
   */
  datatype Left = Left(base: ParamGrads, adapters: map<SessionId, ParamGrads>)

  /**
   * `live` is keyed by unwrapped names and `wrapped` says which parameters go by another one;
   * `current` is the adapter the wrapped model forwards through.
   */
  datatype Slot = Slot(
    live: Weights,
    pristine: Weights,
    active: Option<SessionId>,
    adapters: map<SessionId, Weights>,
    current: Option<SessionId>,
    wrapped: set<ParamName>,
    flags: Flags,
    left: Left)

  datatype Worker = Worker(
    slot: Slot,
    fpBase: map<SessionId, Weights>,
    cache: map<SessionId, Runtime>,
    store: map<SessionId, Saved>)

  /** The numerical side: gradients and optimizer steps as functions of the weights they run on. */
  datatype Network = Network(
    fpGrad: (Weights, Batch) -> ParamGrads,
    loraGrad: (Weights, Weights, Batch) -> ParamGrads,
    fpStep: (Weights, ParamGrads) -> Weights,
    loraStep: (Weights, Weights, ParamGrads) -> Weights)

  // ---------- base weights ----------

  /** `load_state_dict(strict=False)`: names missing from `sd` keep their live value. */
  function Load(live: Weights, sd: Weights): (r: Weights)
    ensures r.Keys == live.Keys
  {
    map n | n in live :: if n in sd then sd[n] else live[n]
  }

  predicate IsFullParam(w: Worker, s: SessionId) {
    s in w.cache && w.cache[s].meta.mode.FullParam?
  }

  predicate ActiveIsFullParam(w: Worker) {
    w.slot.active.Some? && IsFullParam(w, w.slot.active.value)
  }

  function Stash(w: Worker): Worker {
    if ActiveIsFullParam(w) then w.(fpBase := w.fpBase[w.slot.active.value := w.slot.live]) else w
  }

  function LoadedLive(w: Worker, sd: Weights): Worker {
    w.(slot := w.slot.(live := Load(w.slot.live, sd)))
  }

  function RestorePristine(w: Worker): Worker {
    LoadedLive(w, w.slot.pristine)
  }

  function RestoreFullParam(w: Worker, s: SessionId): Worker {
    if s in w.fpBase then LoadedLive(w, w.fpBase[s]) else RestorePristine(w)
  }

  /** A change of session sets the trainable flags anew. */
  function Facing(w: Worker, s: SessionId, mode: Mode): Worker {
    w.(slot := w.slot.(
       active := Some(s),
       current := if mode.Lora? then Some(s) else w.slot.current,
       flags := if mode.Lora? then Flags(false, Some(s)) else Flags(true, None)))
  }

  /** Selecting an adapter makes it, and no other adapter, trainable. */
  function Selected(w: Worker, s: SessionId): Worker {
    w.(slot := w.slot.(current := Some(s), flags := w.slot.flags.(adapter := Some(s))))
  }

  function Activate(w: Worker, s: SessionId, mode: Mode): Worker {
    if w.slot.active != Some(s) then
      var stashed := Stash(w);
      var swapped :=
        if mode.FullParam? then RestoreFullParam(stashed, s)
        else if ActiveIsFullParam(w) then RestorePristine(stashed)
        else stashed;
      Facing(swapped, s, mode)
    else if mode.Lora? then Selected(w, s)
    else w
  }

  /** Selecting an adapter that was deleted raises. */
  predicate Ready(w: Worker, s: SessionId, mode: Mode) {
    mode.Lora? ==> s in w.slot.adapters && w.slot.current == Some(s)
  }

  /** Switching the adapters off for a full-parameter pass, and on again behind it, makes the current one trainable. */
  function Passed(w: Worker, mode: Mode): Worker {
    if mode.FullParam? then w.(slot := w.slot.(flags := w.slot.flags.(adapter := w.slot.current))) else w
  }

  // ---------- the cache ----------

  function OnEvict(w: Worker, s: SessionId, mode: Mode): Worker {
    if mode.FullParam? then
      var dropped := w.(fpBase := Without(w.fpBase, s));
      if w.slot.active == Some(s) then
        var clean := RestorePristine(dropped);
        clean.(slot := clean.slot.(active := None))
      else dropped
    else
      var deleted := Deleted(w, s);
      if w.slot.active == Some(s) then deleted.(slot := deleted.slot.(active := None)) else deleted
  }

  /** The adapter that is selected when the current one is deleted: the first by name. */
  function Heir(adapters: map<SessionId, Weights>): (r: Option<SessionId>)
    ensures if adapters == map[] then r.None? else r.Some? && r.value in adapters
  {
    var first := Names.First(adapters.Keys);
    assert first.None? ==> adapters.Keys == {};
    first
  }

  /** Deleting the current adapter selects another one and makes it trainable, whoever is active. */
  function Deleted(w: Worker, s: SessionId): Worker {
    var rest := Without(w.slot.adapters, s);
    var slot := w.slot.(adapters := rest, left := w.slot.left.(adapters := Without(w.slot.left.adapters, s)));
    if w.slot.current == Some(s) then
      w.(slot := slot.(current := Heir(rest), flags := w.slot.flags.(adapter := Heir(rest))))
    else if w.slot.flags.adapter == Some(s) then w.(slot := slot.(flags := w.slot.flags.(adapter := None)))
    else w.(slot := slot)
  }

  function Evict(w: Worker, s: SessionId): Worker {
    if s in w.cache then OnEvict(w.(cache := Without(w.cache, s)), s, w.cache[s].meta.mode) else w
  }

  /** `cache.put`; `victim` is what the full cache chooses to drop, possibly `s` itself. */
  function Put(w: Worker, s: SessionId, rt: Runtime, victim: Option<SessionId>): Worker {
    var inserted := w.(cache := w.cache[s := rt]);
    if s in w.cache || victim.None? then inserted else Evict(inserted, victim.value)
  }

  /** Mutating the runtime object is visible in the cache while the cache still holds it. */
  function Keep(w: Worker, s: SessionId, rt: Runtime): Worker {
    if s in w.cache then w.(cache := w.cache[s := rt]) else w
  }

  function AttachFullParam(w: Worker, s: SessionId, weights: Weights): Worker {
    var stashed := Stash(w);
    if weights != map[] then stashed.(fpBase := stashed.fpBase[s := weights])
    else if s !in stashed.fpBase then stashed.(fpBase := stashed.fpBase[s := w.slot.pristine])
    else stashed
  }

  /** Adding an adapter wraps its targets in place, freezes the base and makes the adapter trainable. */
  function AttachAdapter(w: Worker, s: SessionId, targets: set<ParamName>, weights: Weights): Worker {
    w.(slot := w.slot.(
       adapters := w.slot.adapters[s := weights],
       current := Some(s),
       wrapped := w.slot.wrapped + targets,
       flags := Flags(false, Some(s))))
  }

  function Attach(w: Worker, s: SessionId, meta: Meta, weights: Weights): Worker {
    if meta.mode.FullParam? then AttachFullParam(w, s, weights) else AttachAdapter(w, s, meta.targets, weights)
  }

  // ---------- the store ----------

  function Pending(saved: Saved): Grads {
    if saved.grads.Some? then saved.grads.value else map[]
  }

  predicate Loadable(saved: Saved) {
    saved.meta.mode.Lora? ==> saved.weights.Some?
  }

  /** The weights a reload materializes. */
  function StoredWeights(saved: Saved, pristine: Weights): Weights
    requires Loadable(saved)
  {
    if saved.meta.mode.FullParam? && (saved.meta.pristineInit || saved.weights.None?) then pristine
    else saved.weights.value
  }

  function Revived(saved: Saved): Runtime {
    Runtime(saved.meta, Pending(saved))
  }

  function LoadSession(w: Worker, s: SessionId, victim: Option<SessionId>): Worker
    requires s in w.store && Loadable(w.store[s])
  {
    var saved := w.store[s];
    Put(Attach(w, s, saved.meta, StoredWeights(saved, w.slot.pristine)), s, Revived(saved), victim)
  }

  /** The store has moved ahead of the resident copy. */
  predicate Stale(w: Worker, s: SessionId)
    requires s in w.cache
  {
    s in w.store &&
    var there, here := w.store[s].meta, w.cache[s].meta;
    there.totalSteps > here.totalSteps || (there.totalSteps == here.totalSteps && there.accumSteps > here.accumSteps)
  }

  datatype Opening = Opened(worker: Worker, runtime: Runtime) | Missing(worker: Worker)

  function Ensure(w: Worker, s: SessionId, victim: Option<SessionId>): Opening {
    if s in w.cache && !Stale(w, s) then Opened(w, w.cache[s])
    else
      var out := Evict(w, s);
      if s in out.store && Loadable(out.store[s]) then Opened(LoadSession(out, s, victim), Revived(out.store[s]))
      else Missing(out)
  }

  /** An empty accumulator leaves the old file; a finished cycle overwrites it with nothing. */
  function GradFile(previous: Option<Grads>, rt: Runtime): Option<Grads> {
    if rt.grads == map[] then previous
    else if rt.meta.accumSteps == 0 then Some(map[])
    else Some(rt.grads)
  }

  function OldGrads(w: Worker, s: SessionId): Option<Grads> {
    if s in w.store then w.store[s].grads else None
  }

  /** Saving an adapter that was deleted raises and writes nothing. */
  function Save(w: Worker, s: SessionId, rt: Runtime): Worker {
    var grads := GradFile(OldGrads(w, s), rt);
    if rt.meta.mode.Lora? then
      if s in w.slot.adapters then w.(store := w.store[s := Saved(rt.meta, Some(w.slot.adapters[s]), grads)]) else w
    else if w.slot.active == Some(s) then
      w.(store := w.store[s := Saved(rt.meta, Some(w.slot.live), grads)], fpBase := w.fpBase[s := w.slot.live])
    else
      w.(store := w.store[s := Saved(rt.meta, Some(if s in w.fpBase then w.fpBase[s] else map[]), grads)])
  }

  /** Only the meta file is written for a new full-parameter session. */
  function SaveMarker(w: Worker, s: SessionId, rt: Runtime): Worker {
    var meta := rt.meta.(pristineInit := true);
    w.(store := w.store[s := if s in w.store then w.store[s].(meta := meta) else Saved(meta, None, None)])
  }

  // ---------- gradients ----------

  function Read<K(!new)>(g: map<K, real>, n: K): real {
    if n in g then g[n] else 0.0
  }

  function Sum<K(!new)>(a: map<K, real>, b: map<K, real>): (r: map<K, real>)
    ensures r.Keys == a.Keys + b.Keys
    ensures forall n :: Read(r, n) == Read(a, n) + Read(b, n)
  {
    map n | n in a.Keys + b.Keys :: Read(a, n) + Read(b, n)
  }

  function Nonzero<K(!new)>(g: map<K, real>): map<K, real> {
    map n | n in g && g[n] != 0.0 :: g[n]
  }

  function BaseName(wrapped: set<ParamName>, n: ParamName): LiveName {
    if n in wrapped then Wrapped(n) else Bare(n)
  }

  /** The parameters an optimizer is built over. */
  function Trainable(w: Worker): set<LiveName> {
    (if w.slot.flags.base then set n | n in w.slot.live :: BaseName(w.slot.wrapped, n) else {})
    + (var a := w.slot.flags.adapter;
       if a.Some? && a.value in w.slot.adapters then
         set n | n in w.slot.adapters[a.value] :: InAdapter(a.value, n)
       else {})
  }

  /** The gradients that the base parameters find under their present names. */
  function BaseGrads(wrapped: set<ParamName>, params: Weights, g: Grads): ParamGrads {
    map n | n in params && BaseName(wrapped, n) in g :: g[BaseName(wrapped, n)]
  }

  function AdapterGrads(s: SessionId, params: Weights, g: Grads): ParamGrads {
    map n | n in params && InAdapter(s, n) in g :: g[InAdapter(s, n)]
  }

  /** Parameters and their live names, the other way round. */
  function BaseNamed(wrapped: set<ParamName>, params: Weights, g: ParamGrads): Grads {
    map k | k in (set n | n in params && n in g :: BaseName(wrapped, n)) :: g[k.name]
  }

  function AdapterNamed(s: SessionId, params: Weights, g: ParamGrads): Grads {
    map k | k in (set n | n in params && n in g :: InAdapter(s, n)) :: g[k.name]
  }

  function Named(wrapped: set<ParamName>, s: SessionId, mode: Mode, params: Weights, g: ParamGrads): Grads {
    if mode.FullParam? then BaseNamed(wrapped, params, g) else AdapterNamed(s, params, g)
  }

  function Zeros(names: set<LiveName>): Grads {
    map n | n in names :: 0.0
  }

  /** Division by the loss tokens of the cycle, when the caller asks for it. */
  function Normalized<K(!new)>(g: map<K, real>, tokens: nat, byTokens: bool): map<K, real> {
    if byTokens && tokens > 1 then map n | n in g :: g[n] / tokens as real else g
  }

  /** Gradients of the model's own parameters. */
  function Restrict(params: Weights, g: ParamGrads): ParamGrads {
    map n | n in params && n in g :: g[n]
  }

  /** The `.grad` fields of what is trainable are dropped: before a pass, and behind a step. */
  function Cleared(w: Worker): Worker {
    var f := w.slot.flags;
    w.(slot := w.slot.(left := Left(
       if f.base then map[] else w.slot.left.base,
       if f.adapter.Some? then Without(w.slot.left.adapters, f.adapter.value) else w.slot.left.adapters)))
  }

  /**
   * The module runs on the live base, through the current adapter for adapter sessions. A frozen
   * base gets no gradient: the pass goes through and fills nothing.
   */
  function Filled(net: Network, w: Worker, s: SessionId, mode: Mode, batch: Batch): Worker
    requires Ready(w, s, mode)
  {
    var left := w.slot.left;
    if mode.Lora? then
      var own := w.slot.adapters[s];
      var g := Restrict(own, net.loraGrad(w.slot.live, own, batch));
      w.(slot := w.slot.(left := left.(adapters := left.adapters[s := g])))
    else if w.slot.flags.base then
      w.(slot := w.slot.(left := left.(base := Restrict(w.slot.live, net.fpGrad(w.slot.live, batch)))))
    else w
  }

  /** One backward pass: clear, run, and switch the adapters on again behind a full-parameter one. */
  function AfterPass(net: Network, w: Worker, s: SessionId, mode: Mode, batch: Batch): Worker
    requires Ready(w, s, mode)
  {
    Passed(Filled(net, Cleared(w), s, mode, batch), mode)
  }

  /** What the accumulation loop finds: every trainable parameter with a `.grad`, by its live name. */
  function Collected(w: Worker): Grads {
    CollectedBase(w) + CollectedAdapter(w)
  }

  function CollectedBase(w: Worker): Grads {
    if w.slot.flags.base then BaseNamed(w.slot.wrapped, w.slot.live, w.slot.left.base) else map[]
  }

  function CollectedAdapter(w: Worker): Grads {
    var a := w.slot.flags.adapter;
    if a.Some? && a.value in w.slot.adapters && a.value in w.slot.left.adapters then
      AdapterNamed(a.value, w.slot.adapters[a.value], w.slot.left.adapters[a.value])
    else map[]
  }

  function Accumulated(rt: Runtime, g: Grads, tokens: nat): Runtime {
    Runtime(rt.meta.(accumSteps := rt.meta.accumSteps + 1, lossTokens := rt.meta.lossTokens + tokens), Sum(rt.grads, g))
  }

  function Stepped(rt: Runtime, names: set<LiveName>): Runtime {
    Runtime(rt.meta.(totalSteps := rt.meta.totalSteps + 1, accumSteps := 0, lossTokens := 0), Zeros(names))
  }

  /** The optimizer steps what is trainable and skips every parameter without a gradient. */
  function SteppedBase(net: Network, w: Worker, g: Grads): Weights {
    var own := BaseGrads(w.slot.wrapped, w.slot.live, g);
    if w.slot.flags.base && own != map[] then Load(w.slot.live, net.fpStep(w.slot.live, own)) else w.slot.live
  }

  function SteppedAdapter(net: Network, w: Worker, a: SessionId, g: Grads): Weights
    requires a in w.slot.adapters
  {
    var params := w.slot.adapters[a];
    var own := AdapterGrads(a, params, g);
    if own != map[] then Load(params, net.loraStep(w.slot.live, params, own)) else params
  }

  /** One step, and the `.grad` fields it used are dropped. */
  function Trained(net: Network, w: Worker, g: Grads): Worker {
    var a := w.slot.flags.adapter;
    w.(slot := w.slot.(
       left := Cleared(w).slot.left,
       live := SteppedBase(net, w, g),
       adapters :=
         if a.Some? && a.value in w.slot.adapters then w.slot.adapters[a.value := SteppedAdapter(net, w, a.value, g)]
         else w.slot.adapters))
  }

  // ---------- handlers ----------

  /** Sampling and the other read-only operations. */
  function Forward(w: Worker, s: SessionId, victim: Option<SessionId>): Worker {
    match Ensure(w, s, victim)
    case Missing(out) => out
    case Opened(w1, rt) =>
      var w2 := Activate(w1, s, rt.meta.mode);
      if Ready(w2, s, rt.meta.mode) then Passed(w2, rt.meta.mode) else w2
  }

  function ForwardBackward(net: Network, w: Worker, s: SessionId, batch: Batch, tokens: nat,
      victim: Option<SessionId>): Worker {
    match Ensure(w, s, victim)
    case Missing(out) => out
    case Opened(w1, rt) => BackwardAndSave(net, Activate(w1, s, rt.meta.mode), s, rt, batch, tokens)
  }

  /** An empty batch raises once the session has been activated. */
  function BackwardAndSave(net: Network, w: Worker, s: SessionId, rt: Runtime, batch: Batch, tokens: nat): Worker {
    if !Ready(w, s, rt.meta.mode) || batch == [] then w
    else
      var after := AfterPass(net, w, s, rt.meta.mode, batch);
      var next := Accumulated(rt, Collected(after), tokens);
      Save(Keep(after, s, next), s, next)
  }

  function OptimStep(net: Network, w: Worker, s: SessionId, byTokens: bool, victim: Option<SessionId>): Worker {
    match Ensure(w, s, victim)
    case Missing(out) => out
    case Opened(w1, rt) => StepAndSave(net, Activate(w1, s, rt.meta.mode), s, rt, byTokens)
  }

  /** An empty accumulator raises once the session has been activated, and so does an optimizer over nothing. */
  function StepAndSave(net: Network, w: Worker, s: SessionId, rt: Runtime, byTokens: bool): Worker {
    if !Ready(w, s, rt.meta.mode) || rt.grads == map[] || Trainable(w) == {} then w
    else
      var trained := Trained(net, w, Normalized(rt.grads, rt.meta.lossTokens, byTokens));
      var next := Stepped(rt, Trainable(w));
      Save(Keep(trained, s, next), s, next)
  }

  function SaveWeights(w: Worker, s: SessionId): Worker {
    if s in w.cache then Save(w, s, w.cache[s]) else w
  }

  function Replaced(w: Worker, s: SessionId, mode: Mode, ckpt: Weights): Worker {
    if mode.FullParam? then
      var staged := w.(fpBase := w.fpBase[s := ckpt]);
      if w.slot.active == Some(s) then LoadedLive(staged, ckpt) else staged
    else if s in w.slot.adapters then
      w.(slot := w.slot.(adapters := w.slot.adapters[s := Load(w.slot.adapters[s], ckpt)]))
    else w
  }

  /** `restored` holds the checkpoint's gradients when they are asked for and exist. */
  function LoadWeights(w: Worker, s: SessionId, ckpt: Weights, restored: Option<Grads>,
      victim: Option<SessionId>): Worker {
    match Ensure(w, s, victim)
    case Missing(out) => out
    case Opened(w1, rt) =>
      if rt.meta.mode.Lora? && s !in w1.slot.adapters then w1
      else
        var next := rt.(grads := if restored.Some? then restored.value else map[]);
        Save(Keep(Replaced(w1, s, rt.meta.mode, ckpt), s, next), s, next)
  }

  function NewMeta(mode: Mode, targets: set<ParamName>): Meta {
    Meta(mode, targets, 0, 0, 0, false)
  }

  /** Evict full-parameter sessions that never stepped; stop at one that did. */
  function Gate(w: Worker, s: SessionId, sids: seq<SessionId>): (Worker, bool)
    decreases |sids|
  {
    if sids == [] then (w, true)
    else if sids[0] == s then Gate(w, s, sids[1..])
    else if sids[0] !in w.cache || w.cache[sids[0]].meta.totalSteps == 0 then
      var out := Evict(w, sids[0]);
      Gate(out.(fpBase := Without(out.fpBase, sids[0])), s, sids[1..])
    else (w, false)
  }

  /** `incumbents` lists the keys of `fpBase` in dictionary order. */
  function InitFullParam(w: Worker, s: SessionId, incumbents: seq<SessionId>, victim: Option<SessionId>): Worker {
    var (w1, admitted) := Gate(w, s, incumbents);
    if !admitted then w1
    else
      var rt := Runtime(NewMeta(FullParam, {}), map[]);
      SaveMarker(Put(AttachFullParam(w1, s, map[]), s, rt, victim), s, rt)
  }

  /** `initial` is the first value of the new adapter. */
  function InitLora(w: Worker, s: SessionId, targets: set<ParamName>, initial: Weights,
      victim: Option<SessionId>): Worker {
    var rt := Runtime(NewMeta(Lora, targets), map[]);
    Save(Put(AttachAdapter(w, s, targets, initial), s, rt, victim), s, rt)
  }
}
