/** Whole runs of the worker refine one private copy per session. */
module WorkerRuns {
  import opened Basics
  import opened JobTypes
  import opened WorkerState
  import opened WorkerInvariants
  import opened WorkerHandlers
  import opened PrivateSessions
  import opened NewSessions

  datatype Event =
    | InitFullParam(session: SessionId, incumbents: seq<SessionId>, victim: Option<SessionId>)
    | InitLora(session: SessionId, targets: set<ParamName>, initial: Weights, victim: Option<SessionId>)
    | Forward(session: SessionId, victim: Option<SessionId>)
    | ForwardBackward(session: SessionId, batch: Batch, tokens: nat, victim: Option<SessionId>)
    | OptimStep(session: SessionId, byTokens: bool, victim: Option<SessionId>)
    | SaveWeights(session: SessionId)
    | LoadWeights(session: SessionId, ckpt: Weights, victim: Option<SessionId>)

  function Step(net: Network, w: Worker, e: Event): Worker {
    match e
    case InitFullParam(s, sids, victim) => WorkerState.InitFullParam(w, s, sids, victim)
    case InitLora(s, targets, initial, victim) => WorkerState.InitLora(w, s, targets, initial, victim)
    case Forward(s, victim) => WorkerState.Forward(w, s, victim)
    case ForwardBackward(s, batch, tokens, victim) => WorkerState.ForwardBackward(net, w, s, batch, tokens, victim)
    case OptimStep(s, byTokens, victim) => WorkerState.OptimStep(net, w, s, byTokens, victim)
    case SaveWeights(s) => WorkerState.SaveWeights(w, s)
    case LoadWeights(s, ckpt, victim) => WorkerState.LoadWeights(w, s, ckpt, None, victim)
  }

  function Victim(e: Event): Option<SessionId> {
    if e.SaveWeights? then None else e.victim
  }

  /**
   * New sessions have new names, a full cache drops someone else and someone durable, and
   * checkpoints are complete and loaded between cycles. A new adapter wraps no parameter that a
   * full-parameter session has a gradient for; a full-parameter session is not trained after an
   * adapter was attached under it, until another session has been active; an optimizer step
   * follows a backward pass and, if an adapter is trainable beside the base, finds nothing for it
   * in the accumulator.
   */
  ghost predicate Legal(net: Network, w: Worker, e: Event) {
    var s := e.session;
    && Spares(w, s, Victim(e))
    && match e
       case InitFullParam(_, sids, _) => s !in w.store && forall sid :: sid in sids ==>
         !Blocks(w, s, sid) && Durable(w, sid)
       case InitLora(_, targets, initial, _) => s !in w.store && initial != map[] && forall t :: t in w.store ==>
         Quiet(w, t, targets)
       case ForwardBackward(_, _, _, _) => Armed(w, s)
       case OptimStep(_, _, _) => Armed(w, s) && MayStep(net, w, s) && (s in w.store ==> w.store[s].meta.accumSteps > 0)
       case LoadWeights(_, ckpt, _) => s in w.store ==>
         w.store[s].meta.accumSteps == 0 && (w.store[s].meta.mode.FullParam? ==> Covers(ckpt, w.slot.pristine))
       case _ => true
  }

  /**
   * Reads and checkpoint saves are guarded by nothing but the choice of victim; nor are jobs for unknown
   * sessions, and checkpoints for adapter sessions between cycles.
   */
  lemma LegalWithoutGuard(net: Network, w: Worker, e: Event)
    requires Good(w) && !e.InitFullParam? && !e.InitLora? && Spares(w, e.session, Victim(e))
    ensures e.Forward? || e.SaveWeights? || e.session !in w.store ==> Legal(net, w, e)
    ensures e.LoadWeights? && e.session in w.store ==>
      w.store[e.session].meta.mode.Lora? && w.store[e.session].meta.accumSteps == 0 ==> Legal(net, w, e)
  {
    StoredIsSession(w, e.session);
  }

  /** The same handler on a private copy. */
  function PrivateStep(net: Network, pristine: Weights, p: Option<Private>, e: Event): Option<Private> {
    match e
    case InitFullParam(_, _, _) => Some(Begin(FullParam, {}, pristine))
    case InitLora(_, targets, initial, _) => Some(Begin(Lora, targets, initial))
    case Forward(_, _) => p
    case SaveWeights(_) => p
    case ForwardBackward(_, batch, tokens, _) =>
      if p.None? then None else Some(Accumulate(net, pristine, p.value, batch, tokens))
    case OptimStep(_, byTokens, _) => if p.None? then None else Some(Optimize(net, pristine, p.value, byTokens))
    case LoadWeights(_, ckpt, _) => if p.None? then None else Some(Resume(p.value, ckpt))
  }

  /** One step of the worker is one private step of its session and no step of any other. */
  ghost predicate Simulates(net: Network, w: Worker, e: Event, v: Worker) {
    && v.slot.pristine == w.slot.pristine
    && Session(v, e.session) == PrivateStep(net, w.slot.pristine, Session(w, e.session), e)
    && forall t :: t != e.session ==> Session(v, t) == Session(w, t)
  }

  lemma StoredIsSession(w: Worker, s: SessionId)
    requires Good(w)
    ensures s in w.store <==> Session(w, s).Some?
    ensures s in w.store ==> Plain(w.store[s].meta) == Session(w, s).value.meta
    ensures s in w.cache ==> s in w.store
  {
    if s in w.cache {
      assert Synced(w, s);
    } else if s in w.store {
      assert SavedIsSound(w.store[s], s, w.slot);
    }
  }

  /** Jobs for a session nobody has created fail and change nothing. */
  lemma UnknownSession(net: Network, w: Worker, e: Event)
    requires Good(w) && e.session !in w.store && !e.InitFullParam? && !e.InitLora?
    ensures Step(net, w, e) == w
  {
    StoredIsSession(w, e.session);
  }

  lemma StepIsPrivate(net: Network, w: Worker, e: Event, v: Worker)
    requires Trains(net) && Good(w) && Legal(net, w, e) && v == Step(net, w, e)
    ensures Good(v)
    ensures Simulates(net, w, e, v)
  {
    var s := e.session;
    StoredIsSession(w, s);
    match e
    case InitFullParam(_, sids, victim) => InitFullParamIsPrivate(w, s, sids, victim, v);
    case InitLora(_, targets, initial, victim) =>
      assert forall t :: Quiet(w, t, targets);
      InitLoraIsPrivate(w, s, targets, initial, victim, v);
    case SaveWeights(_) => SaveWeightsIsPrivate(w, s, v);
    case _ =>
      if s !in w.store {
        UnknownSession(net, w, e);
      } else {
        KnownIsPrivate(net, w, e, v);
      }
  }

  lemma KnownIsPrivate(net: Network, w: Worker, e: Event, v: Worker)
    requires Trains(net) && Good(w) && Legal(net, w, e) && v == Step(net, w, e)
    requires e.session in w.store && !e.InitFullParam? && !e.InitLora? && !e.SaveWeights?
    ensures Good(v) && v.slot.pristine == w.slot.pristine
    ensures Session(v, e.session) == PrivateStep(net, w.slot.pristine, Session(w, e.session), e)
    ensures forall t :: t != e.session ==> Session(v, t) == Session(w, t)
  {
    var s := e.session;
    StoredIsSession(w, s);
    match e
    case Forward(_, victim) => ForwardIsPrivate(w, s, victim, v);
    case ForwardBackward(_, batch, tokens, victim) => ForwardBackwardIsPrivate(net, w, s, batch, tokens, victim, v);
    case OptimStep(_, byTokens, victim) => OptimStepIsPrivate(net, w, s, byTokens, victim, v);
    case LoadWeights(_, ckpt, victim) => LoadWeightsIsPrivate(w, s, ckpt, victim, v);
  }

  function Boot(pristine: Weights): Worker {
    Worker(Slot(pristine, pristine, None, map[], None, {}, Flags(false, None), Left(map[], map[])), map[], map[], map[])
  }

  function Run(net: Network, pristine: Weights, es: seq<Event>): Worker {
    if es == [] then Boot(pristine) else Step(net, Run(net, pristine, es[..|es| - 1]), es[|es| - 1])
  }

  ghost predicate LegalRun(net: Network, pristine: Weights, es: seq<Event>) {
    es == [] || (LegalRun(net, pristine, es[..|es| - 1])
      && Legal(net, Run(net, pristine, es[..|es| - 1]), es[|es| - 1]))
  }

  /** The session's own jobs, run with nobody else around. */
  function Alone(net: Network, pristine: Weights, s: SessionId, es: seq<Event>): Option<Private> {
    if es == [] then None
    else
      var before, e := Alone(net, pristine, s, es[..|es| - 1]), es[|es| - 1];
      if e.session == s then PrivateStep(net, pristine, before, e) else before
  }

  /**
   * Any interleaving of sessions on one worker, with whatever swapping, eviction and
   * reloading it causes, leaves every session as if it had the worker to itself.
   */
  lemma {:induction false} RunsArePrivate(net: Network, pristine: Weights, es: seq<Event>)
    requires Trains(net) && pristine != map[] && LegalRun(net, pristine, es)
    ensures Good(Run(net, pristine, es)) && Run(net, pristine, es).slot.pristine == pristine
    ensures forall s :: Session(Run(net, pristine, es), s) == Alone(net, pristine, s, es)
  {
    if es != [] {
      var before, e := es[..|es| - 1], es[|es| - 1];
      RunsArePrivate(net, pristine, before);
      StepIsPrivate(net, Run(net, pristine, before), e, Run(net, pristine, es));
    }
  }

  /** Removing the other sessions' jobs from a run does not change a session. */
  function Own(s: SessionId, es: seq<Event>): seq<Event> {
    if es == [] then []
    else if es[|es| - 1].session == s then Own(s, es[..|es| - 1]) + [es[|es| - 1]]
    else Own(s, es[..|es| - 1])
  }

  lemma {:induction false} OwnIsOwn(s: SessionId, es: seq<Event>)
    ensures forall e <- Own(s, es) :: e.session == s
    ensures forall e: Event :: e.session == s ==> multiset(Own(s, es))[e] == multiset(es)[e]
  {
    if es != [] {
      OwnIsOwn(s, es[..|es| - 1]);
      assert es == es[..|es| - 1] + [es[|es| - 1]];
    }
  }

  lemma {:induction false} AloneIsOwn(net: Network, pristine: Weights, s: SessionId, es: seq<Event>)
    ensures Alone(net, pristine, s, es) == Alone(net, pristine, s, Own(s, es))
  {
    if es != [] {
      AloneIsOwn(net, pristine, s, es[..|es| - 1]);
      if es[|es| - 1].session == s {
        assert Own(s, es)[..|Own(s, es)| - 1] == Own(s, es[..|es| - 1]);
      }
    }
  }

  /** Two runs that agree on a session's own jobs agree on the session. */
  lemma NeighboursDoNotMatter(net: Network, pristine: Weights, s: SessionId, es: seq<Event>, fs: seq<Event>)
    requires Trains(net) && pristine != map[] && LegalRun(net, pristine, es) && LegalRun(net, pristine, fs)
    requires Own(s, es) == Own(s, fs)
    ensures Session(Run(net, pristine, es), s) == Session(Run(net, pristine, fs), s)
  {
    RunsArePrivate(net, pristine, es);
    RunsArePrivate(net, pristine, fs);
    AloneIsOwn(net, pristine, s, es);
    AloneIsOwn(net, pristine, s, fs);
  }

  // ---------- which jobs succeed ----------

  /** The handler returns; otherwise it raises, the state being what `Step` says either way. */
  predicate Succeeds(w: Worker, e: Event) {
    match e
    case InitFullParam(s, sids, _) => Gate(w, s, sids).1
    case InitLora(s, targets, initial, victim) =>
      s in Put(AttachAdapter(w, s, targets, initial), s, Runtime(NewMeta(Lora, targets), map[]), victim).slot.adapters
    case SaveWeights(s) => s in w.cache && (w.cache[s].meta.mode.Lora? ==> s in w.slot.adapters)
    case Forward(s, victim) => OpensReady(w, s, victim)
    case ForwardBackward(s, batch, _, victim) => OpensReady(w, s, victim) && batch != []
    case OptimStep(s, _, victim) => OpensReady(w, s, victim) && HasStep(w, s, victim)
    case LoadWeights(s, _, victim) =>
      var o := Ensure(w, s, victim);
      o.Opened? && (o.runtime.meta.mode.Lora? ==> s in o.worker.slot.adapters)
  }

  predicate OpensReady(w: Worker, s: SessionId, victim: Option<SessionId>) {
    var o := Ensure(w, s, victim);
    o.Opened? && Ready(Activate(o.worker, s, o.runtime.meta.mode), s, o.runtime.meta.mode)
  }

  /** There is something to step with and something to step. */
  predicate HasStep(w: Worker, s: SessionId, victim: Option<SessionId>)
    requires OpensReady(w, s, victim)
  {
    var o := Ensure(w, s, victim);
    o.runtime.grads != map[] && Trainable(Activate(o.worker, s, o.runtime.meta.mode)) != {}
  }

  lemma KnownOpens(w: Worker, s: SessionId, victim: Option<SessionId>)
    requires Good(w) && Spares(w, s, victim)
    ensures OpensReady(w, s, victim) <==> s in w.store
    ensures s in w.store && Armed(w, s) && w.store[s].meta.accumSteps > 0 ==> HasStep(w, s, victim)
    ensures s in w.store && Ensure(w, s, victim).runtime.meta.mode.Lora? ==>
      s in Ensure(w, s, victim).worker.slot.adapters
  {
    StoredIsSession(w, s);
    if s in w.store {
      var o := Ensure(w, s, victim);
      EnsureIsGood(w, s, victim, o);
      var w2 := Activate(o.worker, s, o.runtime.meta.mode);
      OpenIsGood(w, s, victim, o, w2);
      StoredIsSession(o.worker, s);
      if w.store[s].meta.accumSteps > 0 {
        ResidentIsSound(w2, s);
        NotEmpty(w2, s, o.runtime);
      }
      if Armed(w, s) {
        SomethingTrains(w2, s);
      }
    }
  }

  /**
   * Legal jobs for sessions that exist succeed, unless their batch is empty, and so do legal
   * initializations; no others do.
   */
  lemma LegalJobsSucceed(net: Network, w: Worker, e: Event)
    requires Good(w) && Legal(net, w, e)
    ensures Succeeds(w, e) <==>
      || e.InitFullParam? || e.InitLora?
      || (if e.SaveWeights? then e.session in w.cache
          else e.session in w.store && (e.ForwardBackward? ==> e.batch != []))
  {
    if e.InitFullParam? {
      GateIsGood(w, e.session, e.incumbents);
    } else if e.InitLora? {
      StoredIsSession(w, e.session);
      NewAdapterStays(w, e.session, e.targets, e.initial, e.victim);
    } else if !e.SaveWeights? {
      KnownOpens(w, e.session, Victim(e));
    }
  }

  lemma NewAdapterStays(w: Worker, s: SessionId, targets: set<ParamName>, initial: Weights, victim: Option<SessionId>)
    requires Good(w) && s !in w.cache && initial != map[] && (victim.Some? ==> victim.value != s)
    ensures s in Put(AttachAdapter(w, s, targets, initial), s, Runtime(NewMeta(Lora, targets), map[]),
      victim).slot.adapters
  {
    var rt, attached := Runtime(NewMeta(Lora, targets), map[]), AttachAdapter(w, s, targets, initial);
    var mid := attached.(cache := attached.cache[s := rt]);
    assert s in mid.slot.adapters;
    if victim.Some? {
      EvictKeepsAdapter(mid, victim.value, s);
    }
  }

  lemma EvictKeepsAdapter(w: Worker, victim: SessionId, s: SessionId)
    requires s in w.slot.adapters && victim != s
    ensures s in Evict(w, victim).slot.adapters
  {
    var out := w.(cache := Without(w.cache, victim));
    DeletedForm(out, victim, Deleted(out, victim));
  }
}
