/** Accumulated gradients over whole runs, across swaps, evictions and reloads. */
module WorkerGradients {
  import opened Basics
  import opened JobTypes
  import opened WorkerState
  import opened WorkerInvariants
  import opened WorkerHandlers
  import opened PrivateSessions
  import opened NewSessions
  import opened WorkerRuns

  /** One backward pass: its batch and its loss tokens. */
  datatype Pass = Pass(batch: Batch, tokens: nat)

  /** The backward passes of `s` since its last optimizer step, or since its checkpoint or its start. */
  function Cycle(s: SessionId, es: seq<Event>): seq<Pass> {
    if es == [] then []
    else
      var before, e := Cycle(s, es[..|es| - 1]), es[|es| - 1];
      if e.session != s || e.Forward? || e.SaveWeights? then before
      else if e.ForwardBackward? then (if e.batch == [] then before else before + [Pass(e.batch, e.tokens)])
      else []
  }

  /** The sum of the gradients of all passes, all at the same weights. */
  function Total(net: Network, pristine: Weights, mode: Mode, weights: Weights, ps: seq<Pass>): ParamGrads {
    if ps == [] then map[]
    else Sum(Total(net, pristine, mode, weights, ps[..|ps| - 1]),
      OwnGradient(net, pristine, mode, weights, ps[|ps| - 1].batch))
  }

  function Tokens(ps: seq<Pass>): nat {
    if ps == [] then 0 else Tokens(ps[..|ps| - 1]) + ps[|ps| - 1].tokens
  }

  ghost predicate Accounts(net: Network, pristine: Weights, p: Private, ps: seq<Pass>) {
    && p.meta.accumSteps == |ps|
    && p.meta.lossTokens == Tokens(ps)
    && p.grads == Total(net, pristine, p.meta.mode, p.weights, ps)
  }

  lemma PassAccounts(net: Network, pristine: Weights, p: Private, ps: seq<Pass>, batch: Batch, tokens: nat)
    requires Accounts(net, pristine, p, ps) && batch != []
    ensures Accounts(net, pristine, Accumulate(net, pristine, p, batch, tokens), ps + [Pass(batch, tokens)])
  {
    var all := ps + [Pass(batch, tokens)];
    assert all[..|all| - 1] == ps;
  }

  lemma NothingAccounts(net: Network, pristine: Weights, p: Private)
    requires p.meta.accumSteps == p.meta.lossTokens == 0 && p.grads == map[]
    ensures Accounts(net, pristine, p, [])
  {
  }

  /**
   * A session's accumulator is the sum of the gradients, at its present weights, of exactly
   * the passes since its last optimizer step; its counters count those passes and their tokens.
   */
  lemma {:induction false} AccumulatorIsCycle(net: Network, pristine: Weights, s: SessionId, es: seq<Event>)
    requires Trains(net) && pristine != map[] && LegalRun(net, pristine, es)
    ensures Alone(net, pristine, s, es).Some? ==>
      Accounts(net, pristine, Alone(net, pristine, s, es).value, Cycle(s, es))
  {
    if es != [] {
      var before, e := es[..|es| - 1], es[|es| - 1];
      AccumulatorIsCycle(net, pristine, s, before);
      if e.session == s {
        var p := Alone(net, pristine, s, before);
        match e
        case ForwardBackward(_, batch, tokens, _) =>
          if p.Some? && batch != [] {
            PassAccounts(net, pristine, p.value, Cycle(s, before), batch, tokens);
          }
        case LoadWeights(_, ckpt, _) =>
          if p.Some? {
            BetweenCycles(net, pristine, s, es);
            NothingAccounts(net, pristine, Resume(p.value, ckpt));
          }
        case OptimStep(_, byTokens, _) =>
          if p.Some? {
            NothingAccounts(net, pristine, Optimize(net, pristine, p.value, byTokens));
          }
        case InitFullParam(_, _, _) => NothingAccounts(net, pristine, Begin(FullParam, {}, pristine));
        case InitLora(_, targets, initial, _) => NothingAccounts(net, pristine, Begin(Lora, targets, initial));
        case _ =>
      }
    }
  }

  /** A legal checkpoint load finds no pass pending. */
  lemma BetweenCycles(net: Network, pristine: Weights, s: SessionId, es: seq<Event>)
    requires Trains(net) && pristine != map[] && LegalRun(net, pristine, es)
    requires es != [] && es[|es| - 1].LoadWeights? && es[|es| - 1].session == s
    requires Alone(net, pristine, s, es[..|es| - 1]).Some?
    requires Accounts(net, pristine, Alone(net, pristine, s, es[..|es| - 1]).value, Cycle(s, es[..|es| - 1]))
    ensures Alone(net, pristine, s, es[..|es| - 1]).value.meta.accumSteps == 0
    ensures Alone(net, pristine, s, es[..|es| - 1]).value.meta.lossTokens == 0
  {
    var before := es[..|es| - 1];
    RunsArePrivate(net, pristine, before);
    StoredIsSession(Run(net, pristine, before), s);
  }

  /**
   * On the worker itself: within a cycle, every parameter finds in the accumulator and in the
   * gradient file, under the name it goes by now, its share of that sum; between cycles both are zero.
   */
  lemma GradientsAreExact(net: Network, pristine: Weights, s: SessionId, es: seq<Event>, w: Worker)
    requires Trains(net) && pristine != map[] && LegalRun(net, pristine, es) && w == Run(net, pristine, es)
    requires s in w.store
    ensures Session(w, s).Some? && w.store[s].meta.accumSteps == |Cycle(s, es)|
    ensures var weights, meta := Session(w, s).value.weights, w.store[s].meta;
      var sum := Total(net, pristine, meta.mode, weights, Cycle(s, es));
      && OwnGrads(w.slot.wrapped, s, meta, weights, Pending(w.store[s])) == sum
      && (s in w.cache ==> OwnGrads(w.slot.wrapped, s, meta, weights, w.cache[s].grads) == sum)
      && (Cycle(s, es) == [] ==>
        Nonzero(Pending(w.store[s])) == map[] && (s in w.cache ==> Nonzero(w.cache[s].grads) == map[]))
  {
    RunsArePrivate(net, pristine, es);
    AccumulatorIsCycle(net, pristine, s, es);
    StoredIsSession(w, s);
    if s in w.cache {
      ResidentIsSound(w, s);
      FileMatches(w, s);
    } else {
      assert SavedIsSound(w.store[s], s, w.slot);
    }
  }

  lemma FileMatches(w: Worker, s: SessionId)
    requires Good(w) && s in w.cache
    ensures s in w.store && Plain(w.store[s].meta) == Plain(w.cache[s].meta)
    ensures w.store[s].meta.accumSteps > 0 ==> Pending(w.store[s]) == w.cache[s].grads
    ensures w.store[s].meta.accumSteps == 0 ==> Nonzero(Pending(w.store[s])) == map[]
  {
    assert Synced(w, s);
  }

  /** One share per token, if the caller asks for it and there is more than one token; else all of it. */
  ghost predicate IsShare(g: ParamGrads, sum: ParamGrads, tokens: nat, byTokens: bool) {
    && g.Keys == sum.Keys
    && forall n <- sum :: g[n] * (if byTokens && tokens > 1 then tokens as real else 1.0) == sum[n]
  }

  lemma SharesAreEqual(sum: ParamGrads, tokens: nat, byTokens: bool)
    ensures IsShare(Normalized(sum, tokens, byTokens), sum, tokens, byTokens)
  {
  }

  /** An optimizer step is taken on that sum, divided by the cycle's tokens when asked for. */
  lemma StepUsesWholeCycle(net: Network, pristine: Weights, s: SessionId, byTokens: bool, victim: Option<SessionId>,
      es: seq<Event>, w: Worker)
    requires var e := Event.OptimStep(s, byTokens, victim);
      Trains(net) && pristine != map[] && LegalRun(net, pristine, es + [e]) && w == Run(net, pristine, es + [e])
    requires Alone(net, pristine, s, es).Some?
    ensures Session(w, s).Some? && Session(w, s).value.grads == map[]
    ensures var p := Alone(net, pristine, s, es).value;
      exists g ::
        && IsShare(g, Total(net, pristine, p.meta.mode, p.weights, Cycle(s, es)), Tokens(Cycle(s, es)), byTokens)
        && Session(w, s).value.weights == OwnStep(net, pristine, p.meta.mode, p.weights, g)
  {
    var all, p := es + [Event.OptimStep(s, byTokens, victim)], Alone(net, pristine, s, es).value;
    assert all[..|all| - 1] == es;
    RunsArePrivate(net, pristine, all);
    AccumulatorIsCycle(net, pristine, s, es);
    SharesAreEqual(p.grads, p.meta.lossTokens, byTokens);
  }
}
