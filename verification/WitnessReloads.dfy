/** Runs in which evictions, reloads and checkpoints show. */
module WitnessReloads {
  import opened Basics
  import opened JobTypes
  import opened WorkerState
  import opened WorkerInvariants
  import opened PrivateSessions
  import opened WorkerRuns
  import opened WitnessRuns
  import opened WitnessLimits
  import opened WitnessSharing
  import opened TrainerSwap

  const OTHER: Weights := map["b" := 5.0]

  // ---------- a trained session, resident and away ----------

  /** An active, trained full-parameter session and nobody else. */
  predicate IsTrained(w: Worker, f: SessionId) {
    && w.cache == map[f := Runtime(DONE, ZEROS)] && w.fpBase.Keys == {f}
    && w.store.Keys == {f} && w.store[f] == Saved(DONE, Some(STEPPED), Some(map[]))
    && w.slot.active == Some(f) && w.slot.live == STEPPED && w.slot.pristine == PRISTINE
    && w.slot.wrapped == {} && w.slot.flags == Flags(true, None) && w.slot.left.adapters == map[]
  }

  lemma TrainedFacts(w: Worker)
    requires w == TRAINED
    ensures IsTrained(w, "f")
  {
    ZerosAreThere();
    TrainedIndex(w);
  }

  lemma TrainedIndex(w: Worker)
    requires w == TRAINED
    ensures w.cache == map["f" := Runtime(DONE, ZEROS)] && w.fpBase.Keys == {"f"} && w.store.Keys == {"f"}
      && w.slot == ARMED.(live := STEPPED)
    ensures ZEROS != map[] ==> w.store["f"] == Saved(DONE, Some(STEPPED), Some(map[]))
  {
    TrainingKeys(TRAINING);
  }

  lemma TrainingKeys(w: Worker)
    requires w == TRAINING
    ensures w.cache.Keys == {"f"} && w.store.Keys == {"f"} && w.fpBase.Keys == {"f"}
  {
  }

  lemma ZerosAreThere()
    ensures ZEROS != map[]
  {
    assert Bare("a") in ZEROS;
  }

  const TRAIN := FIRST + [OptimStep("f", false, None)]

  lemma TrainRun(w: Worker)
    requires w == Run(NET, PRISTINE, TRAIN)
    ensures IsTrained(w, "f")
  {
    FirstRun();
    TakesStep();
    OptimizerStep(NET, TRAINING, "f");
    RunOn(FIRST, OptimStep("f", false, None), TRAINING, TRAINED);
    TrainedFacts(w);
  }

  const GONE := TRAIN + [InitLora("l", LAYER, ADAPTER, Some("f"))]

  /** The trained session is only in its files. */
  predicate IsGone(w: Worker, f: SessionId) {
    && Vacant(w) && f !in w.cache && f !in w.fpBase
    && f in w.store && w.store[f] == Saved(DONE, Some(STEPPED), Some(map[]))
  }

  lemma Leaves(w: Worker, f: SessionId, l: SessionId, v: Worker)
    requires IsTrained(w, f) && f != l && v == WorkerState.InitLora(w, l, LAYER, ADAPTER, Some(f))
    ensures IsGone(v, f) && v.cache.Keys == {l} && v.store.Keys == {f, l} && v.fpBase == map[]
  {
    assert IsFullParam(w, f);
    TakesSlot(w, l, f, v);
    LoadSame();
    forall s
      ensures s in v.cache <==> s == l
      ensures s in v.store <==> s == f || s == l
    {
    }
  }

  lemma LeavesTrained(w: Worker, v: Worker)
    requires IsTrained(w, "f") && v == WorkerState.InitLora(w, "l", LAYER, ADAPTER, Some("f"))
    ensures IsGone(v, "f") && v.cache.Keys == {"l"} && v.store.Keys == {"f", "l"} && v.fpBase == map[]
  {
    assert "f" != "l";
    Leaves(w, "f", "l", v);
  }

  lemma GoneRun(w: Worker)
    requires w == Run(NET, PRISTINE, GONE)
    ensures IsGone(w, "f") && w.cache.Keys == {"l"} && w.store.Keys == {"f", "l"} && w.fpBase == map[]
  {
    var before := Run(NET, PRISTINE, TRAIN);
    TrainRun(before);
    Attachment(TRAIN, "l", Some("f"));
    LeavesTrained(before, w);
  }

  lemma ReadsLast(es: seq<Event>, s: SessionId)
    ensures Run(NET, PRISTINE, es + [Forward(s, None)]) == WorkerState.Forward(Run(NET, PRISTINE, es), s, None)
  {
    assert (es + [Forward(s, None)])[..|es|] == es;
  }

  lemma ResumesLast(es: seq<Event>, s: SessionId, ckpt: Weights)
    ensures Run(NET, PRISTINE, es + [LoadWeights(s, ckpt, None)])
      == WorkerState.LoadWeights(Run(NET, PRISTINE, es), s, ckpt, None, None)
  {
    var w := Run(NET, PRISTINE, es);
    var v := WorkerState.LoadWeights(w, s, ckpt, None, None);
    CheckpointStep(NET, w, s, ckpt);
    RunOn(es, LoadWeights(s, ckpt, None), w, v);
  }

  lemma Attachment(es: seq<Event>, l: SessionId, victim: Option<SessionId>)
    ensures Run(NET, PRISTINE, es + [InitLora(l, LAYER, ADAPTER, victim)])
      == WorkerState.InitLora(Run(NET, PRISTINE, es), l, LAYER, ADAPTER, victim)
  {
    var w := Run(NET, PRISTINE, es);
    var v := WorkerState.InitLora(w, l, LAYER, ADAPTER, victim);
    AttachStep(NET, w, l, LAYER, victim);
    RunOn(es, InitLora(l, LAYER, ADAPTER, victim), w, v);
  }

  // ---------- a step too many ----------

  lemma SecondStepSucceeds(w: Worker, f: SessionId)
    requires IsTrained(w, f)
    ensures Succeeds(w, Event.OptimStep(f, false, None))
  {
    NotStale(w, f);
    ActiveStays(w, f);
    BaseTrains(w);
    ZerosAreThere();
    ResidentHasStep(w, f);
  }

  lemma ResidentHasStep(w: Worker, f: SessionId)
    requires IsFullParam(w, f) && !Stale(w, f) && Activate(w, f, FullParam) == w && w.cache[f].grads != map[]
      && Trainable(w) != {}
    ensures Succeeds(w, Event.OptimStep(f, false, None))
  {
    assert Ensure(w, f, None) == Opened(w, w.cache[f]);
  }

  lemma ReloadedStepRaises(w: Worker, f: SessionId)
    requires IsGone(w, f)
    ensures !Succeeds(w, Event.OptimStep(f, false, None))
  {
    LoadSame();
    Reloads(w, f, STEPPED);
    assert Revived(w.store[f]).grads == map[];
  }

  /** create f; pass f; step f. Another step of f would succeed, and raises once f was evicted for l. */
  lemma StepTooMany()
    ensures Succeeds(Run(NET, PRISTINE, TRAIN), Event.OptimStep("f", false, None))
    ensures !Succeeds(Run(NET, PRISTINE, GONE), Event.OptimStep("f", false, None))
  {
    StepsAgain(Run(NET, PRISTINE, TRAIN));
    RaisesLater(Run(NET, PRISTINE, GONE));
  }

  lemma StepsAgain(w: Worker)
    requires w == Run(NET, PRISTINE, TRAIN)
    ensures Succeeds(w, Event.OptimStep("f", false, None))
  {
    TrainRun(w);
    SecondStepSucceeds(w, "f");
  }

  lemma RaisesLater(w: Worker)
    requires w == Run(NET, PRISTINE, GONE)
    ensures !Succeeds(w, Event.OptimStep("f", false, None))
  {
    GoneRun(w);
    ReloadedStepRaises(w, "f");
  }

  // ---------- the cache drops what it loads ----------

  lemma SelfLoads(w: Worker, f: SessionId)
    requires IsGone(w, f)
    ensures Ensure(w, f, Some(f)) == Opened(w, Runtime(DONE, map[]))
  {
    LoadSame();
    assert Evict(w, f) == w;
    var put := w.(fpBase := w.fpBase[f := STEPPED], cache := w.cache[f := Runtime(DONE, map[])]);
    assert AttachFullParam(w, f, STEPPED) == w.(fpBase := w.fpBase[f := STEPPED]);
    assert IsFullParam(put, f);
    DropInactive(put, f);
    assert Without(put.cache, f) == w.cache && Without(put.fpBase, f) == w.fpBase;
  }

  lemma FacesPristine(w: Worker, f: SessionId)
    requires IsGone(w, f)
    ensures Activate(w, f, FullParam) == w.(slot := w.slot.(active := Some(f), flags := Flags(true, None)))
  {
    LoadSame();
  }

  lemma LostPass(net: Network, w: Worker, f: SessionId, rt: Runtime, v: Worker)
    requires w.slot.active == Some(f) && f !in w.cache && rt.meta.mode.FullParam?
      && v == BackwardAndSave(net, w, f, rt, [7], 1)
    ensures f in v.store && v.store[f].weights == Some(w.slot.live) && f !in v.cache
  {
  }

  /**
   * create f; pass f; step f; evict f for l; pass f while the cache drops f instead of keeping it.
   * The files of f held the stepped weights and hold the pristine ones.
   */
  lemma SelfEvictionLosesStep(w: Worker)
    requires w == Run(NET, PRISTINE, GONE + [ForwardBackward("f", [7], 1, Some("f"))])
    ensures "f" in Run(NET, PRISTINE, GONE).store && Run(NET, PRISTINE, GONE).store["f"].weights == Some(STEPPED)
    ensures "f" in w.store && w.store["f"].weights == Some(PRISTINE)
  {
    var before := Run(NET, PRISTINE, GONE);
    GoneRun(before);
    PassStep(NET, before, "f", Some("f"));
    RunOn(GONE, ForwardBackward("f", [7], 1, Some("f")), before,
      WorkerState.ForwardBackward(NET, before, "f", [7], 1, Some("f")));
    SelfLoads(before, "f");
    OpensForPass(NET, before, "f", Some("f"), before, Runtime(DONE, map[]));
    FacesPristine(before, "f");
    LostPass(NET, before.(slot := before.slot.(active := Some("f"), flags := Flags(true, None))), "f",
      Runtime(DONE, map[]), w);
  }

  // ---------- two full-parameter sessions, and an incomplete checkpoint ----------

  const SECOND := GONE + [InitFullParam("r", [], None)]
  const THIRD := SECOND + [Forward("f", None)]
  const FOURTH := THIRD + [LoadWeights("r", OTHER, None)]

  lemma Joins(w: Worker, f: SessionId, r: SessionId, v: Worker)
    requires IsGone(w, f) && r != f && r !in w.cache && r !in w.store && r !in w.fpBase
      && v == WorkerState.InitFullParam(w, r, [], None)
    ensures IsGone(v, f) && IsFullParam(v, r) && v.cache[r].meta == NEW && r in v.fpBase && v.fpBase[r] == PRISTINE
    ensures r in v.store && v.store[r].meta == MARKED
  {
  }

  lemma ReturnsBeside(w: Worker, f: SessionId, r: SessionId, v: Worker)
    requires IsGone(w, f) && r != f && IsFullParam(w, r) && r in w.fpBase && v == WorkerState.Forward(w, f, None)
    ensures IsFullParam(v, f) && IsFullParam(v, r) && v.slot.active == Some(f) && v.slot.live == STEPPED
      && v.slot.pristine == PRISTINE
    ensures v.cache[r] == w.cache[r] && v.store == w.store && r in v.fpBase
  {
    LoadSame();
    Reloads(w, f, STEPPED);
    TakesOver(Loaded(w, f, STEPPED), f);
    assert Load(PRISTINE, STEPPED) == STEPPED;
  }

  lemma Checkpoints(w: Worker, f: SessionId, r: SessionId, v: Worker)
    requires IsFullParam(w, f) && IsFullParam(w, r) && r != f && w.slot.active == Some(f)
    requires r in w.store && w.store[r].meta == MARKED && w.cache[r].meta == NEW
    requires v == WorkerState.LoadWeights(w, r, OTHER, None, None)
    ensures IsFullParam(v, f) && IsFullParam(v, r) && v.slot == w.slot && r in v.fpBase && v.fpBase[r] == OTHER
    ensures r in v.store && v.store[r].meta == v.cache[r].meta
  {
    CheckpointForm(w, r, w.cache[r].(grads := map[]), v);
  }

  lemma CheckpointForm(w: Worker, r: SessionId, next: Runtime, v: Worker)
    requires IsFullParam(w, r) && !Stale(w, r) && w.slot.active != Some(r) && next == w.cache[r].(grads := map[])
    requires v == WorkerState.LoadWeights(w, r, OTHER, None, None)
    ensures v == w.(fpBase := w.fpBase[r := OTHER], cache := w.cache[r := next],
      store := w.store[r := Saved(next.meta, Some(OTHER), GradFile(OldGrads(w, r), next))])
  {
    assert Ensure(w, r, None) == Opened(w, w.cache[r]);
    var w3 := w.(fpBase := w.fpBase[r := OTHER], cache := w.cache[r := next]);
    assert Keep(Replaced(w, r, FullParam, OTHER), r, next) == w3;
  }

  lemma TakesNeighboursWeights(w: Worker, f: SessionId, r: SessionId, v: Worker)
    requires IsFullParam(w, f) && IsFullParam(w, r) && r != f && w.slot.active == Some(f) && w.slot.live == STEPPED
    requires r in w.fpBase && w.fpBase[r] == OTHER && r in w.store && w.store[r].meta == w.cache[r].meta
    requires v == WorkerState.Forward(w, r, None)
    ensures IsFullParam(v, r) && v.slot.active == Some(r) && v.slot.live == STEPPED
  {
    NotStale(w, r);
    assert Load(STEPPED, OTHER) == STEPPED;
  }

  lemma ThirdFacts(w: Worker)
    requires w == Run(NET, PRISTINE, THIRD)
    ensures IsFullParam(w, "f") && IsFullParam(w, "r") && w.slot.active == Some("f") && w.slot.live == STEPPED
    ensures w.cache["r"].meta == NEW && "r" in w.store && w.store["r"].meta == MARKED
  {
    var second := Run(NET, PRISTINE, SECOND);
    SecondFacts(second);
    ReadsLast(SECOND, "f");
    ReturnsBeside(second, "f", "r", w);
  }

  lemma SecondFacts(w: Worker)
    requires w == Run(NET, PRISTINE, SECOND)
    ensures IsGone(w, "f") && IsFullParam(w, "r") && w.cache["r"].meta == NEW && "r" in w.fpBase
      && w.fpBase["r"] == PRISTINE
    ensures "r" in w.store && w.store["r"].meta == MARKED
  {
    var gone := Run(NET, PRISTINE, GONE);
    GoneRun(gone);
    Creation(GONE, "r");
    JoinsAfter(gone, w);
  }

  lemma JoinsAfter(w: Worker, v: Worker)
    requires IsGone(w, "f") && w.cache.Keys == {"l"} && w.store.Keys == {"f", "l"} && w.fpBase == map[]
    requires v == WorkerState.InitFullParam(w, "r", [], None)
    ensures IsGone(v, "f") && IsFullParam(v, "r") && v.cache["r"].meta == NEW && "r" in v.fpBase
      && v.fpBase["r"] == PRISTINE
    ensures "r" in v.store && v.store["r"].meta == MARKED
  {
    NewName(w);
    Joins(w, "f", "r", v);
  }

  lemma NewName(w: Worker)
    requires w.cache.Keys == {"l"} && w.store.Keys == {"f", "l"} && w.fpBase == map[]
    ensures "r" !in w.cache && "r" !in w.store && "r" !in w.fpBase
  {
  }

  lemma Creation(es: seq<Event>, s: SessionId)
    ensures Run(NET, PRISTINE, es + [InitFullParam(s, [], None)])
      == WorkerState.InitFullParam(Run(NET, PRISTINE, es), s, [], None)
  {
    var w := Run(NET, PRISTINE, es);
    var v := WorkerState.InitFullParam(w, s, [], None);
    InitStep(NET, w, s);
    RunOn(es, InitFullParam(s, [], None), w, v);
  }

  /** create, train and evict f for l; create r; read f. Two full-parameter sessions are resident. */
  lemma TwoResidents()
    ensures IsFullParam(Run(NET, PRISTINE, THIRD), "f") && IsFullParam(Run(NET, PRISTINE, THIRD), "r")
  {
    ThirdFacts(Run(NET, PRISTINE, THIRD));
  }

  lemma FourthFacts(w: Worker)
    requires w == Run(NET, PRISTINE, FOURTH)
    ensures IsFullParam(w, "f") && IsFullParam(w, "r") && w.slot.active == Some("f") && w.slot.live == STEPPED
    ensures "r" in w.fpBase && w.fpBase["r"] == OTHER && "r" in w.store && w.store["r"].meta == w.cache["r"].meta
  {
    var before := Run(NET, PRISTINE, THIRD);
    ThirdFacts(before);
    ResumesLast(THIRD, "r", OTHER);
    Checkpoints(before, "f", "r", w);
  }

  /**
   * Then r resumes from a checkpoint that lacks the parameter and is read: it runs on the weights
   * of f, and has never been trained.
   */
  lemma IncompleteCheckpointBorrows(w: Worker)
    requires w == Run(NET, PRISTINE, FOURTH + [Forward("r", None)])
    ensures w.slot.active == Some("r") && w.slot.live == STEPPED && "a" !in OTHER
    ensures Alone(NET, PRISTINE, "r", FOURTH + [Forward("r", None)]) == Some(Private(NEW, PRISTINE, map[]))
  {
    BorrowedRun(w);
    AloneR();
  }

  lemma BorrowedRun(w: Worker)
    requires w == Run(NET, PRISTINE, FOURTH + [Forward("r", None)])
    ensures w.slot.active == Some("r") && w.slot.live == STEPPED
  {
    var before := Run(NET, PRISTINE, FOURTH);
    FourthFacts(before);
    ReadsLast(FOURTH, "r");
    TakesNeighboursWeights(before, "f", "r", w);
  }

  lemma NotOf(es: seq<Event>, e: Event, s: SessionId)
    requires e.session != s
    ensures Alone(NET, PRISTINE, s, es + [e]) == Alone(NET, PRISTINE, s, es)
  {
    assert (es + [e])[..|es|] == es;
  }

  lemma JobOf(es: seq<Event>, e: Event, s: SessionId)
    requires e.session == s
    ensures Alone(NET, PRISTINE, s, es + [e]) == PrivateStep(NET, PRISTINE, Alone(NET, PRISTINE, s, es), e)
  {
    assert (es + [e])[..|es|] == es;
  }

  lemma AloneR()
    ensures Alone(NET, PRISTINE, "r", FOURTH + [Forward("r", None)]) == Some(Private(NEW, PRISTINE, map[]))
  {
    JobOf(GONE, InitFullParam("r", [], None), "r");
    NotOf(SECOND, Forward("f", None), "r");
    JobOf(THIRD, LoadWeights("r", OTHER, None), "r");
    JobOf(FOURTH, Forward("r", None), "r");
    assert Load(PRISTINE, OTHER) == PRISTINE;
  }

  // ---------- gradients that come back ----------

  const PENDING := SHARED + [PASS]
  const CLEARED := PENDING + [LoadWeights("f", PRISTINE, None)]
  const CLEARED2 := CLEARED + [InitLora("m", LAYER, ADAPTER, Some("f"))]

  /** An active session in the middle of a cycle, with its gradient in the file. */
  predicate IsTraining(w: Worker, f: SessionId) {
    && f in w.cache && w.cache[f] == Runtime(PASSED, Ones(NameOf(w)))
    && f in w.store && w.store[f] == Saved(PASSED, Some(PRISTINE), Some(Ones(NameOf(w))))
    && w.slot.active == Some(f) && w.slot.live == PRISTINE && w.slot.pristine == PRISTINE
    && w.slot.wrapped == LAYER && w.slot.left.adapters == map[]
  }

  /** The gradient is in the file alone. */
  predicate IsCleared(w: Worker, f: SessionId) {
    && f in w.cache && w.cache[f] == Runtime(PASSED, map[])
    && f in w.store && w.store[f] == Saved(PASSED, Some(PRISTINE), Some(Ones(NameOf(w))))
    && w.slot.active == Some(f) && w.slot.live == PRISTINE && w.slot.pristine == PRISTINE
    && w.slot.wrapped == LAYER && w.slot.left.adapters == map[]
  }

  lemma PendingRun(w: Worker)
    requires w == Run(NET, PRISTINE, PENDING)
    ensures IsTraining(w, "f") && "m" !in w.cache && "m" !in w.store
  {
    var before := Run(NET, PRISTINE, SHARED);
    SharedRun(before);
    PassStep(NET, before, "f", None);
    RunOn(SHARED, PASS, before, WorkerState.ForwardBackward(NET, before, "f", [7], 1, None));
    SharedMore(before);
    PendingFacts(before, w);
  }

  lemma PendingFacts(w: Worker, v: Worker)
    requires Fresh(w, "f", "l") && "m" !in w.cache && "m" !in w.store && w.slot.wrapped == LAYER
    requires v == WorkerState.ForwardBackward(NET, w, "f", [7], 1, None)
    ensures IsTraining(v, "f") && "m" !in v.cache && "m" !in v.store
  {
    var facing := w.(slot := w.slot.(active := Some("f"), flags := Flags(true, None)));
    FreshSaved(w, "f", "l", facing);
    PendingSaved(w, facing, v);
  }

  lemma PendingSaved(w: Worker, facing: Worker, v: Worker)
    requires Fresh(w, "f", "l") && "m" !in w.cache && "m" !in w.store && w.slot.wrapped == LAYER
    requires facing == w.(slot := w.slot.(active := Some("f"), flags := Flags(true, None)))
    requires v == SavedLive(PassedTo(facing), "f", Runtime(PASSED, Ones(NameOf(w))))
    ensures IsTraining(v, "f") && "m" !in v.cache && "m" !in v.store
  {
    FreshFacts(w, "f", "l", facing, v);
    FreshFiles(w, "f", facing, v);
    assert "m" != "f";
  }

  lemma Clears(w: Worker, f: SessionId, v: Worker)
    requires IsTraining(w, f) && v == WorkerState.LoadWeights(w, f, PRISTINE, None, None)
    ensures IsCleared(v, f)
    ensures forall s :: s != f ==> (s in v.cache <==> s in w.cache) && (s in v.store <==> s in w.store)
  {
    LoadSame();
    NotStale(w, f);
    assert Ensure(w, f, None) == Opened(w, w.cache[f]);
    var w2 := w.(fpBase := w.fpBase[f := PRISTINE]);
    assert Replaced(w, f, FullParam, PRISTINE) == w2;
    SaveLive(w2, f, Runtime(PASSED, map[]));
  }

  lemma LeavesCleared(w: Worker, f: SessionId, m: SessionId, v: Worker)
    requires IsCleared(w, f) && m !in w.cache && m !in w.store && f != m
    requires v == WorkerState.InitLora(w, m, LAYER, ADAPTER, Some(f))
    ensures Vacant(v) && f !in v.cache && f in v.store && v.store[f] == w.store[f] && NameOf(v) == NameOf(w)
  {
    TakesSlot(w, m, f, v);
    LoadSame();
    assert v.slot.wrapped == LAYER;
  }

  lemma ComesBack(w: Worker, f: SessionId, k: LiveName, v: Worker)
    requires Vacant(w) && f !in w.cache && f in w.store && w.store[f] == Saved(PASSED, Some(PRISTINE), Some(Ones(k)))
    requires v == WorkerState.Forward(w, f, None)
    ensures f in v.cache && v.cache[f].grads == Ones(k) && NameOf(v) == NameOf(w)
  {
    LoadSame();
    Reloads(w, f, PRISTINE);
    var at := Loaded(w, f, PRISTINE);
    assert Activate(at, f, FullParam).cache == at.cache && Activate(at, f, FullParam).slot.wrapped == w.slot.wrapped;
  }

  /**
   * create f; create adapter l; pass f; resume f from a checkpoint, which clears its gradients; evict
   * f for m; read f. The cleared gradient is back, under the name its parameter goes by.
   */
  lemma ClearedGradientsReturn(w: Worker)
    requires w == Run(NET, PRISTINE, CLEARED2 + [Forward("f", None)])
    ensures var cleared := Run(NET, PRISTINE, CLEARED); "f" in cleared.cache && cleared.cache["f"].grads == map[]
    ensures "f" in w.cache && w.cache["f"].grads == Ones(NameOf(w))
  {
    var gone := Run(NET, PRISTINE, CLEARED2);
    ClearedRun(Run(NET, PRISTINE, CLEARED));
    ClearedAway(gone);
    ReadsLast(CLEARED2, "f");
    ComesBack(gone, "f", NameOf(gone), w);
  }

  lemma ClearedRun(w: Worker)
    requires w == Run(NET, PRISTINE, CLEARED)
    ensures IsCleared(w, "f") && "m" !in w.cache && "m" !in w.store
  {
    var pending := Run(NET, PRISTINE, PENDING);
    PendingRun(pending);
    ResumesLast(PENDING, "f", PRISTINE);
    ClearsAlone(pending, "f", "m", w);
  }

  lemma ClearsAlone(w: Worker, f: SessionId, m: SessionId, v: Worker)
    requires IsTraining(w, f) && m !in w.cache && m !in w.store && f != m
    requires v == WorkerState.LoadWeights(w, f, PRISTINE, None, None)
    ensures IsCleared(v, f) && m !in v.cache && m !in v.store
  {
    Clears(w, f, v);
  }

  lemma ClearedAway(w: Worker)
    requires w == Run(NET, PRISTINE, CLEARED2)
    ensures Vacant(w) && "f" !in w.cache && "f" in w.store
      && w.store["f"] == Saved(PASSED, Some(PRISTINE), Some(Ones(NameOf(w))))
  {
    var cleared := Run(NET, PRISTINE, CLEARED);
    ClearedRun(cleared);
    Attachment(CLEARED, "m", Some("f"));
    LeavesCleared(cleared, "f", "m", w);
  }

  // ---------- the trainer ----------

  /** create f; pass f; step f. In the trainer, attaching an adapter then puts f back on the pristine base. */
  lemma TrainerAttachResets(w: Worker)
    requires w == Run(NET, PRISTINE, TRAIN)
    ensures w.slot.live == STEPPED
    ensures var v := TrainerActivate(TrainerAttach(w, "l", LAYER, ADAPTER), "f", FullParam);
      v.slot.active == Some("f") && v.slot.live == PRISTINE
  {
    TrainRun(w);
    ResetsUnder(w, "f");
  }

  lemma ResetsUnder(w: Worker, f: SessionId)
    requires IsTrained(w, f)
    ensures var v := TrainerActivate(TrainerAttach(w, "l", LAYER, ADAPTER), f, FullParam);
      v.slot.active == Some(f) && v.slot.live == PRISTINE
  {
    LoadSame();
  }
}
