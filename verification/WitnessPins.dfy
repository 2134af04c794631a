/** A run of the pin protocol in which the pin decides who is served. */
module WitnessPins {
  import opened Basics
  import opened JobTypes
  import opened MemoryQueueState
  import opened MemoryQueueInvariants
  import opened MemoryQueueRuns
  import opened PinProtocol

  const PASS := Job("j", "s", "forward_backward", "", 0, None, None, Some(0.0), 1)
  const NEXT := Job("k", "s", "sample", "", 0, None, None, Some(0.0), 1)
  const MINE := Poll("w", {}, 0.0, 0.0, 5.0)
  const THEIRS := Poll("v", {}, 0.0, 0.0, 5.0)
  const DONE := JobResult(Completed, Some("done"), None, None)

  const A1 := [Action.Submit(PASS, 0.0)]
  const A2 := A1 + [Take(MINE)]
  const A3 := A2 + [UpdatePin("w", 100.0)]
  const A4 := A3 + [SendAck("w", DONE)]
  const A5 := A4 + [Action.Submit(NEXT, 0.0)]

  /** One job waits and nothing is in flight. */
  predicate Waits(q: Queue, job: Job, pins: map<SessionId, Pin>) {
    && q.work == Work(map["s" := [job]], map[], map[], map[]) && q.pins == pins
    && q.log.submitted.Keys <= {"j", job.id}
  }

  /** The pass is in flight at `w`. */
  predicate Flies(sys: System, phase: Phase, pins: map<SessionId, Pin>) {
    && sys.queue.work.waiting == map["s" := []] && sys.queue.work.busy == map["s" := "j"]
    && sys.queue.work.leases == map["j" := Lease("s", "w", 5.0)] && sys.queue.work.held == map["j" := PASS]
    && sys.queue.log.submitted.Keys == {"j"} && sys.queue.pins == pins && sys.hands == map["w" := Hand(PASS, phase)]
  }

  lemma MustChoose(q: Queue, job: Job, p: Poll, pins: map<SessionId, Pin>)
    requires Waits(q, job, pins) && p.models == {} && job.preferredWorker == None && job.requiredModel == None
    requires "s" in pins ==> pins["s"].owner == p.worker
    ensures Choice(q, p) == Some("s") && Delivered(q, p) == Some(job)
  {
    assert Waiting(q.work, "s") == [job];
    assert Eligible(q, p, "s");
    forall o | o != "s"
      ensures !Eligible(q, p, o)
    {
      assert Waiting(q.work, o) == [];
    }
    assert Best(q, p, "s");
  }

  lemma MayNotChoose(q: Queue, job: Job, p: Poll, pins: map<SessionId, Pin>)
    requires Waits(q, job, pins) && "s" in pins && pins["s"].owner != p.worker && pins["s"].expires > p.pinAt
    ensures Delivered(q, p) == None
  {
    forall o
      ensures !Eligible(q, p, o)
    {
      assert o != "s" ==> Waiting(q.work, o) == [];
    }
  }

  lemma Submitted(sys: System)
    requires sys == INITIAL
    ensures Waits(Next(sys, A1[0]).queue, PASS, map[]) && Next(sys, A1[0]).hands == map[]
  {
    assert PASS.Stamped(0.0) == PASS && Waiting(sys.queue.work, "s") + [PASS] == [PASS];
  }

  lemma Taken(sys: System)
    requires Waits(sys.queue, PASS, map[]) && sys.queue.log.submitted.Keys == {"j"} && sys.hands == map[]
    ensures Flies(Next(sys, Take(MINE)), Executing, map[])
  {
    MustChoose(sys.queue, PASS, MINE, map[]);
    assert Waiting(sys.queue.work, "s")[1..] == [];
    assert PrunedPins(sys.queue, MINE) == map[];
  }

  lemma Pinned(sys: System)
    requires Flies(sys, Executing, map[])
    ensures Flies(Next(sys, UpdatePin("w", 100.0)), PinUpdated, map["s" := Pin("w", 100.0)])
  {
  }

  lemma Acked(sys: System, v: System)
    requires Flies(sys, PinUpdated, map["s" := Pin("w", 100.0)]) && v == Next(sys, SendAck("w", DONE))
    ensures v.queue.work == Work(map["s" := []], map[], map[], map[]) && v.queue.pins == map["s" := Pin("w", 100.0)]
    ensures v.queue.log.submitted.Keys == {"j"}
  {
  }

  lemma SubmittedNext(sys: System, v: System)
    requires sys.queue.work == Work(map["s" := []], map[], map[], map[])
    requires sys.queue.log.submitted.Keys == {"j"} && v == Next(sys, Action.Submit(NEXT, 0.0))
    ensures Waits(v.queue, NEXT, sys.queue.pins)
  {
    assert NEXT.Stamped(0.0) == NEXT && Waiting(sys.queue.work, "s") + [NEXT] == [NEXT];
  }

  lemma OneMore(actions: seq<Action>, a: Action)
    ensures After(actions + [a]) == Next(After(actions), a)
    ensures AllTimely(actions) && Timely(After(actions), a) ==> AllTimely(actions + [a])
  {
    assert (actions + [a])[..|actions|] == actions;
  }

  lemma FirstTwo()
    ensures Waits(After(A1).queue, PASS, map[]) && Flies(After(A2), Executing, map[]) && AllTimely(A2)
  {
    assert [] + A1 == A1;
    OneMore([], A1[0]);
    Submitted(After([]));
    OneMore(A1, Take(MINE));
    Taken(After(A1));
  }

  lemma FirstFour()
    ensures Flies(After(A3), PinUpdated, map["s" := Pin("w", 100.0)]) && AllTimely(A4)
    ensures After(A4) == Next(After(A3), SendAck("w", DONE))
  {
    FirstTwo();
    OneMore(A2, UpdatePin("w", 100.0));
    Pinned(After(A2));
    OneMore(A3, SendAck("w", DONE));
  }

  /**
   * submit a pass; `w` takes it, sets the pin and acks; submit another job of the session. The worker `v`
   * gets nothing, and `w` gets the job.
   */
  lemma PinDecides()
    ensures AllTimely(A5) && LeavesGradients(A5, 3, "s", "w")
    ensures Delivered(After(A5).queue, THEIRS) == None && Delivered(After(A5).queue, MINE) == Some(NEXT)
  {
    FirstFour();
    Acked(After(A3), After(A4));
    OneMore(A4, Action.Submit(NEXT, 0.0));
    SubmittedNext(After(A4), After(A5));
    MustChoose(After(A5).queue, NEXT, MINE, map["s" := Pin("w", 100.0)]);
    MayNotChoose(After(A5).queue, NEXT, THEIRS, map["s" := Pin("w", 100.0)]);
    assert A5[..3] == A3 && A5[3] == SendAck("w", DONE);
  }
}
