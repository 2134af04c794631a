/** Runs with one job in which a late ack, or a last failure without a word, shows. */
module WitnessQueues {
  import opened Basics
  import opened JobTypes
  import M = MemoryQueueState
  import MI = MemoryQueueInvariants
  import MR = MemoryQueueRuns
  import S = SqliteQueueState
  import SQ = SqliteQueues
  import opened QueueRefinement

  const JOB := Job("j", "s", "sample", "", 0, None, None, Some(0.0), 1)
  const POLL := Poll("w", {}, 0.0, 0.0, 5.0)
  const LATER := Poll("w", {}, 9.0, 9.0, 14.0)
  const FINE := JobResult(Completed, Some("done"), None, None)

  // ---------- a job delivered again after its ack ----------

  /** The job waits, alone. */
  predicate Waits(q: M.Queue) {
    && q.work.waiting == map["s" := [JOB]] && q.work.busy == map[] && q.work.leases == map[] && q.work.held == map[]
    && q.pins == map[]
  }

  /** The job is in flight, alone, until time 5. */
  predicate Flies(q: M.Queue) {
    && q.work.waiting == map["s" := []] && q.work.busy == map["s" := "j"]
    && q.work.leases == map["j" := M.Lease("s", "w", 5.0)] && q.work.held == map["j" := JOB]
    && q.pins == map[]
  }

  lemma MustChoose(q: M.Queue, p: Poll)
    requires Waits(q) && p.models == {}
    ensures M.Choice(q, p) == Some("s") && M.Delivered(q, p) == Some(JOB)
  {
    assert M.Waiting(q.work, "s") == [JOB];
    assert M.Eligible(q, p, "s");
    forall o | o != "s"
      ensures !M.Eligible(q, p, o)
    {
      assert M.Waiting(q.work, o) == [];
    }
    assert M.Best(q, p, "s");
  }

  lemma Submits()
    ensures Waits(MR.Step(M.EMPTY, MR.Submit(JOB, 0.0)))
  {
    assert JOB.Stamped(0.0) == JOB;
    assert M.Waiting(M.EMPTY.work, "s") + [JOB] == [JOB];
  }

  lemma Serves(q: M.Queue)
    requires Waits(q)
    ensures Flies(MR.Step(q, MR.Serve(POLL)))
  {
    MustChoose(q, POLL);
    assert M.Waiting(q.work, "s")[1..] == [];
    assert M.PrunedPins(q, POLL) == map[];
  }

  lemma Expires(q: M.Queue)
    requires Flies(q)
    ensures Waits(MR.Step(q, MR.Tick(9.0)))
  {
    assert M.Expired(q.work, 9.0) == {"j"};
    assert M.InFlight(q.work, "s") + [] == [JOB];
  }

  lemma AcksLate(q: M.Queue)
    requires Waits(q)
    ensures Waits(MR.Step(q, MR.Complete("j", FINE))) && "j" in MR.Step(q, MR.Complete("j", FINE)).fate.results
  {
  }

  const RUN1 := [MR.Submit(JOB, 0.0)]
  const RUN2 := RUN1 + [MR.Serve(POLL)]
  const RUN3 := RUN2 + [MR.Tick(9.0)]
  const RUN4 := RUN3 + [MR.Complete("j", FINE)]

  lemma After(events: seq<MR.Event>, e: MR.Event)
    ensures MR.Run(events + [e]) == MR.Step(MR.Run(events), e)
    ensures MR.Legal(events + [e]) <==> MR.Legal(events) && MR.Enabled(MR.Run(events), e)
  {
    assert (events + [e])[..|events|] == events;
  }

  /** submit; serve; let the lease run out; ack. The job has a result, and the next poll gets it once more. */
  lemma AckedJobComesAgain()
    ensures MR.Legal(RUN4) && M.Delivered(MR.Run(RUN1), POLL) == Some(JOB)
    ensures "j" in MR.Run(RUN4).fate.results && M.Delivered(MR.Run(RUN4), LATER) == Some(JOB)
  {
    assert [] + RUN1 == RUN1;
    After([], MR.Submit(JOB, 0.0));
    Submits();
    MustChoose(MR.Run(RUN1), POLL);
    After(RUN1, MR.Serve(POLL));
    Serves(MR.Run(RUN1));
    After(RUN2, MR.Tick(9.0));
    Expires(MR.Run(RUN2));
    After(RUN3, MR.Complete("j", FINE));
    AcksLate(MR.Run(RUN3));
    MustChoose(MR.Run(RUN4), LATER);
  }

  // ---------- a last failure without a word ----------

  const PUT := EnqueueCall(0.0, JOB)
  const GET := DequeueCall(0.0, "w", None, 5.0)
  const MUTE := NackCall(0.0, "j", "")

  /** One row, for the job, that has failed `n` times. */
  predicate OneRow(t: S.Table, state: S.RowState, n: nat) {
    && t.rows.Keys == {"j"} && t.rows["j"].job == S.Stored(JOB) && t.rows["j"].state == state
      && t.rows["j"].attempts == n
    && (state.Leased? ==> t.rows["j"].deadline == Some(5.0)) && t.pins == map[]
  }

  lemma RowInserted()
    ensures OneRow(SqliteStep(S.NO_ROWS, PUT), S.Queued, 0)
  {
    assert JOB.Stamped(0.0) == JOB;
  }

  lemma NothingLapses(t: S.Table, n: nat)
    requires OneRow(t, S.Queued, n)
    ensures OneRow(S.Housekeeping(t, 0.0), S.Queued, n)
  {
  }

  lemma RowMatches(t: S.Table, n: nat)
    requires OneRow(t, S.Queued, n)
    ensures S.Query(t, "w", None) == Some("j")
  {
    assert S.Matches(t, "w", None, "j");
    SQ.QueryIsComplete(t, "w", None);
  }

  lemma RowServed(t: S.Table, n: nat)
    requires OneRow(t, S.Queued, n)
    ensures OneRow(SqliteStep(t, GET), S.Leased, n) && Agreeable(t, GET)
  {
    NothingLapses(t, n);
    RowMatches(S.Housekeeping(t, 0.0), n);
  }

  lemma RowFails(t: S.Table, n: nat)
    requires OneRow(t, S.Leased, n) && n + 1 < MAX_ATTEMPTS
    ensures OneRow(SqliteStep(t, MUTE), S.Queued, n + 1) && Agreeable(t, MUTE)
  {
  }

  const CALLS1 := [PUT] + [GET]
  const CALLS2 := CALLS1 + [MUTE] + [GET]
  const CALLS3 := CALLS2 + [MUTE] + [GET]

  lemma OneMoreCall(calls: seq<Call>, c: Call)
    ensures SqliteRun(calls + [c]) == SqliteStep(SqliteRun(calls), c)
    ensures MemoryRun(calls + [c]) == MemoryStep(MemoryRun(calls), c)
    ensures AllAgreeable(calls) && Clock(calls) <= c.at && Agreeable(SqliteRun(calls), c) ==> AllAgreeable(calls + [c])
    ensures Clock(calls + [c]) == c.at
  {
    assert (calls + [c])[..|calls|] == calls;
  }

  lemma FirstCalls()
    ensures AllAgreeable(CALLS1) && Clock(CALLS1) == 0.0 && OneRow(SqliteRun(CALLS1), S.Leased, 0)
  {
    assert [] + [PUT] == [PUT];
    OneMoreCall([], PUT);
    RowInserted();
    OneMoreCall([PUT], GET);
    RowServed(SqliteRun([PUT]), 0);
  }

  lemma MoreCalls(calls: seq<Call>, n: nat)
    requires AllAgreeable(calls) && Clock(calls) == 0.0 && OneRow(SqliteRun(calls), S.Leased, n) && n + 1 < MAX_ATTEMPTS
    ensures var more := calls + [MUTE] + [GET];
      AllAgreeable(more) && Clock(more) == 0.0 && OneRow(SqliteRun(more), S.Leased, n + 1)
  {
    OneMoreCall(calls, MUTE);
    RowFails(SqliteRun(calls), n);
    OneMoreCall(calls + [MUTE], GET);
    RowServed(SqliteRun(calls + [MUTE]), n + 1);
  }

  /**
   * enqueue, then dequeue and nack without an error, three times. Until the last nack the back ends
   * agree; then SQLite answers "job failed", and the in-memory queue an empty error.
   */
  lemma LastFailureDiffers()
    ensures AllAgreeable(CALLS3)
    ensures var t := SqliteRun(CALLS3 + [MUTE]);
      "j" in t.rows && t.rows["j"].state.Dead? && S.Outcome(t.rows["j"]).error == Some("job failed")
    ensures var q := MemoryRun(CALLS3 + [MUTE]); "j" in q.fate.results && q.fate.results["j"].error == Some("")
  {
    FirstCalls();
    MoreCalls(CALLS1, 0);
    MoreCalls(CALLS2, 1);
    RunsAgree(CALLS3);
    OneMoreCall(CALLS3, MUTE);
    SilentInMemory(MemoryRun(CALLS3), SqliteRun(CALLS3));
  }

  lemma SilentInMemory(q: M.Queue, t: S.Table)
    requires Sim(q, t, 0.0) && OneRow(t, S.Leased, 2) && MI.Inv(q)
    ensures var v := S.Nack(t, "j", "");
      "j" in v.rows && v.rows["j"].state.Dead? && S.Outcome(v.rows["j"]).error == Some("job failed")
    ensures "j" in M.Nack(q, "j", "").fate.results && M.Nack(q, "j", "").fate.results["j"].error == Some("")
  {
    assert SameJob(q, t, "j");
    MI.LeasedIsLive(q, "j");
  }

  // ---------- empty metrics ----------

  const BARE := FINE.(metrics := Some(map[]))

  /** enqueue; dequeue; ack with an empty dictionary of metrics. Only the in-memory queue returns it. */
  lemma EmptyMetricsVanish()
    ensures AllAgreeable(CALLS1)
    ensures var t := SqliteRun(CALLS1 + [AckCall(0.0, "j", BARE)]);
      "j" in t.rows && t.rows["j"].state.Done? && S.Outcome(t.rows["j"]).metrics == None
    ensures var q := MemoryRun(CALLS1 + [AckCall(0.0, "j", BARE)]);
      "j" in q.fate.results && q.fate.results["j"].metrics == Some(map[])
  {
    FirstCalls();
    OneMoreCall(CALLS1, AckCall(0.0, "j", BARE));
  }

  // ---------- another worker's affinity window ----------

  const PREFERRED := JOB.(preferredWorker := Some("v"))
  const RESERVED := [EnqueueCall(0.0, PREFERRED)]

  /** A fresh job that prefers worker v goes to worker w from SQLite, and to nobody yet from the in-memory queue. */
  lemma WindowDiffers(timeout: Time)
    ensures AllAgreeable(RESERVED)
    ensures S.Dequeued(SqliteRun(RESERVED), "w", None, 0.0) == Some(PREFERRED)
    ensures MemoryDequeued(MemoryRun(RESERVED), "w", None, 0.0, timeout) == None
  {
    assert [] + RESERVED == RESERVED && PREFERRED.Stamped(0.0) == PREFERRED;
    OneMoreCall([], EnqueueCall(0.0, PREFERRED));
    RowTaken(SqliteRun(RESERVED));
    NobodyEligible(MemoryRun(RESERVED), timeout);
  }

  lemma RowTaken(t: S.Table)
    requires t == SqliteStep(S.NO_ROWS, EnqueueCall(0.0, PREFERRED))
    ensures S.Dequeued(t, "w", None, 0.0) == Some(PREFERRED)
  {
    var ready := S.Housekeeping(t, 0.0);
    assert ready.rows.Keys == {"j"} && ready.rows["j"].job == PREFERRED;
    assert S.Matches(ready, "w", None, "j");
    SQ.QueryIsComplete(ready, "w", None);
  }

  lemma NobodyEligible(q: M.Queue, timeout: Time)
    requires q == MemoryStep(M.EMPTY, EnqueueCall(0.0, PREFERRED))
    ensures MemoryDequeued(q, "w", None, 0.0, timeout) == None
  {
    assert M.Expired(q.work, 0.0) == {};
    var ready, poll := M.RequeueExpired(q, 0.0), Poll("w", {}, 0.0, 0.0, timeout);
    forall s
      ensures !M.Eligible(ready, poll, s)
    {
      assert M.Waiting(ready.work, s) == if s == "s" then [PREFERRED] else [];
    }
  }
}
