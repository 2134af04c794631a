/** How often a job can be handed out: a conservation law that holds in every run. */
module MemoryQueueRetries {
  import opened Basics
  import opened JobTypes
  import opened MemoryQueueState
  import opened MemoryQueueInvariants
  import opened MemoryQueueRuns

  /** What has happened to one job in a run. */
  datatype Tally = Tally(
    delivered: nat, // handed to a worker
    expired: nat,   // taken back because the lease ran out
    failed: nat,    // nacked while in flight
    acked: nat,     // acked while in flight
    late: nat)      // acked while not in flight

  ghost predicate Delivers(q: Queue, e: Event, id: JobId) {
    e.Serve? && Delivered(q, e.poll).Some? && Delivered(q, e.poll).value.id == id
  }

  predicate Expires(q: Queue, e: Event, id: JobId) {
    e.Tick? && id in Expired(q.work, e.at)
  }

  predicate Acks(q: Queue, e: Event, id: JobId) {
    e.Complete? && e.id == id && id in q.work.leases
  }

  predicate AcksLate(q: Queue, e: Event, id: JobId) {
    e.Complete? && e.id == id && id !in q.work.leases
  }

  predicate Fails(q: Queue, e: Event, id: JobId) {
    e.Fail? && e.id == id && id in q.work.leases
  }

  ghost function Counted(q: Queue, e: Event, id: JobId, t: Tally): Tally {
    Tally(
      t.delivered + if Delivers(q, e, id) then 1 else 0,
      t.expired + if Expires(q, e, id) then 1 else 0,
      t.failed + if Fails(q, e, id) then 1 else 0,
      t.acked + if Acks(q, e, id) then 1 else 0,
      t.late + if AcksLate(q, e, id) then 1 else 0)
  }

  ghost function Count(events: seq<Event>, id: JobId): Tally {
    if events == [] then Tally(0, 0, 0, 0, 0)
    else
      var before := events[..|events| - 1];
      Counted(Run(before), events[|events| - 1], id, Count(before, id))
  }

  /** The books of one job, tied to the queue's own tables. */
  ghost predicate Balanced(q: Queue, id: JobId, t: Tally) {
    && t.delivered == t.expired + t.failed + t.acked + (if id in q.work.leases then 1 else 0)
    && t.acked <= 1
    && (id !in q.log.submitted ==> t.delivered == 0)
    && (Live(q, id) ==>
      t.acked == 0 && Tries(q.fate.attempts, id) <= t.failed <= Tries(q.fate.attempts, id) + 2 * t.late)
    && (id in q.log.submitted && !Live(q, id) ==> t.acked + t.failed <= MAX_ATTEMPTS + 2 * t.late)
    && (id in q.fate.deadLetters ==> t.acked == 0 && MAX_ATTEMPTS <= t.failed)
  }

  // ---------- what one step does to one job ----------

  /** Submissions, results and dead letters are never forgotten. */
  lemma StepOnlyAdds(q: Queue, e: Event)
    requires Enabled(q, e)
    ensures var r := Step(q, e);
            && (forall id <- q.log.submitted :: id in r.log.submitted && r.log.submitted[id] == q.log.submitted[id])
            && r.log.submitted.Keys == q.log.submitted.Keys + (if e.Submit? then {e.job.id} else {})
            && q.fate.results.Keys <= r.fate.results.Keys
  {
  }

  lemma LeasesAfter(q: Queue, e: Event, id: JobId)
    requires Inv(q)
    ensures id in Step(q, e).work.leases <==>
            (id in q.work.leases && !Expires(q, e, id) && !Acks(q, e, id) && !Fails(q, e, id)) || Delivers(q, e, id)
    ensures Delivers(q, e, id) ==> id !in q.work.leases && Live(q, id)
  {
    if Delivers(q, e, id) {
      NotInFlight(q, Choice(q, e.poll).value, 0);
      WaitingIsLive(q, Choice(q, e.poll).value, 0);
    }
  }

  lemma TriesAfter(q: Queue, e: Event, id: JobId)
    ensures Tries(Step(q, e).fate.attempts, id) ==
            if Acks(q, e, id) || AcksLate(q, e, id) then 0
            else if Fails(q, e, id) then Tries(q.fate.attempts, id) + 1
            else Tries(q.fate.attempts, id)
  {
  }

  lemma DeadAfter(q: Queue, e: Event, id: JobId)
    requires IndexesAgree(q.work)
    ensures id in Step(q, e).fate.deadLetters <==> id in q.fate.deadLetters || (Fails(q, e, id) && LastTry(q, id))
  {
  }

  /** A submitted job stops being unfinished exactly when it is acked or finally nacked in flight. */
  lemma LiveAfter(q: Queue, e: Event, id: JobId)
    requires Inv(q) && Enabled(q, e) && id in q.log.submitted
    ensures Live(Step(q, e), id) == (Live(q, id) && !(Finishes(q, e) && e.id == id))
  {
    StepOnlyAdds(q, e);
    LineIsFifo(q, e, q.log.submitted[id].session);
    if Finishes(q, e) && e.id == id {
      LeasedIsLive(q, id);
      UnleaseKeeps(q, id);
    }
  }

  lemma StepKeepsBalance(q: Queue, e: Event, id: JobId, t: Tally)
    requires Inv(q) && Enabled(q, e) && Balanced(q, id, t)
    ensures Balanced(Step(q, e), id, Counted(q, e, id, t))
  {
    StepKeepsInv(q, e);
    LeasesAfter(q, e, id);
    TriesAfter(q, e, id);
    DeadAfter(q, e, id);
    StepOnlyAdds(q, e);
    if id in q.work.leases {
      LeasedIsLive(q, id);
    }
    if id in q.log.submitted {
      LiveAfter(q, e, id);
    }
    if id in Step(q, e).fate.deadLetters {
      DeadIsNotLive(Step(q, e), id);
    }
    if Live(q, id) {
      assert GoodLine(q, q.log.submitted[id].session);
    }
    Settle(q, Step(q, e), e, id, t);
  }

  /** The arithmetic of one step, once what it does to the tables is known. */
  lemma Settle(q: Queue, r: Queue, e: Event, id: JobId, t: Tally)
    requires Balanced(q, id, t) && (id in q.work.leases ==> Live(q, id) && id in q.work.held)
    requires id in r.work.leases <==>
             (id in q.work.leases && !Expires(q, e, id) && !Acks(q, e, id) && !Fails(q, e, id)) || Delivers(q, e, id)
    requires Delivers(q, e, id) ==> id !in q.work.leases && Live(q, id)
    requires Tries(r.fate.attempts, id) ==
             if Acks(q, e, id) || AcksLate(q, e, id) then 0
             else if Fails(q, e, id) then Tries(q.fate.attempts, id) + 1
             else Tries(q.fate.attempts, id)
    requires Live(q, id) ==> Tries(q.fate.attempts, id) < MAX_ATTEMPTS && id !in q.fate.deadLetters
    requires id !in q.log.submitted ==> Tries(q.fate.attempts, id) == 0
    requires id in r.fate.deadLetters <==> id in q.fate.deadLetters || (Fails(q, e, id) && LastTry(q, id))
    requires id in r.fate.deadLetters ==> !Live(r, id)
    requires id in q.log.submitted ==>
      id in r.log.submitted && Live(r, id) == (Live(q, id) && !(Finishes(q, e) && e.id == id))
    requires id in r.log.submitted ==> id in q.log.submitted || e.Submit?
    ensures Balanced(r, id, Counted(q, e, id, t))
  {
  }

  lemma DeadIsNotLive(q: Queue, id: JobId)
    requires Inv(q) && id in q.fate.deadLetters
    ensures id in q.log.submitted && !Live(q, id)
  {
    assert GoodLine(q, q.log.submitted[id].session);
  }

  // ---------- the law, over every run ----------

  lemma {:induction false} CountIsBalanced(events: seq<Event>, id: JobId)
    requires Legal(events)
    ensures Balanced(Run(events), id, Count(events, id))
  {
    if events == [] {
    } else {
      var before := events[..|events| - 1];
      CountIsBalanced(before, id);
      ReachableIsGood(before);
      StepKeepsBalance(Run(before), events[|events| - 1], id, Count(before, id));
    }
  }

  /** How many acks of the job there are in a run, in flight or not. */
  function AcksOf(events: seq<Event>, id: JobId): nat {
    if events == [] then 0
    else
      var last := events[|events| - 1];
      AcksOf(events[..|events| - 1], id) + if last.Complete? && last.id == id then 1 else 0
  }

  lemma {:induction false} AcksAreCounted(events: seq<Event>, id: JobId)
    ensures Count(events, id).acked + Count(events, id).late == AcksOf(events, id)
  {
    if events != [] {
      AcksAreCounted(events[..|events| - 1], id);
    }
  }

  /**
   * In every run a job is delivered at most three times more than its lease expired, plus two
   * further times for each ack that came after its lease was gone (such an ack resets the
   * attempts counter). Without expiries and late acks `n` jobs mean at most `3 * n` deliveries.
   */
  lemma DeliveriesAreBounded(events: seq<Event>, id: JobId)
    requires Legal(events)
    ensures Count(events, id).acked + Count(events, id).late == AcksOf(events, id)
    ensures var t := Count(events, id);
            && t.delivered == t.expired + t.failed + t.acked + (if id in Run(events).work.leases then 1 else 0)
            && t.acked <= 1
            && t.delivered <= 3 + t.expired + 2 * t.late
  {
    CountIsBalanced(events, id);
    AcksAreCounted(events, id);
    ReachableIsGood(events);
    if id in Run(events).work.leases {
      LeasedIsLive(Run(events), id);
    }
  }

  /** A dead-lettered job failed three times (exactly, without late acks) and is out for good. */
  lemma DeadLettersStayDead(events: seq<Event>, e: Event, id: JobId)
    requires Legal(events) && Enabled(Run(events), e) && id in Run(events).fate.deadLetters
    ensures var t := Count(events, id);
      t.acked == 0 && t.failed >= 3 && (t.late == 0 ==> t.failed == 3)
    ensures id in Step(Run(events), e).fate.deadLetters && !Delivers(Run(events), e, id)
  {
    var q := Run(events);
    ReachableIsGood(events);
    CountIsBalanced(events, id);
    DeadAfter(q, e, id);
    DeadIsNotLive(q, id);
    LeasesAfter(q, e, id);
  }
}
