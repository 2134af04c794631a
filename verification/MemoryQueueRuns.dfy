/** Properties of whole runs of the in-memory queue: any interleaving of any callers. */
module MemoryQueueRuns {
  import opened Basics
  import opened JobTypes
  import opened MemoryQueueState
  import opened MemoryQueueInvariants

  /** The atomic steps of the queue; `dequeue` is a `Tick` followed by a `Serve`. */
  datatype Event =
    | Submit(job: Job, at: Time)
    | Tick(at: Time)
    | Serve(poll: Poll)
    | Complete(id: JobId, result: JobResult)
    | Fail(id: JobId, error: string)
    | Listen(id: JobId)
    | Own(session: SessionId, worker: WorkerId, expires: Time)
    | Disown(session: SessionId)

  ghost function Step(q: Queue, e: Event): Queue {
    match e
    case Submit(job, at) => Enqueue(q, job, at)
    case Tick(at) => RequeueExpired(q, at)
    case Serve(poll) => Deliver(q, poll)
    case Complete(id, result) => Ack(q, id, result)
    case Fail(id, error) => Nack(q, id, error)
    case Listen(id) => q.(fate := Await(q.fate, id))
    case Own(s, w, expires) => SetPin(q, s, w, expires)
    case Disown(s) => ClearPin(q, s)
  }

  /** The one thing asked of callers: job ids are fresh. */
  predicate Enabled(q: Queue, e: Event) {
    e.Submit? ==> e.job.id !in q.log.submitted
  }

  ghost function Run(events: seq<Event>): Queue {
    if events == [] then EMPTY else Step(Run(events[..|events| - 1]), events[|events| - 1])
  }

  ghost predicate Legal(events: seq<Event>) {
    events != [] ==>
      var before := events[..|events| - 1];
      Legal(before) && Enabled(Run(before), events[|events| - 1])
  }

  lemma StepKeepsInv(q: Queue, e: Event)
    requires Inv(q) && Enabled(q, e)
    ensures Inv(Step(q, e))
  {
    match e
    case Submit(job, at) => EnqueueKeepsInv(q, job, at);
    case Tick(at) => RequeueExpiredKeepsInv(q, at);
    case Serve(poll) => DeliverKeepsInv(q, poll);
    case Complete(id, result) => AckKeepsInv(q, id, result);
    case Fail(id, error) => NackKeepsInv(q, id, error);
    case _ => SameLines(q, Step(q, e));
  }

  /** Tables agree, lines are ordered and no job is lost, in every reachable state. */
  lemma {:induction false} ReachableIsGood(events: seq<Event>)
    requires Legal(events)
    ensures Inv(Run(events))
  {
    if events == [] {
      EmptyIsGood();
    } else {
      ReachableIsGood(events[..|events| - 1]);
      StepKeepsInv(Run(events[..|events| - 1]), events[|events| - 1]);
    }
  }

  // ---------- selection ----------

  lemma BeforeIsTotal(q: Queue, p: Poll, s: SessionId, t: SessionId)
    requires Inv(q) && s != t && Waiting(q.work, s) != [] && Waiting(q.work, t) != []
    ensures Before(q, p, Waiting(q.work, s)[0], Waiting(q.work, t)[0])
      != Before(q, p, Waiting(q.work, t)[0], Waiting(q.work, s)[0])
  {
    WaitingIsLive(q, s, 0);
    WaitingIsLive(q, t, 0);
  }

  /** Among any non-empty finite set of eligible sessions one comes first. */
  lemma {:induction false} SomeFirst(q: Queue, p: Poll, sessions: set<SessionId>) returns (first: SessionId)
    requires Inv(q) && sessions != {} && (forall s <- sessions :: Eligible(q, p, s))
    ensures first in sessions && Waiting(q.work, first) != []
    ensures forall o <- sessions :: Waiting(q.work, o) != [] &&
              (o != first ==> Before(q, p, Waiting(q.work, first)[0], Waiting(q.work, o)[0]))
  {
    var s :| s in sessions;
    if sessions == {s} {
      first := s;
    } else {
      var t := SomeFirst(q, p, sessions - {s});
      BeforeIsTotal(q, p, s, t);
      first := if Before(q, p, Waiting(q.work, s)[0], Waiting(q.work, t)[0]) then s else t;
    }
  }

  /**
   * Selection is complete and optimal: nothing is returned exactly when no head may go to this
   * worker, and otherwise the head returned precedes every other head that may.
   */
  lemma SelectionIsOptimal(q: Queue, p: Poll)
    requires Inv(q)
    ensures Delivered(q, p).None? <==> forall s :: !Eligible(q, p, s)
    ensures Delivered(q, p).Some? ==>
              var job := Delivered(q, p).value;
              && Eligible(q, p, job.session) && job == Waiting(q.work, job.session)[0]
              && (forall s :: Eligible(q, p, s) && s != job.session ==> Before(q, p, job, Waiting(q.work, s)[0]))
  {
    var eligible := set s | s in q.work.waiting && Eligible(q, p, s);
    assert forall s :: Eligible(q, p, s) ==> s in eligible;
    if eligible != {} {
      var first := SomeFirst(q, p, eligible);
      assert Best(q, p, first);
    }
    if Delivered(q, p).Some? {
      WaitingIsLive(q, Choice(q, p).value, 0);
    }
  }

  /** Whatever session meets the description of the best one is the one that is chosen. */
  lemma BestIsUnique(q: Queue, p: Poll, s: SessionId)
    requires Inv(q) && Best(q, p, s)
    ensures Choice(q, p) == Some(s)
  {
    var t := Choice(q, p).value;
    if t != s {
      BeforeIsTotal(q, p, s, t);
    }
  }

  /** The head `h` may go to the worker of the poll, in terms of the job, its session's pin and the clock. */
  predicate MayGo(h: Job, pin: Option<Pin>, p: Poll) {
    && (p.models == {} || h.requiredModel == None || h.requiredModel.value in p.models)
    && (pin.Some? && pin.value.owner != p.worker ==> p.pinAt >= pin.value.expires)
    && (h.preferredWorker.Some? && |h.preferredWorker.value| > 0 && h.preferredWorker.value != p.worker ==>
          h.enqueuedAt.None? || p.now >= h.enqueuedAt.value + 2.0)
  }

  /** A poll comes back empty exactly when every session is busy, drained, or has a head that may not go. */
  lemma PollIsEmptyIff(q: Queue, p: Poll)
    requires Inv(q)
    ensures Delivered(q, p).None? <==> forall s <- q.work.waiting ::
      q.work.waiting[s] == [] || s in q.work.busy || !MayGo(q.work.waiting[s][0], Lookup(q.pins, s), p)
  {
    SelectionIsOptimal(q, p);
    forall s
      ensures Eligible(q, p, s) <==>
        s in q.work.waiting && q.work.waiting[s] != [] && s !in q.work.busy
          && MayGo(q.work.waiting[s][0], Lookup(q.pins, s), p)
    {
      EligibleIff(q, p, s);
    }
  }

  lemma EligibleIff(q: Queue, p: Poll, s: SessionId)
    ensures Eligible(q, p, s) <==>
      s in q.work.waiting && q.work.waiting[s] != [] && s !in q.work.busy
        && MayGo(q.work.waiting[s][0], Lookup(q.pins, s), p)
  {
  }

  /** The job handed out has the highest priority, then is the worker's own if any is, then is the oldest. */
  lemma HighestPriorityFirst(q: Queue, p: Poll, s: SessionId)
    requires Inv(q) && Eligible(q, p, s)
    ensures Delivered(q, p).Some?
    ensures var j, h, own := Delivered(q, p).value, Waiting(q.work, s)[0], Some(p.worker);
      && j.id in q.log.order && h.id in q.log.order && j.priority >= h.priority
      && (j.priority == h.priority ==>
        && (h.preferredWorker == own ==> j.preferredWorker == own)
        && ((h.preferredWorker == own <==> j.preferredWorker == own) ==> q.log.order[j.id] <= q.log.order[h.id]))
  {
    SelectionIsOptimal(q, p);
    WaitingIsLive(q, s, 0);
    WaitingIsLive(q, Delivered(q, p).value.session, 0);
  }

  // ---------- order of delivery ----------

  /**
   * In-order delivery in every run, late acks and expired leases included: when a job is handed
   * out, every job submitted earlier to the same session already has a result, whatever the
   * two priorities are.
   */
  lemma DeliveryIsInOrder(events: seq<Event>, p: Poll, id: JobId)
    requires Legal(events) && Delivered(Run(events), p).Some?
    requires var q := Run(events);
             && id in q.log.submitted && id in q.log.order
             && q.log.submitted[id].session == Delivered(q, p).value.session
             && q.log.order[id] < Seq(q.log.order, Delivered(q, p).value)
    ensures id in Run(events).fate.results
  {
    var q := Run(events);
    ReachableIsGood(events);
    SelectionIsOptimal(q, p);
    if Live(q, id) {
      HeadHasLeastSeq(q, Delivered(q, p).value.session, id);
    }
  }

  lemma HeadHasLeastSeq(q: Queue, s: SessionId, id: JobId)
    requires Inv(q) && Idle(q.work, s) && Live(q, id) && q.log.submitted[id].session == s
    ensures Seq(q.log.order, Waiting(q.work, s)[0]) <= q.log.order[id]
  {
    var line := Line(q.work, s);
    assert GoodLine(q, s) && line == Waiting(q.work, s);
    var i :| 0 <= i < |line| && line[i] == q.log.submitted[id];
    assert i > 0 ==> Seq(q.log.order, line[0]) < Seq(q.log.order, line[i]);
  }

  /** A delivered job was in nobody's hands, nor was any other job of its session. */
  lemma DeliveryIsExclusive(events: seq<Event>, p: Poll)
    requires Legal(events) && Delivered(Run(events), p).Some?
    ensures var q, job := Run(events), Delivered(Run(events), p).value;
            && (forall id <- q.work.leases :: q.work.leases[id].session != job.session && id != job.id)
            && Deliver(q, p).work.leases == q.work.leases[job.id := Lease(job.session, p.worker, p.deadline)]
  {
    var q := Run(events);
    ReachableIsGood(events);
    SelectionIsOptimal(q, p);
    NotInFlight(q, Delivered(q, p).value.session, 0);
  }

  /** The step takes the job `e.id` off its line for good. */
  predicate Finishes(q: Queue, e: Event) {
    (e.Complete? || (e.Fail? && LastTry(q, e.id))) && e.id in q.work.leases
  }

  /** The job with the time of its submission, unless the caller has given one. */
  function SubmittedAt(job: Job, at: Time): (r: Job)
    ensures r.enqueuedAt == match job.enqueuedAt case Some(given) => Some(given) case None => Some(at)
  {
    match job.enqueuedAt
    case Some(_) => job
    case None => job.(enqueuedAt := Some(at))
  }

  /**
   * Each session is a FIFO queue: a step appends the job just submitted, or removes the head
   * when the job in flight is acked or nacked for the last time, or leaves the line alone.
   */
  lemma LineIsFifo(q: Queue, e: Event, s: SessionId)
    requires Inv(q) && Enabled(q, e)
    ensures Finishes(q, e) ==> var t := q.work.leases[e.id].session;
      Line(q.work, t) != [] && Line(q.work, t)[0].id == e.id
    ensures Line(Step(q, e).work, s) ==
            if e.Submit? && e.job.session == s then Line(q.work, s) + [SubmittedAt(e.job, e.at)]
            else if Finishes(q, e) && q.work.leases[e.id].session == s then Line(q.work, s)[1..]
            else Line(q.work, s)
  {
    match e
    case Submit(job, at) =>
      assert job.Stamped(at) == SubmittedAt(job, at);
      SubmittedLine(q, job, at, s);
    case Complete(id, result) => AckedLine(q, id, result, s);
    case Fail(id, error) => FailedLine(q, id, error, s);
    case _ => LineStays(q, e, s);
  }

  lemma LineStays(q: Queue, e: Event, s: SessionId)
    requires Inv(q) && !e.Submit? && !e.Complete? && !e.Fail?
    ensures Line(Step(q, e).work, s) == Line(q.work, s)
  {
    match e
    case Tick(at) => ReleaseLine(q.work, Expired(q.work, at), s);
    case Serve(poll) => ServedLine(q, poll, s);
    case _ =>
  }

  lemma SubmittedLine(q: Queue, job: Job, at: Time, s: SessionId)
    ensures Line(Enqueue(q, job, at).work, s) ==
            if s == job.session then Line(q.work, s) + [job.Stamped(at)] else Line(q.work, s)
  {
    AppendLine(q.work, job.Stamped(at), s);
  }

  lemma ServedLine(q: Queue, poll: Poll, s: SessionId)
    requires Inv(q)
    ensures Line(Deliver(q, poll).work, s) == Line(q.work, s)
  {
    if Choice(q, poll).Some? {
      TakeLine(q, poll, Choice(q, poll).value, s);
    }
  }

  lemma AckedLine(q: Queue, id: JobId, result: JobResult, s: SessionId)
    requires Inv(q)
    ensures id in q.work.leases ==> var t := q.work.leases[id].session;
      Line(q.work, t) != [] && Line(q.work, t)[0].id == id
    ensures Line(Ack(q, id, result).work, s) ==
            if id in q.work.leases && q.work.leases[id].session == s then Line(q.work, s)[1..] else Line(q.work, s)
  {
    if id in q.work.leases {
      LeasedIsLive(q, id);
      UnleaseLine(q.work, id, s);
    }
  }

  lemma FailedLine(q: Queue, id: JobId, error: string, s: SessionId)
    requires Inv(q)
    ensures id in q.work.leases ==> var t := q.work.leases[id].session;
      Line(q.work, t) != [] && Line(q.work, t)[0].id == id
    ensures Line(Nack(q, id, error).work, s) ==
            if id in q.work.leases && LastTry(q, id)
              && q.work.leases[id].session == s then Line(q.work, s)[1..] else Line(q.work, s)
  {
    if id in q.work.leases {
      LeasedIsLive(q, id);
      UnleaseLine(q.work, id, s);
      ReturnLine(q.work, id, s);
    }
  }
}
