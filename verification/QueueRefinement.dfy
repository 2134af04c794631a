/**
 * The deques of the in-memory queue and the rows of the SQLite queue are two representations of
 * one queue: driven by the same calls they answer every poll with the same job. The exact
 * conditions under which a call keeps them together are part of the statements.
 */
module QueueRefinement {
  import opened Basics
  import opened JobTypes
  import M = MemoryQueueState
  import MI = MemoryQueueInvariants
  import MR = MemoryQueueRuns
  import MT = MemoryQueueRetries
  import S = SqliteQueueState
  import SQ = SqliteQueues

  function PinAt(pins: map<SessionId, Pin>, s: SessionId, now: Time): Option<Pin> {
    if s in pins && pins[s].expires > now then Some(pins[s]) else None
  }

  /** The row of job `id` says what the dictionaries say. */
  ghost predicate SameJob(q: M.Queue, t: S.Table, id: JobId)
    requires id in q.log.submitted && id in t.rows
  {
    var row := t.rows[id];
    && row.job == S.Stored(q.log.submitted[id])
    && (id in q.log.order && row.seqNo == q.log.order[id] + 1)
    && (row.state.Queued? <==> MI.Live(q, id) && id !in q.work.leases)
    && (row.state.Leased? <==> id in q.work.leases)
    && (id in q.work.leases ==>
      row.worker == Some(q.work.leases[id].worker) && row.deadline == Some(q.work.leases[id].deadline))
    && (MI.Live(q, id) ==> row.attempts == M.Tries(q.fate.attempts, id))
    && (row.state.Done? || row.state.Dead? ==> id in q.fate.results && q.fate.results[id] == S.Outcome(row))
  }

  /** The simulation relation at time `now`, between good states. */
  ghost predicate Sim(q: M.Queue, t: S.Table, now: Time) {
    && t.lastSeq == q.log.counter
    && t.rows.Keys == q.log.submitted.Keys
    && (forall id <- t.rows :: SameJob(q, t, id))
    && SamePins(q.pins, t.pins, now)
  }

  /** Both sides respect the same pins from `now` on, whichever lapsed ones they still store. */
  ghost predicate SamePins(a: map<SessionId, Pin>, b: map<SessionId, Pin>, now: Time) {
    forall s :: PinAt(a, s, now) == PinAt(b, s, now)
  }

  function MemoryPoll(worker: WorkerId, model: Option<ModelName>, now: Time, timeout: Time): Poll {
    Poll(worker, (match model case None => NoFilter case Some(m) => OneModel(m)).Normalize(), now, now, now + timeout)
  }

  // ---------- selection ----------

  /** A queued row's job waits in its session's deque, and conversely. */
  lemma QueuedIsWaiting(q: M.Queue, t: S.Table, now: Time, id: JobId)
    requires MI.Inv(q) && Sim(q, t, now) && id in t.rows
    ensures t.rows[id].state.Queued? <==> q.log.submitted[id] in M.Waiting(q.work, q.log.submitted[id].session)
  {
    var job := q.log.submitted[id];
    var s := job.session;
    if t.rows[id].state.Queued? {
      assert job in M.Line(q.work, s);
      assert job !in M.InFlight(q.work, s);
    }
    if job in M.Waiting(q.work, s) {
      var i :| 0 <= i < |M.Waiting(q.work, s)| && M.Waiting(q.work, s)[i] == job;
      MI.NotInFlight(q, s, i);
      MI.WaitingIsLive(q, s, i);
    }
  }

  /** MIN(seq) over the queued rows of a session is the head of its deque. */
  lemma HeadsAgree(q: M.Queue, t: S.Table, now: Time, id: JobId)
    requires MI.Inv(q) && Sim(q, t, now)
    ensures S.IsHead(t, id) <==>
            id in q.log.submitted && var w := M.Waiting(q.work, q.log.submitted[id].session); w != [] && w[0].id == id
  {
    if id in t.rows {
      var s := q.log.submitted[id].session;
      var w := M.Waiting(q.work, s);
      forall o <- t.rows | t.rows[o].job.session == s ensures t.rows[o].state.Queued? <==> q.log.submitted[o] in w {
        QueuedIsWaiting(q, t, now, o);
      }
      if w != [] {
        HeadIsLeast(q, t, now, s);
      }
      if S.IsHead(t, id) {
        QueuedIsWaiting(q, t, now, id);
        var head := w[0].id;
        assert t.rows[id].seqNo <= t.rows[head].seqNo;
      }
      if w != [] && w[0].id == id {
        MI.WaitingIsLive(q, s, 0);
      }
    }
  }

  lemma HeadIsLeast(q: M.Queue, t: S.Table, now: Time, s: SessionId)
    requires MI.Inv(q) && Sim(q, t, now) && M.Waiting(q.work, s) != []
    ensures var head := M.Waiting(q.work, s)[0];
            && head.id in t.rows && t.rows[head.id].state.Queued? && t.rows[head.id].job.session == s
              && q.log.submitted[head.id] == head
            && forall o <- t.rows :: q.log.submitted[o] in M.Waiting(q.work, s) ==>
              t.rows[head.id].seqNo <= t.rows[o].seqNo
  {
    var w := M.Waiting(q.work, s);
    MI.WaitingIsLive(q, s, 0);
    MI.NotInFlight(q, s, 0);
    assert MI.GoodLine(q, s);
    forall o <- t.rows | q.log.submitted[o] in w ensures t.rows[w[0].id].seqNo <= t.rows[o].seqNo {
      HeadBefore(q, t, s, o);
    }
  }

  lemma HeadBefore(q: M.Queue, t: S.Table, s: SessionId, o: JobId)
    requires MI.GoodLine(q, s) && M.Waiting(q.work, s) != [] && t.rows.Keys == q.log.submitted.Keys && o in t.rows
    requires q.log.submitted[o] in M.Waiting(q.work, s) && SameJob(q, t, o) && q.log.submitted[o].id == o
    requires var head := M.Waiting(q.work, s)[0]; head.id in t.rows && SameJob(q, t, head.id)
    ensures t.rows[M.Waiting(q.work, s)[0].id].seqNo <= t.rows[o].seqNo
  {
    var w := M.Waiting(q.work, s);
    var i :| 0 <= i < |w| && w[i] == q.log.submitted[o];
    if i > 0 {
      MI.LaterInLine(q, s, 0, i);
    }
  }

  lemma LeasesAgree(q: M.Queue, t: S.Table, now: Time, s: SessionId)
    requires MI.Inv(q) && Sim(q, t, now)
    ensures S.SessionLeased(t, s) <==> s in q.work.busy
  {
    if S.SessionLeased(t, s) {
      var o :| o in t.rows && t.rows[o].state.Leased? && t.rows[o].job.session == s;
      MI.LeasedIsLive(q, o);
    }
    if s in q.work.busy {
      var o := q.work.busy[s];
      MI.LeasedIsLive(q, o);
      assert t.rows[o].state.Leased? && t.rows[o].job.session == s;
    }
  }

  /** In-memory eligibility without the affinity window. */
  predicate EligibleButForWindow(q: M.Queue, p: Poll, s: SessionId) {
    M.Inspected(q.work, p.models, s) && M.PinAllows(q.pins, s, p.worker, p.pinAt)
  }

  lemma MatchesAgree(q: M.Queue, t: S.Table, worker: WorkerId, model: Option<ModelName>, now: Time, timeout: Time,
      id: JobId)
    requires MI.Inv(q) && Sim(q, t, now) && (forall s <- t.pins :: t.pins[s].expires > now)
    ensures S.Matches(t, worker, model, id) <==>
            && id in q.log.submitted
            && EligibleButForWindow(q, MemoryPoll(worker, model, now, timeout), q.log.submitted[id].session)
            && M.Waiting(q.work, q.log.submitted[id].session)[0].id == id
  {
    HeadsAgree(q, t, now, id);
    if id in t.rows {
      var s := q.log.submitted[id].session;
      LeasesAgree(q, t, now, s);
      PinTestsAgree(q, t, worker, now, s);
      assert SameJob(q, t, id);
      if M.Waiting(q.work, s) != [] && M.Waiting(q.work, s)[0].id == id {
        MI.WaitingIsLive(q, s, 0);
      }
    }
  }

  lemma PinTestsAgree(q: M.Queue, t: S.Table, worker: WorkerId, now: Time, s: SessionId)
    requires SamePins(q.pins, t.pins, now) && (forall o <- t.pins :: t.pins[o].expires > now)
    ensures S.PinnedElsewhere(t, s, worker) <==> !M.PinAllows(q.pins, s, worker, now)
  {
    assert PinAt(q.pins, s, now) == PinAt(t.pins, s, now);
  }

  lemma KeysAgree(q: M.Queue, t: S.Table, now: Time, p: Poll, a: JobId, b: JobId)
    requires MI.Inv(q) && Sim(q, t, now) && a in t.rows && b in t.rows
    ensures S.RowBefore(t, p.worker, a, b) <==> M.Before(q, p, q.log.submitted[a], q.log.submitted[b])
  {
  }

  /**
   * Both back ends select the same job, unless the row that the query selects is still reserved
   * for its preferred worker: the SQLite queue has no affinity window.
   */
  lemma SelectionsAgree(q: M.Queue, t: S.Table, worker: WorkerId, model: Option<ModelName>, now: Time, timeout: Time)
    requires MI.Inv(q) && Sim(q, t, now) && SQ.Inv(t) && (forall s <- t.pins :: t.pins[s].expires > now)
    ensures var p, picked := MemoryPoll(worker, model, now, timeout), S.Query(t, worker, model);
            && (picked.Some? ==> picked.value in t.rows)
            && (picked.None? ==> M.Delivered(q, p).None?)
            && (picked.Some? && !InWindow(t.rows[picked.value].job, worker, now) ==>
                  M.Delivered(q, p) == Some(q.log.submitted[picked.value]))
            && (picked.Some? && InWindow(t.rows[picked.value].job, worker, now) ==>
                  M.Delivered(q, p) != Some(q.log.submitted[picked.value]))
  {
    var p, picked := MemoryPoll(worker, model, now, timeout), S.Query(t, worker, model);
    MR.SelectionIsOptimal(q, p);
    SQ.QueryIsComplete(t, worker, model);
    if picked.None? {
      forall s ensures !M.Eligible(q, p, s) {
        if M.Eligible(q, p, s) {
          MI.WaitingIsLive(q, s, 0);
          MatchesAgree(q, t, worker, model, now, timeout, M.Waiting(q.work, s)[0].id);
        }
      }
    } else {
      var id := picked.value;
      MatchesAgree(q, t, worker, model, now, timeout, id);
      var s := q.log.submitted[id].session;
      MI.WaitingIsLive(q, s, 0);
      if !InWindow(t.rows[id].job, worker, now) {
        PickedIsBest(q, t, worker, model, now, timeout, id);
        MR.BestIsUnique(q, p, s);
      }
    }
  }

  lemma PickedIsBest(q: M.Queue, t: S.Table, worker: WorkerId, model: Option<ModelName>, now: Time, timeout: Time,
      id: JobId)
    requires MI.Inv(q) && Sim(q, t, now) && (forall s <- t.pins :: t.pins[s].expires > now)
    requires S.IsFirst(t, worker, model, id) && !InWindow(t.rows[id].job, worker, now)
    ensures M.Best(q, MemoryPoll(worker, model, now, timeout), q.log.submitted[id].session)
  {
    var p, s := MemoryPoll(worker, model, now, timeout), q.log.submitted[id].session;
    MatchesAgree(q, t, worker, model, now, timeout, id);
    MI.WaitingIsLive(q, s, 0);
    forall o | o != s && M.Eligible(q, p, o) ensures M.Before(q, p, M.Waiting(q.work, s)[0], M.Waiting(q.work, o)[0]) {
      var other := M.Waiting(q.work, o)[0];
      MI.WaitingIsLive(q, o, 0);
      MatchesAgree(q, t, worker, model, now, timeout, other.id);
      KeysAgree(q, t, now, p, other.id, id);
      MR.BeforeIsTotal(q, p, s, o);
    }
  }

  // ---------- one call at a time ----------

  lemma LaterPins(a: map<SessionId, Pin>, b: map<SessionId, Pin>, now: Time, later: Time)
    requires SamePins(a, b, now) && now <= later
    ensures SamePins(a, b, later)
  {
    forall s ensures PinAt(a, s, later) == PinAt(b, s, later) {
      assert PinAt(a, s, now) == PinAt(b, s, now);
    }
  }

  lemma UpdatedPins(a: map<SessionId, Pin>, b: map<SessionId, Pin>, now: Time, s: SessionId, pin: Pin)
    requires SamePins(a, b, now)
    ensures SamePins(a[s := pin], b[s := pin], now) && SamePins(Without(a, s), Without(b, s), now)
  {
    var a1, b1, a2, b2 := a[s := pin], b[s := pin], Without(a, s), Without(b, s);
    forall o ensures PinAt(a1, o, now) == PinAt(b1, o, now) {
      assert PinAt(a, o, now) == PinAt(b, o, now);
    }
    forall o ensures PinAt(a2, o, now) == PinAt(b2, o, now) {
      assert PinAt(a, o, now) == PinAt(b, o, now);
    }
  }

  lemma LaterSim(q: M.Queue, t: S.Table, now: Time, later: Time)
    requires MI.Inv(q) && Sim(q, t, now) && now <= later
    ensures Sim(q, t, later)
  {
    LaterPins(q.pins, t.pins, now, later);
  }

  /** What a step did to job `id` in memory, in the terms of `SameJob`. */
  ghost predicate Moved(q: M.Queue, e: MR.Event, q': M.Queue, id: JobId) {
    && id in q.log.submitted && id in q'.log.submitted && q'.log.submitted[id] == q.log.submitted[id]
    && (id in q.log.order ==> id in q'.log.order && q'.log.order[id] == q.log.order[id])
    && MI.Live(q', id) == (MI.Live(q, id) && !(MR.Finishes(q, e) && e.id == id))
    && (id in q'.work.leases <==>
         (id in q.work.leases && !MT.Expires(q, e, id) && !MT.Acks(q, e, id) && !MT.Fails(q, e, id))
           || MT.Delivers(q, e, id))
    && (MT.Delivers(q, e, id) ==> id !in q.work.leases && MI.Live(q, id))
    && (id in q.work.leases ==> MI.Live(q, id) && id in q.work.held)
    && M.Tries(q'.fate.attempts, id) ==
         (if MT.Acks(q, e, id) || MT.AcksLate(q, e, id) then 0
          else if MT.Fails(q, e, id) then M.Tries(q.fate.attempts, id) + 1
          else M.Tries(q.fate.attempts, id))
  }

  lemma StepMoves(q: M.Queue, e: MR.Event, id: JobId)
    requires MI.Inv(q) && MR.Enabled(q, e) && id in q.log.submitted
    ensures Moved(q, e, MR.Step(q, e), id)
  {
    MT.LiveAfter(q, e, id);
    MT.LeasesAfter(q, e, id);
    MT.TriesAfter(q, e, id);
    MT.StepOnlyAdds(q, e);
    OrderAfter(q, e, id);
    if id in q.work.leases {
      MI.LeasedIsLive(q, id);
    }
  }

  lemma OrderAfter(q: M.Queue, e: MR.Event, id: JobId)
    requires MR.Enabled(q, e) && id in q.log.submitted && id in q.log.order
    ensures id in MR.Step(q, e).log.order && MR.Step(q, e).log.order[id] == q.log.order[id]
  {
  }

  lemma EnqueueAgrees(q: M.Queue, t: S.Table, job: Job, now: Time)
    requires MI.Inv(q) && Sim(q, t, now) && job.id !in q.log.submitted
    ensures Sim(M.Enqueue(q, job, now), S.Insert(t, job, now), now)
  {
    var q', t' := M.Enqueue(q, job, now), S.Insert(t, job, now);
    forall id <- t'.rows ensures SameJob(q', t', id) {
      if id == job.id {
        AppendedIsLive(q, job, now);
      } else {
        assert SameJob(q, t, id);
        StepMoves(q, MR.Submit(job, now), id);
      }
    }
  }

  lemma AppendedIsLive(q: M.Queue, job: Job, now: Time)
    requires MI.Inv(q) && job.id !in q.log.submitted
    ensures MI.Live(M.Enqueue(q, job, now), job.id) && job.id !in q.work.leases && job.id !in q.fate.attempts
  {
    MI.AppendLine(q.work, job.Stamped(now), job.session);
    if job.id in q.work.leases {
      MI.LeasedIsLive(q, job.id);
    }
  }

  /** Expired leases and pins: both sides let go of the same ones. */
  lemma HousekeepingAgrees(q: M.Queue, t: S.Table, now: Time)
    requires MI.Inv(q) && Sim(q, t, now)
    ensures Sim(M.RequeueExpired(q, now), S.Housekeeping(t, now), now)
    ensures forall s <- S.Housekeeping(t, now).pins :: S.Housekeeping(t, now).pins[s].expires > now
  {
    var q', t' := M.RequeueExpired(q, now), S.Housekeeping(t, now);
    forall id <- t'.rows ensures SameJob(q', t', id) {
      assert SameJob(q, t, id);
      StepMoves(q, MR.Tick(now), id);
      HousekeptJob(q, t, now, id);
    }
    LivePinsOnly(q.pins, t.pins, t'.pins, now);
  }

  lemma HousekeptJob(q: M.Queue, t: S.Table, now: Time, id: JobId)
    requires id in t.rows && id in q.log.submitted && SameJob(q, t, id)
    requires Moved(q, MR.Tick(now), M.RequeueExpired(q, now), id)
    ensures SameJob(M.RequeueExpired(q, now), S.Housekeeping(t, now), id)
  {
  }

  lemma DeliveryAgrees(q: M.Queue, t: S.Table, p: Poll, now: Time, id: JobId, t': S.Table)
    requires MI.Inv(q) && Sim(q, t, now) && id in t.rows && M.Delivered(q, p) == Some(q.log.submitted[id])
      && p.pinAt == now
    requires t' == S.Assign(t, id, p.worker, p.deadline)
    ensures Sim(M.Deliver(q, p), t', now)
  {
    var q' := M.Deliver(q, p);
    forall o <- t'.rows ensures SameJob(q', t', o) {
      DeliveredJob(q, t, p, id, o);
    }
    PrunedPinsAgree(q, t, p, now);
  }

  lemma DeliveredJob(q: M.Queue, t: S.Table, p: Poll, id: JobId, o: JobId)
    requires MI.Inv(q) && id in t.rows && id in q.log.submitted && M.Delivered(q, p) == Some(q.log.submitted[id])
    requires o in t.rows && o in q.log.submitted && SameJob(q, t, o)
    ensures SameJob(M.Deliver(q, p), S.Assign(t, id, p.worker, p.deadline), o)
  {
    StepMoves(q, MR.Serve(p), o);
  }

  lemma LivePinsOnly(a: map<SessionId, Pin>, b: map<SessionId, Pin>, c: map<SessionId, Pin>, now: Time)
    requires SamePins(a, b, now) && c == map s | s in b && b[s].expires > now :: b[s]
    ensures SamePins(a, c, now)
  {
    forall s ensures PinAt(a, s, now) == PinAt(c, s, now) {
      assert PinAt(a, s, now) == PinAt(b, s, now);
    }
  }

  lemma PrunedPinsAgree(q: M.Queue, t: S.Table, p: Poll, now: Time)
    requires SamePins(q.pins, t.pins, now) && p.pinAt == now
    ensures SamePins(M.PrunedPins(q, p), t.pins, now)
  {
    forall s ensures PinAt(M.PrunedPins(q, p), s, now) == PinAt(t.pins, s, now) {
      assert PinAt(q.pins, s, now) == PinAt(t.pins, s, now);
    }
  }

  lemma NothingDeliveredAgrees(q: M.Queue, t: S.Table, p: Poll, now: Time)
    requires MI.Inv(q) && Sim(q, t, now) && M.Delivered(q, p) == None && p.pinAt == now
    ensures Sim(M.Deliver(q, p), t, now)
  {
    forall o <- t.rows ensures SameJob(M.Deliver(q, p), t, o) {
      assert SameJob(q, t, o);
    }
    PrunedPinsAgree(q, t, p, now);
  }

  ghost function MemoryDequeue(q: M.Queue, worker: WorkerId, model: Option<ModelName>, now: Time,
      timeout: Time): M.Queue {
    M.Deliver(M.RequeueExpired(q, now), MemoryPoll(worker, model, now, timeout))
  }

  ghost function MemoryDequeued(q: M.Queue, worker: WorkerId, model: Option<ModelName>, now: Time,
      timeout: Time): Option<Job> {
    M.Delivered(M.RequeueExpired(q, now), MemoryPoll(worker, model, now, timeout))
  }

  function StoredOption(job: Option<Job>): Option<Job> {
    match job case None => None case Some(j) => Some(S.Stored(j))
  }

  /** The row chosen by the SQLite queue is still reserved for another worker. */
  ghost predicate Reserved(t: S.Table, worker: WorkerId, model: Option<ModelName>, now: Time) {
    S.Dequeued(t, worker, model, now).Some? && InWindow(S.Dequeued(t, worker, model, now).value, worker, now)
  }

  /**
   * A poll gets the same answer from both back ends if and only if the row that the SQLite queue
   * picks is not inside another worker's affinity window, and then they stay together.
   */
  lemma PollAgrees(q: M.Queue, t: S.Table, worker: WorkerId, model: Option<ModelName>, now: Time, timeout: Time)
    requires MI.Inv(q) && Sim(q, t, now) && SQ.Inv(t)
    ensures S.Dequeued(t, worker, model, now) == StoredOption(MemoryDequeued(q, worker, model, now, timeout))
            <==> !Reserved(t, worker, model, now)
    ensures !Reserved(t, worker, model, now) ==>
              Sim(MemoryDequeue(q, worker, model, now, timeout), S.Dequeue(t, worker, model, now, timeout), now)
  {
    var q1, t1 := M.RequeueExpired(q, now), S.Housekeeping(t, now);
    HousekeepingAgrees(q, t, now);
    MI.RequeueExpiredKeepsInv(q, now);
    SQ.HousekeepingKeepsInv(t, now);
    PollFromThere(q, t, q1, t1, worker, model, now, timeout);
  }

  lemma PollFromThere(q: M.Queue, t: S.Table, q1: M.Queue, t1: S.Table, worker: WorkerId, model: Option<ModelName>,
      now: Time, timeout: Time)
    requires q1 == M.RequeueExpired(q, now) && t1 == S.Housekeeping(t, now)
    requires MI.Inv(q1) && SQ.Inv(t1) && Sim(q1, t1, now)
    ensures S.Dequeued(t, worker, model, now) == StoredOption(MemoryDequeued(q, worker, model, now, timeout))
            <==> !Reserved(t, worker, model, now)
    ensures !Reserved(t, worker, model, now) ==>
              Sim(MemoryDequeue(q, worker, model, now, timeout), S.Dequeue(t, worker, model, now, timeout), now)
  {
    SelectionAnswersAgree(q1, t1, worker, model, now, timeout);
  }

  ghost function PickedJob(t: S.Table, worker: WorkerId, model: Option<ModelName>): Option<Job> {
    match S.Query(t, worker, model) case None => None case Some(id) => Some(t.rows[id].job)
  }

  lemma SelectionAnswersAgree(q: M.Queue, t: S.Table, worker: WorkerId, model: Option<ModelName>, now: Time,
      timeout: Time)
    requires MI.Inv(q) && Sim(q, t, now) && SQ.Inv(t) && (forall s <- t.pins :: t.pins[s].expires > now)
    ensures var p, row := MemoryPoll(worker, model, now, timeout), PickedJob(t, worker, model);
            var reserved := row.Some? && InWindow(row.value, worker, now);
            && (row == StoredOption(M.Delivered(q, p)) <==> !reserved)
            && (!reserved ==> Sim(M.Deliver(q, p), S.SelectAndAssign(t, worker, model, now + timeout), now))
  {
    var p, picked := MemoryPoll(worker, model, now, timeout), S.Query(t, worker, model);
    SelectionsAgree(q, t, worker, model, now, timeout);
    if picked.None? {
      NothingDeliveredAgrees(q, t, p, now);
    } else {
      assert SameJob(q, t, picked.value);
      if InWindow(t.rows[picked.value].job, worker, now) {
        ReservedDiffers(q, t, p, now, picked.value);
      } else {
        SelectedAgrees(q, t, worker, model, now, timeout, picked.value);
      }
    }
  }

  lemma SelectedAgrees(q: M.Queue, t: S.Table, worker: WorkerId, model: Option<ModelName>, now: Time, timeout: Time,
      id: JobId)
    requires MI.Inv(q) && Sim(q, t, now) && id in t.rows && S.Query(t, worker, model) == Some(id)
    requires M.Delivered(q, MemoryPoll(worker, model, now, timeout)) == Some(q.log.submitted[id])
    ensures Sim(M.Deliver(q, MemoryPoll(worker, model, now, timeout)),
      S.SelectAndAssign(t, worker, model, now + timeout), now)
  {
    AssignsPicked(t, worker, model, now, timeout, id);
    DeliveryAgrees(q, t, MemoryPoll(worker, model, now, timeout), now, id,
      S.SelectAndAssign(t, worker, model, now + timeout));
  }

  lemma AssignsPicked(t: S.Table, worker: WorkerId, model: Option<ModelName>, now: Time, timeout: Time, id: JobId)
    requires id in t.rows && S.Query(t, worker, model) == Some(id)
    ensures var p := MemoryPoll(worker, model, now, timeout);
            S.SelectAndAssign(t, worker, model, now + timeout) == S.Assign(t, id, p.worker, p.deadline)
  {
  }

  lemma ReservedDiffers(q: M.Queue, t: S.Table, p: Poll, now: Time, id: JobId)
    requires MI.Inv(q) && Sim(q, t, now) && id in t.rows && M.Delivered(q, p) != Some(q.log.submitted[id])
    ensures StoredOption(M.Delivered(q, p)) != Some(t.rows[id].job)
  {
    assert SameJob(q, t, id);
    if M.Delivered(q, p).Some? {
      MI.WaitingIsLive(q, M.Choice(q, p).value, 0);
    }
  }

  /** The context-parallel degree survives the trip through a row exactly when it is the default. */
  lemma StoredWholeIff(job: Job)
    ensures S.Stored(job) == job <==> job.requiredCp == 1
  {
  }

  /** The job waits although somebody is acking it: its lease ran out before. */
  predicate StillQueued(t: S.Table, id: JobId) {
    id in t.rows && t.rows[id].state.Queued?
  }

  predicate PlainSuccess(result: JobResult) {
    result.status.Completed? && result.error.None? && result.metrics != Some(map[])
  }

  /**
   * An ack keeps the back ends together if and only if its job is not waiting to be retried and
   * the result is a plain success (or the job is unknown): a late ack ends the job in SQLite but
   * not in memory, and SQLite records every acked job as completed, and empty metrics as none.
   */
  lemma AckAgrees(q: M.Queue, t: S.Table, id: JobId, result: JobResult, now: Time)
    requires MI.Inv(q) && Sim(q, t, now)
    ensures Sim(M.Ack(q, id, result), S.Ack(t, id, result), now) <==>
            (id in t.rows ==> !StillQueued(t, id) && PlainSuccess(result))
  {
    var q', t' := M.Ack(q, id, result), S.Ack(t, id, result);
    AckChangesOneJob(q, t, id, result);
    forall o <- t.rows ensures SameJob(q', t', o) <==> (o == id ==> !StillQueued(t, id) && PlainSuccess(result)) {
      AckedJob(q, t, id, result, o);
    }
  }

  lemma AckChangesOneJob(q: M.Queue, t: S.Table, id: JobId, result: JobResult)
    ensures var q', t' := M.Ack(q, id, result), S.Ack(t, id, result);
            t'.rows.Keys == t.rows.Keys && t'.lastSeq == t.lastSeq && t'.pins == t.pins && q'.log == q.log
              && q'.pins == q.pins
  {
  }

  lemma AckedJob(q: M.Queue, t: S.Table, id: JobId, result: JobResult, o: JobId)
    requires MI.Inv(q) && o in t.rows && o in q.log.submitted && SameJob(q, t, o)
    ensures SameJob(M.Ack(q, id, result), S.Ack(t, id, result), o) <==>
      (o == id ==> !StillQueued(t, id) && PlainSuccess(result))
  {
    StepMoves(q, MR.Complete(id, result), o);
  }

  /** The last failure of a job in flight comes without a word. */
  predicate FailsSilently(t: S.Table, id: JobId, error: string) {
    id in t.rows && t.rows[id].state.Leased? && t.rows[id].attempts + 1 >= MAX_ATTEMPTS && error == ""
  }

  /**
   * A nack keeps the back ends together if and only if it is not the last one of its job, or says
   * why: for an empty error SQLite answers "job failed" and the in-memory queue the empty string.
   */
  lemma NackAgrees(q: M.Queue, t: S.Table, id: JobId, error: string, now: Time)
    requires MI.Inv(q) && Sim(q, t, now)
    ensures Sim(M.Nack(q, id, error), S.Nack(t, id, error), now) <==> !FailsSilently(t, id, error)
  {
    var q', t' := M.Nack(q, id, error), S.Nack(t, id, error);
    NackChangesOneJob(q, t, id, error);
    forall o <- t.rows ensures o in q'.log.submitted
      && (SameJob(q', t', o) <==> (o == id ==> !FailsSilently(t, id, error))) {
      NackedJob(q, t, id, error, o, q', t');
    }
  }

  lemma NackChangesOneJob(q: M.Queue, t: S.Table, id: JobId, error: string)
    ensures var q', t' := M.Nack(q, id, error), S.Nack(t, id, error);
            t'.rows.Keys == t.rows.Keys && t'.lastSeq == t.lastSeq && t'.pins == t.pins && q'.log == q.log
              && q'.pins == q.pins
  {
  }

  lemma NackedJob(q: M.Queue, t: S.Table, id: JobId, error: string, o: JobId, q': M.Queue, t': S.Table)
    requires MI.Inv(q) && o in t.rows && o in q.log.submitted && SameJob(q, t, o)
    requires q' == M.Nack(q, id, error) && t' == S.Nack(t, id, error)
    ensures o in q'.log.submitted && o in t'.rows
    ensures SameJob(q', t', o) <==> (o == id ==> !FailsSilently(t, id, error))
  {
    StepMoves(q, MR.Fail(id, error), o);
    NackChangesOneJob(q, t, id, error);
    if o == id && id in q.work.leases {
      NackedLease(q, t, id, error, q', t');
    } else {
      assert t'.rows[o] == t.rows[o];
      NackLeavesResult(q, id, error, o);
    }
  }

  lemma NackLeavesResult(q: M.Queue, id: JobId, error: string, o: JobId)
    requires o != id || id !in q.work.leases
    ensures (o in M.Nack(q, id, error).fate.results <==> o in q.fate.results)
    ensures o in q.fate.results ==> M.Nack(q, id, error).fate.results[o] == q.fate.results[o]
    ensures o in q.work.leases ==>
      o in M.Nack(q, id, error).work.leases && M.Nack(q, id, error).work.leases[o] == q.work.leases[o]
  {
  }

  /** The row of the job that is nacked while in flight. */
  lemma NackedLease(q: M.Queue, t: S.Table, id: JobId, error: string, q': M.Queue, t': S.Table)
    requires id in q.work.leases && id in t.rows && id in q.log.submitted && SameJob(q, t, id)
    requires q' == M.Nack(q, id, error) && t' == S.Nack(t, id, error) && q'.log == q.log
    requires Moved(q, MR.Fail(id, error), q', id)
    ensures id in t'.rows && (SameJob(q', t', id) <==> !FailsSilently(t, id, error))
  {
  }

  lemma PinsAgree(q: M.Queue, t: S.Table, s: SessionId, worker: WorkerId, expires: Time, now: Time)
    requires MI.Inv(q) && Sim(q, t, now)
    ensures Sim(M.SetPin(q, s, worker, expires), S.SetPin(t, s, worker, expires), now)
    ensures Sim(M.ClearPin(q, s), S.ClearPin(t, s), now)
  {
    var pin := Pin(worker, expires);
    UpdatedPins(q.pins, t.pins, now, s, pin);
    OtherPins(q, t, q.pins[s := pin], t.pins[s := pin], now);
    OtherPins(q, t, Without(q.pins, s), Without(t.pins, s), now);
  }

  lemma OtherPins(q: M.Queue, t: S.Table, a: map<SessionId, Pin>, b: map<SessionId, Pin>, now: Time)
    requires Sim(q, t, now) && SamePins(a, b, now)
    ensures Sim(q.(pins := a), t.(pins := b), now)
  {
    forall id <- t.rows ensures SameJob(q.(pins := a), t.(pins := b), id) {
      assert SameJob(q, t, id);
    }
  }

  // ---------- whole runs ----------

  /** One call to the queue's interface, with the clock reading that both back ends see. */
  datatype Call =
    | EnqueueCall(at: Time, job: Job)
    | DequeueCall(at: Time, worker: WorkerId, model: Option<ModelName>, timeout: Time)
    | AckCall(at: Time, id: JobId, result: JobResult)
    | NackCall(at: Time, id: JobId, error: string)
    | PinCall(at: Time, session: SessionId, worker: WorkerId, ttl: Time)
    | UnpinCall(at: Time, session: SessionId)

  ghost function MemoryStep(q: M.Queue, c: Call): M.Queue {
    match c
    case EnqueueCall(at, job) => M.Enqueue(q, job, at)
    case DequeueCall(at, worker, model, timeout) => MemoryDequeue(q, worker, model, at, timeout)
    case AckCall(_, id, result) => M.Ack(q, id, result)
    case NackCall(_, id, error) => M.Nack(q, id, error)
    case PinCall(at, s, worker, ttl) => M.SetPin(q, s, worker, at + ttl)
    case UnpinCall(_, s) => M.ClearPin(q, s)
  }

  ghost function SqliteStep(t: S.Table, c: Call): S.Table {
    match c
    case EnqueueCall(at, job) => S.Insert(t, job, at)
    case DequeueCall(at, worker, model, timeout) => S.Dequeue(t, worker, model, at, timeout)
    case AckCall(_, id, result) => S.Ack(t, id, result)
    case NackCall(_, id, error) => S.Nack(t, id, error)
    case PinCall(at, s, worker, ttl) => S.SetPin(t, s, worker, at + ttl)
    case UnpinCall(_, s) => S.ClearPin(t, s)
  }

  ghost function MemoryRun(calls: seq<Call>): M.Queue {
    if calls == [] then M.EMPTY else MemoryStep(MemoryRun(calls[..|calls| - 1]), calls[|calls| - 1])
  }

  ghost function SqliteRun(calls: seq<Call>): S.Table {
    if calls == [] then S.NO_ROWS else SqliteStep(SqliteRun(calls[..|calls| - 1]), calls[|calls| - 1])
  }

  function Clock(calls: seq<Call>): Time {
    if calls == [] then 0.0 else calls[|calls| - 1].at
  }

  /** The guards under which one call keeps the two back ends together. */
  ghost predicate Agreeable(t: S.Table, c: Call) {
    match c
    case EnqueueCall(_, job) => job.id !in t.rows
    case DequeueCall(at, worker, model, _) => !Reserved(t, worker, model, at)
    case AckCall(_, id, result) => id in t.rows ==> !StillQueued(t, id) && PlainSuccess(result)
    case NackCall(_, id, error) => !FailsSilently(t, id, error)
    case _ => true
  }

  ghost predicate AllAgreeable(calls: seq<Call>) {
    calls != [] ==>
      var before, c := calls[..|calls| - 1], calls[|calls| - 1];
      AllAgreeable(before) && Clock(before) <= c.at && Agreeable(SqliteRun(before), c)
  }

  lemma MemoryPollIsGood(q: M.Queue, worker: WorkerId, model: Option<ModelName>, now: Time, timeout: Time)
    requires MI.Inv(q)
    ensures MI.Inv(MemoryDequeue(q, worker, model, now, timeout))
  {
    MI.RequeueExpiredKeepsInv(q, now);
    MI.DeliverKeepsInv(M.RequeueExpired(q, now), MemoryPoll(worker, model, now, timeout));
  }

  lemma MemoryStepIsGood(q: M.Queue, c: Call)
    requires MI.Inv(q) && (c.EnqueueCall? ==> c.job.id !in q.log.submitted)
    ensures MI.Inv(MemoryStep(q, c))
  {
    if c.EnqueueCall? {
      MI.EnqueueKeepsInv(q, c.job, c.at);
    } else if c.DequeueCall? {
      MemoryPollIsGood(q, c.worker, c.model, c.at, c.timeout);
    } else {
      MemoryMarkIsGood(q, c, MemoryStep(q, c));
    }
  }

  lemma MemoryMarkIsGood(q: M.Queue, c: Call, q': M.Queue)
    requires MI.Inv(q) && !c.EnqueueCall? && !c.DequeueCall? && q' == MemoryStep(q, c)
    ensures MI.Inv(q')
  {
    if c.AckCall? {
      MI.AckKeepsInv(q, c.id, c.result);
    } else if c.NackCall? {
      MI.NackKeepsInv(q, c.id, c.error);
    } else {
      MemoryPinIsGood(q, c, q');
    }
  }

  lemma MemoryPinIsGood(q: M.Queue, c: Call, q': M.Queue)
    requires MI.Inv(q) && (c.PinCall? || c.UnpinCall?) && q' == MemoryStep(q, c)
    ensures MI.Inv(q')
  {
    assert q' == q.(pins := q'.pins);
    PinsKeepInv(q, q'.pins);
  }

  lemma PinsKeepInv(q: M.Queue, pins: map<SessionId, Pin>)
    requires MI.Inv(q)
    ensures MI.Inv(q.(pins := pins))
  {
    forall s
      ensures MI.GoodLine(q.(pins := pins), s)
    {
      assert MI.GoodLine(q, s);
    }
  }

  lemma SqliteStepIsGood(t: S.Table, c: Call)
    requires SQ.Inv(t)
    ensures SQ.Inv(SqliteStep(t, c))
  {
    match c
    case EnqueueCall(at, job) => SQ.InsertKeepsInv(t, job, at);
    case DequeueCall(at, worker, model, timeout) => SQ.DequeueKeepsInv(t, worker, model, at, timeout);
    case AckCall(at, id, result) => SQ.AckKeepsInv(t, id, result);
    case NackCall(at, id, error) => SQ.NackKeepsInv(t, id, error);
    case _ => 
  }

  lemma StepsAgree(q: M.Queue, t: S.Table, c: Call, q': M.Queue, t': S.Table)
    requires MI.Inv(q) && SQ.Inv(t) && Sim(q, t, c.at) && Agreeable(t, c)
    requires q' == MemoryStep(q, c) && t' == SqliteStep(t, c)
    ensures Sim(q', t', c.at)
  {
    if c.EnqueueCall? {
      EnqueueAgrees(q, t, c.job, c.at);
    } else if c.DequeueCall? {
      PollAgrees(q, t, c.worker, c.model, c.at, c.timeout);
    } else {
      OneJobStepsAgree(q, t, c, q', t');
    }
  }

  lemma OneJobStepsAgree(q: M.Queue, t: S.Table, c: Call, q': M.Queue, t': S.Table)
    requires MI.Inv(q) && Sim(q, t, c.at) && Agreeable(t, c) && !c.EnqueueCall? && !c.DequeueCall?
    requires q' == MemoryStep(q, c) && t' == SqliteStep(t, c)
    ensures Sim(q', t', c.at)
  {
    if c.AckCall? {
      AckAgrees(q, t, c.id, c.result, c.at);
    } else if c.NackCall? {
      NackAgrees(q, t, c.id, c.error, c.at);
    } else {
      PinStepsAgree(q, t, c, q', t');
    }
  }

  lemma PinStepsAgree(q: M.Queue, t: S.Table, c: Call, q': M.Queue, t': S.Table)
    requires MI.Inv(q) && Sim(q, t, c.at) && (c.PinCall? || c.UnpinCall?)
    requires q' == MemoryStep(q, c) && t' == SqliteStep(t, c)
    ensures Sim(q', t', c.at)
  {
    if c.PinCall? {
      PinsAgree(q, t, c.session, c.worker, c.at + c.ttl, c.at);
    } else {
      PinsAgree(q, t, c.session, "", c.at, c.at);
    }
  }

  /** A job id that is used again breaks the match: the in-memory queue takes the job, SQLite does not. */
  lemma ReusedIdDiffers(q: M.Queue, t: S.Table, job: Job, now: Time)
    requires SQ.Inv(t) && Sim(q, t, now) && job.id in t.rows
    ensures !Sim(M.Enqueue(q, job, now), S.Insert(t, job, now), now)
  {
    var q', t' := M.Enqueue(q, job, now), S.Insert(t, job, now);
    assert t'.rows == t.rows && q'.log.order[job.id] == t.lastSeq;
    assert t.rows[job.id].seqNo <= t.lastSeq;
    assert !SameJob(q', t', job.id);
  }

  ghost predicate SameAnswer(q: M.Queue, t: S.Table, c: Call) {
    c.DequeueCall? ==>
      S.Dequeued(t, c.worker, c.model, c.at) == StoredOption(MemoryDequeued(q, c.worker, c.model, c.at, c.timeout))
  }

  /** The guards are exact: a call is answered alike and keeps the match if and only if it is within them. */
  lemma AgreeableIsExact(q: M.Queue, t: S.Table, c: Call)
    requires MI.Inv(q) && SQ.Inv(t) && Sim(q, t, c.at)
    ensures Agreeable(t, c) <==> Sim(MemoryStep(q, c), SqliteStep(t, c), c.at) && SameAnswer(q, t, c)
  {
    match c
    case EnqueueCall(at, job) =>
      if job.id in t.rows {
        ReusedIdDiffers(q, t, job, at);
      } else {
        EnqueueAgrees(q, t, job, at);
      }
    case DequeueCall(at, worker, model, timeout) => PollAgrees(q, t, worker, model, at, timeout);
    case AckCall(at, id, result) => AckAgrees(q, t, id, result, at);
    case NackCall(at, id, error) => NackAgrees(q, t, id, error, at);
    case _ => PinStepsAgree(q, t, c, MemoryStep(q, c), SqliteStep(t, c));
  }

  /** The two back ends are in matching states after every agreeable run. */
  lemma {:induction false} RunsAgree(calls: seq<Call>)
    requires AllAgreeable(calls)
    ensures MI.Inv(MemoryRun(calls)) && SQ.Inv(SqliteRun(calls))
      && Sim(MemoryRun(calls), SqliteRun(calls), Clock(calls))
  {
    if calls == [] {
      MI.EmptyIsGood();
    } else {
      var before, c := calls[..|calls| - 1], calls[|calls| - 1];
      RunsAgree(before);
      MemoryStepIsGood(MemoryRun(before), c);
      SqliteStepIsGood(SqliteRun(before), c);
      LaterSim(MemoryRun(before), SqliteRun(before), Clock(before), c.at);
      StepsAgree(MemoryRun(before), SqliteRun(before), c, MemoryRun(calls), SqliteRun(calls));
    }
  }

  /** After any agreeable run the next poll gets the same job, or none, from both back ends. */
  lemma SameAnswers(calls: seq<Call>, worker: WorkerId, model: Option<ModelName>, now: Time, timeout: Time)
    requires AllAgreeable(calls) && Clock(calls) <= now
    ensures
      S.Dequeued(SqliteRun(calls), worker, model, now) ==
        StoredOption(MemoryDequeued(MemoryRun(calls), worker, model, now, timeout))
      <==> !Reserved(SqliteRun(calls), worker, model, now)
  {
    RunsAgree(calls);
    LaterSim(MemoryRun(calls), SqliteRun(calls), Clock(calls), now);
    PollAgrees(MemoryRun(calls), SqliteRun(calls), worker, model, now, timeout);
  }

  /** After any agreeable run a finished job has the same result on both sides. */
  lemma SameResults(calls: seq<Call>, id: JobId)
    requires AllAgreeable(calls) && id in SqliteRun(calls).rows
    ensures var row := SqliteRun(calls).rows[id];
            && id in MemoryRun(calls).log.submitted
            && (row.state.Done? || row.state.Dead? <==> !MI.Live(MemoryRun(calls), id))
            && (row.state.Done? || row.state.Dead? ==>
                  id in MemoryRun(calls).fate.results && MemoryRun(calls).fate.results[id] == S.Outcome(row))
  {
    RunsAgree(calls);
    assert SameJob(MemoryRun(calls), SqliteRun(calls), id);
    if id in MemoryRun(calls).work.leases {
      MI.LeasedIsLive(MemoryRun(calls), id);
    }
  }
}
