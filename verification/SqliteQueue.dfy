/** The durable queue itself: transactions that update its table in place. */
module SqliteQueues {
  import opened Basics
  import opened JobTypes
  import opened SqliteQueueState

  /** Sequence numbers are unique, and a session has at most one job in flight. */
  ghost predicate Inv(t: Table) {
    && (forall id <- t.rows :: t.rows[id].job.id == id && t.rows[id].seqNo <= t.lastSeq)
    && (forall a <- t.rows, b <- t.rows :: t.rows[a].seqNo == t.rows[b].seqNo ==> a == b)
    && (forall a <- t.rows, b <- t.rows ::
         t.rows[a].state.Leased? && t.rows[b].state.Leased? && t.rows[a].job.session == t.rows[b].job.session ==>
           a == b)
  }

  lemma InsertKeepsInv(t: Table, job: Job, now: Time)
    requires Inv(t)
    ensures Inv(Insert(t, job, now))
  {
  }

  lemma HousekeepingKeepsInv(t: Table, now: Time)
    requires Inv(t)
    ensures Inv(Housekeeping(t, now))
  {
    var h := Housekeeping(t, now);
    assert forall id <- h.rows :: h.rows[id].job == t.rows[id].job && h.rows[id].seqNo == t.rows[id].seqNo
                                  && (h.rows[id].state.Leased? ==> t.rows[id].state.Leased?);
  }

  lemma AssignKeepsInv(t: Table, worker: WorkerId, model: Option<ModelName>, id: JobId, deadline: Time)
    requires Inv(t) && Matches(t, worker, model, id)
    ensures Inv(Assign(t, id, worker, deadline))
  {
  }

  lemma SelectKeepsInv(t: Table, worker: WorkerId, model: Option<ModelName>, deadline: Time)
    requires Inv(t)
    ensures Inv(SelectAndAssign(t, worker, model, deadline))
  {
    if Query(t, worker, model).Some? {
      AssignKeepsInv(t, worker, model, Query(t, worker, model).value, deadline);
    }
  }

  lemma DequeueKeepsInv(t: Table, worker: WorkerId, model: Option<ModelName>, now: Time, timeout: Time)
    requires Inv(t)
    ensures Inv(Dequeue(t, worker, model, now, timeout))
  {
    HousekeepingKeepsInv(t, now);
    SelectKeepsInv(Housekeeping(t, now), worker, model, now + timeout);
  }

  lemma AckKeepsInv(t: Table, id: JobId, result: JobResult)
    requires Inv(t)
    ensures Inv(Ack(t, id, result))
  {
  }

  lemma NackKeepsInv(t: Table, id: JobId, error: string)
    requires Inv(t)
    ensures Inv(Nack(t, id, error))
  {
  }

  /** Any non-empty set of matching rows has a first one. */
  lemma {:induction false} SomeFirst(t: Table, worker: WorkerId, model: Option<ModelName>,
      ids: set<JobId>) returns (first: JobId)
    requires ids != {} && (forall id <- ids :: Matches(t, worker, model, id))
    ensures first in ids && first in t.rows
    ensures forall o <- ids :: o in t.rows && !RowBefore(t, worker, o, first)
  {
    var id :| id in ids;
    if ids == {id} {
      first := id;
    } else {
      var other := SomeFirst(t, worker, model, ids - {id});
      first := if RowBefore(t, worker, id, other) then id else other;
    }
  }

  /** The query answers whenever some row matches. */
  lemma QueryIsComplete(t: Table, worker: WorkerId, model: Option<ModelName>)
    ensures Query(t, worker, model).None? <==> forall id :: !Matches(t, worker, model, id)
  {
    var ids := set id | id in t.rows && Matches(t, worker, model, id);
    if ids != {} {
      var first := SomeFirst(t, worker, model, ids);
      assert IsFirst(t, worker, model, first);
    } else {
      assert forall id :: Matches(t, worker, model, id) ==> id in ids;
    }
  }

  lemma FirstIsUnique(t: Table, worker: WorkerId, model: Option<ModelName>, id: JobId)
    requires Inv(t) && IsFirst(t, worker, model, id)
    ensures Query(t, worker, model) == Some(id)
  {
  }

  /**
   * A row matches exactly when it is queued, the other unfinished rows of its session are queued with
   * a greater number, no other worker has pinned the session, and the worker has its model.
   */
  lemma MatchesIff(t: Table, worker: WorkerId, model: Option<ModelName>, id: JobId)
    requires Inv(t) && id in t.rows
    ensures Matches(t, worker, model, id) <==>
      && t.rows[id].state == Queued
      && (forall o <- t.rows :: o != id && t.rows[o].job.session == t.rows[id].job.session ==>
           t.rows[o].state in {Done, Dead} || (t.rows[o].state == Queued && t.rows[o].seqNo > t.rows[id].seqNo))
      && (forall s <- t.pins :: s == t.rows[id].job.session ==> t.pins[s].owner == worker)
      && (model == None || t.rows[id].job.requiredModel in {None, model})
  {
  }

  /** The row picked has the highest priority, then is the worker's own if any is, then is the oldest. */
  lemma HighestPriorityFirst(t: Table, worker: WorkerId, model: Option<ModelName>, o: JobId)
    requires Matches(t, worker, model, o)
    ensures Query(t, worker, model).Some? && Query(t, worker, model).value in t.rows && o in t.rows
    ensures var r, h, own := t.rows[Query(t, worker, model).value], t.rows[o], Some(worker);
      && r.job.priority >= h.job.priority
      && (r.job.priority == h.job.priority ==>
        && (h.job.preferredWorker == own ==> r.job.preferredWorker == own)
        && ((h.job.preferredWorker == own <==> r.job.preferredWorker == own) ==> r.seqNo <= h.seqNo))
  {
    QueryIsComplete(t, worker, model);
  }

  /**
   * In-order delivery for every table that any history can produce, late acks included: when a
   * row is selected, every earlier row of its session is completed or failed.
   */
  lemma DeliveryIsInOrder(t: Table, worker: WorkerId, model: Option<ModelName>, now: Time, earlier: JobId)
    requires Dequeued(t, worker, model, now).Some?
    requires var h := Housekeeping(t, now);
             var id := Query(h, worker, model).value;
             earlier in h.rows && h.rows[earlier].job.session == h.rows[id].job.session
               && h.rows[earlier].seqNo < h.rows[id].seqNo
    ensures t.rows[earlier].state.Done? || t.rows[earlier].state.Dead?
  {
    var h := Housekeeping(t, now);
    var id := Query(h, worker, model).value;
    assert !SessionLeased(h, h.rows[id].job.session);
  }

  class SQLiteJobQueue {
    var rows: map<JobId, Row>
    var queueSeq: nat
    var accumPins: map<SessionId, Pin>

    function State(): Table
      reads this
    {
      Table(rows, queueSeq, accumPins)
    }

    ghost predicate Valid()
      reads this
    {
      Inv(State())
    }

    constructor ()
      ensures Valid() && State() == NO_ROWS
    {
      rows, queueSeq, accumPins := map[], 0, map[];
    }

    method NextSeq() returns (seqNo: nat)
      modifies this`queueSeq
      ensures seqNo == queueSeq == old(queueSeq) + 1
    {
      seqNo := queueSeq + 1;
      queueSeq := seqNo;
    }

    /** `inserted` is false where the insert fails on the primary key. */
    method Enqueue(job: Job, now: Time) returns (inserted: bool)
      requires Valid()
      modifies this
      ensures State() == Insert(old(State()), job, now) && inserted == (job.id !in old(rows))
      ensures Valid()
    {
      InsertKeepsInv(State(), job, now);
      var seqNo := NextSeq();
      inserted := job.id !in rows;
      if inserted {
        rows := rows[job.id := Row(Stored(job.Stamped(now)), seqNo, Queued, None, None, 0, None, None, None)];
      }
    }

    /** One immediate transaction: release, expire pins, select, assign. */
    method Dequeue(worker: WorkerId, model: Option<ModelName>, now: Time, timeout: Time) returns (job: Option<Job>)
      requires Valid()
      modifies this
      ensures State() == SqliteQueueState.Dequeue(old(State()), worker, model, now, timeout)
      ensures job == Dequeued(old(State()), worker, model, now)
      ensures Valid()
    {
      HousekeepingKeepsInv(State(), now);
      ReleaseExpired(now);
      job := SelectAndAssign(worker, model, now + timeout);
    }

    /** `_release_expired` and `_release_expired_pins` */
    method ReleaseExpired(now: Time)
      modifies this`rows, this`accumPins
      ensures State() == Housekeeping(old(State()), now)
    {
      rows := map id | id in rows ::
        if Lapsed(rows[id], now) then rows[id].(state := Queued, worker := None, deadline := None) else rows[id];
      accumPins := map s | s in accumPins && accumPins[s].expires > now :: accumPins[s];
    }

    method SelectAndAssign(worker: WorkerId, model: Option<ModelName>, deadline: Time) returns (job: Option<Job>)
      requires Valid()
      modifies this`rows
      ensures State() == SqliteQueueState.SelectAndAssign(old(State()), worker, model, deadline)
      ensures job == match Query(old(State()), worker, model) case None => None case Some(id) => Some(old(rows)[id].job)
      ensures Valid()
    {
      ghost var t := State();
      if exists id <- rows :: IsFirst(State(), worker, model, id) {
        var id :| id in rows && IsFirst(State(), worker, model, id);
        FirstIsUnique(t, worker, model, id);
        AssignKeepsInv(t, worker, model, id, deadline);
        job := Some(rows[id].job);
        rows := rows[id := rows[id].(state := Leased, worker := Some(worker), deadline := Some(deadline))];
      } else {
        assert forall id :: !IsFirst(t, worker, model, id);
        job := None;
      }
    }

    method Ack(id: JobId, result: JobResult)
      requires Valid()
      modifies this`rows
      ensures State() == SqliteQueueState.Ack(old(State()), id, result)
      ensures Valid()
    {
      if id in rows {
        var metrics := if result.metrics.Some? && result.metrics.value != map[] then result.metrics else None;
        rows := rows[id := rows[id].(
          state := Done, result := result.payload, error := None, metrics := metrics, worker := None,
            deadline := None)];
      }
    }

    method Nack(id: JobId, error: string)
      requires Valid()
      modifies this`rows
      ensures State() == SqliteQueueState.Nack(old(State()), id, error)
      ensures Valid()
    {
      if id in rows && rows[id].state.Leased? {
        var tries := rows[id].attempts + 1;
        if tries >= MAX_ATTEMPTS {
          rows := rows[id := rows[id].(state := Dead, attempts := tries, error := Some(error), worker := None,
            deadline := None)];
        } else {
          rows := rows[id := rows[id].(state := Queued, attempts := tries, error := Some(error), worker := None,
            deadline := None)];
        }
      }
    }

    method SetAccumPin(session: SessionId, worker: WorkerId, now: Time, ttl: Time)
      modifies this`accumPins
      ensures State() == SetPin(old(State()), session, worker, now + ttl)
    {
      accumPins := accumPins[session := Pin(worker, now + ttl)];
    }

    method ClearAccumPin(session: SessionId)
      modifies this`accumPins
      ensures State() == ClearPin(old(State()), session)
    {
      accumPins := Without(accumPins, session);
    }
  }
}
