/** The SQLite job queue as a value: one row per job, and what each transaction makes of the rows. */
module SqliteQueueState {
  import opened Basics
  import opened JobTypes

  datatype RowState = Queued | Leased | Done | Dead

  datatype Row = Row(
    job: Job,
    seqNo: nat,
    state: RowState,
    worker: Option<WorkerId>,
    deadline: Option<Time>,
    attempts: nat,
    result: Option<string>,
    error: Option<string>,
    metrics: Option<Metrics>)

  /** `rows` is keyed by the primary key; `pins` is the table queue_accum_pins. */
  datatype Table = Table(rows: map<JobId, Row>, lastSeq: nat, pins: map<SessionId, Pin>)

  const NO_ROWS := Table(map[], 0, map[])

  /** What survives the round trip through a row: the context-parallel degree has no column. */
  function Stored(job: Job): Job {
    job.(requiredCp := 1)
  }

  /** A duplicate job id violates the primary key, after the sequence has been bumped. */
  function Insert(t: Table, job: Job, now: Time): Table {
    var seqNo := t.lastSeq + 1;
    if job.id in t.rows then t.(lastSeq := seqNo) else
    t.(lastSeq := seqNo,
       rows := t.rows[job.id := Row(Stored(job.Stamped(now)), seqNo, Queued, None, None, 0, None, None, None)])
  }

  predicate Lapsed(row: Row, now: Time) {
    row.state.Leased? && row.deadline.Some? && row.deadline.value <= now
  }

  function ReleaseLapsed(t: Table, now: Time): Table {
    t.(rows := map id | id in t.rows ::
         if Lapsed(t.rows[id], now) then t.rows[id].(state := Queued, worker := None, deadline := None) else t.rows[id])
  }

  function DropLapsedPins(t: Table, now: Time): Table {
    t.(pins := map s | s in t.pins && t.pins[s].expires > now :: t.pins[s])
  }

  // ---------- the selection query ----------

  /** The row with the least sequence number among the queued rows of its session. */
  predicate IsHead(t: Table, id: JobId) {
    && id in t.rows && t.rows[id].state.Queued?
    && forall o <- t.rows :: t.rows[o].state.Queued? && t.rows[o].job.session == t.rows[id].job.session ==>
      t.rows[id].seqNo <= t.rows[o].seqNo
  }

  predicate SessionLeased(t: Table, s: SessionId) {
    exists o <- t.rows :: t.rows[o].state.Leased? && t.rows[o].job.session == s
  }

  predicate PinnedElsewhere(t: Table, s: SessionId, worker: WorkerId) {
    s in t.pins && t.pins[s].owner != worker
  }

  /** The WHERE clause. */
  predicate Matches(t: Table, worker: WorkerId, model: Option<ModelName>, id: JobId) {
    && IsHead(t, id)
    && !SessionLeased(t, t.rows[id].job.session)
    && !PinnedElsewhere(t, t.rows[id].job.session, worker)
    && (model.None? || t.rows[id].job.requiredModel.None? || t.rows[id].job.requiredModel == model)
  }

  predicate RowBefore(t: Table, worker: WorkerId, a: JobId, b: JobId)
    requires a in t.rows && b in t.rows
  {
    KeyBefore(t.rows[a].job, t.rows[a].seqNo, t.rows[b].job, t.rows[b].seqNo, worker)
  }

  /** ORDER BY ... LIMIT 1 */
  predicate IsFirst(t: Table, worker: WorkerId, model: Option<ModelName>, id: JobId) {
    && Matches(t, worker, model, id)
    && forall o <- t.rows :: Matches(t, worker, model, o) ==> !RowBefore(t, worker, o, id)
  }

  ghost function Query(t: Table, worker: WorkerId, model: Option<ModelName>): (r: Option<JobId>)
    ensures r.Some? ==> IsFirst(t, worker, model, r.value)
    ensures r.None? ==> forall id :: !IsFirst(t, worker, model, id)
  {
    if id :| IsFirst(t, worker, model, id) then Some(id) else None
  }

  function Assign(t: Table, id: JobId, worker: WorkerId, deadline: Time): Table
    requires id in t.rows
  {
    t.(rows := t.rows[id := t.rows[id].(state := Leased, worker := Some(worker), deadline := Some(deadline))])
  }

  function Housekeeping(t: Table, now: Time): Table {
    DropLapsedPins(ReleaseLapsed(t, now), now)
  }

  ghost function SelectAndAssign(t: Table, worker: WorkerId, model: Option<ModelName>, deadline: Time): Table {
    match Query(t, worker, model)
    case None => t
    case Some(id) => Assign(t, id, worker, deadline)
  }

  ghost function Dequeue(t: Table, worker: WorkerId, model: Option<ModelName>, now: Time, timeout: Time): Table {
    SelectAndAssign(Housekeeping(t, now), worker, model, now + timeout)
  }

  ghost function Dequeued(t: Table, worker: WorkerId, model: Option<ModelName>, now: Time): Option<Job> {
    var h := Housekeeping(t, now);
    match Query(h, worker, model)
    case None => None
    case Some(id) => Some(h.rows[id].job)
  }

  // ---------- completion ----------

  /** Metrics go into their column as JSON, and an empty dictionary as nothing. */
  function Kept(metrics: Option<Metrics>): Option<Metrics> {
    if metrics == Some(map[]) then None else metrics
  }

  /** Whatever the status in `result` says, the row becomes completed. */
  function Ack(t: Table, id: JobId, result: JobResult): Table {
    if id !in t.rows then t else
    t.(rows := t.rows[id := t.rows[id].(
         state := Done, result := result.payload, error := None, metrics := Kept(result.metrics), worker := None,
           deadline := None)])
  }

  function Nack(t: Table, id: JobId, error: string): Table {
    if id !in t.rows || !t.rows[id].state.Leased? then t else
    var tries := t.rows[id].attempts + 1;
    t.(rows := t.rows[id := t.rows[id].(
         state := if tries >= MAX_ATTEMPTS then Dead else Queued,
         attempts := tries, error := Some(error), worker := None, deadline := None)])
  }

  function SetPin(t: Table, s: SessionId, worker: WorkerId, expires: Time): Table {
    t.(pins := t.pins[s := Pin(worker, expires)])
  }

  function ClearPin(t: Table, s: SessionId): Table {
    t.(pins := Without(t.pins, s))
  }

  /** What `wait_for_result` answers for a finished row. */
  function Outcome(row: Row): JobResult
    requires row.state.Done? || row.state.Dead?
  {
    if row.state.Done? then JobResult(Completed, row.result, None, row.metrics)
    else
      var error := if row.error.None? || row.error.value == "" then "job failed" else row.error.value;
      JobResult(Failed, None, Some(error), None)
  }
}
