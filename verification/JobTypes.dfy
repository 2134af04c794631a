/** Jobs, results and the arguments of one poll, shared by both queue backends. */
module JobTypes {
  import opened Basics

  type JobId = string
  type SessionId = string
  type WorkerId = string
  type ModelName = string
  type Time = real

  /** Seconds during which only the preferred worker may take a job. */
  const AFFINITY_WINDOW: Time := 2.0

  /** A job that has failed this many times goes to the dead-letter table. */
  const MAX_ATTEMPTS: nat := 3

  datatype Job = Job(
    id: JobId,
    session: SessionId,
    operation: string,
    payload: string,
    priority: int,
    preferredWorker: Option<WorkerId>,
    requiredModel: Option<ModelName>,
    enqueuedAt: Option<Time>,
    requiredCp: int)
  {
    /** `enqueue` stamps jobs that carry no submission time. */
    function Stamped(now: Time): Job {
      if enqueuedAt.None? then this.(enqueuedAt := Some(now)) else this
    }
  }

  datatype Status = Completed | Failed

  /** Values are kept as the JSON they are written in. */
  type Metrics = map<string, string>

  datatype JobResult = JobResult(
    status: Status,
    payload: Option<string>,
    error: Option<string>,
    metrics: Option<Metrics>)

  /** The three shapes a caller may pass as a model filter. */
  datatype ModelFilter = NoFilter | OneModel(name: ModelName) | ManyModels(names: seq<ModelName>)
  {
    /** The empty set means "no filter". */
    function Normalize(): set<ModelName> {
      match this
      case NoFilter => {}
      case OneModel(name) => {name}
      case ManyModels(names) => set n | n in names
    }
  }

  predicate Passes(models: set<ModelName>, job: Job) {
    models == {} || job.requiredModel.None? || job.requiredModel.value in models
  }

  /** True while the job is reserved for a worker other than `worker`. */
  predicate InWindow(job: Job, worker: WorkerId, now: Time) {
    && job.preferredWorker.Some?
    && job.preferredWorker.value != ""
    && job.preferredWorker.value != worker
    && job.enqueuedAt.Some?
    && now - job.enqueuedAt.value < AFFINITY_WINDOW
  }

  /** 0 for the preferred worker's own jobs, 1 for all others. */
  function Affinity(job: Job, worker: WorkerId): int {
    if job.preferredWorker == Some(worker) then 0 else 1
  }

  /** The sort key compared lexicographically: highest priority, own jobs, oldest. */
  predicate KeyBefore(a: Job, seqA: int, b: Job, seqB: int, worker: WorkerId) {
    || a.priority > b.priority
    || (a.priority == b.priority && Affinity(a, worker) < Affinity(b, worker))
    || (a.priority == b.priority && Affinity(a, worker) == Affinity(b, worker) && seqA < seqB)
  }

  datatype Pin = Pin(owner: WorkerId, expires: Time)

  /**
   * One call of `dequeue`. The clock is read three times under the lock: for the pin test,
   * for the affinity window and for the new lease's deadline.
   */
  datatype Poll = Poll(worker: WorkerId, models: set<ModelName>, pinAt: Time, now: Time, deadline: Time)
}
