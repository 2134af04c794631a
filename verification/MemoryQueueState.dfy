/**
 * The in-memory job queue as a value: the dictionaries of `InMemoryJobQueue` and what each
 * atomic operation makes of them.
 */
module MemoryQueueState {
  import opened Basics
  import opened JobTypes

  datatype Lease = Lease(session: SessionId, worker: WorkerId, deadline: Time)

  /** Unfinished jobs. */
  datatype Work = Work(
    waiting: map<SessionId, seq<Job>>, // _session_queues
    busy: map<SessionId, JobId>,       // _inflight_by_session
    leases: map<JobId, Lease>,         // _inflight
    held: map<JobId, Job>)             // _pending_expired

  /** Submissions so far; `submitted` is a history variable that the source does not keep. */
  datatype Log = Log(
    counter: nat,                      // _counter
    order: map<JobId, nat>,            // _seq
    submitted: map<JobId, Job>)

  /** What became of jobs. */
  datatype Fate = Fate(
    results: map<JobId, JobResult>,         // _results
    signalled: map<JobId, bool>,            // _result_events
    attempts: map<JobId, nat>,              // _attempts
    deadLetters: map<JobId, (Job, string)>) // _dead_letter

  datatype Queue = Queue(work: Work, log: Log, fate: Fate, pins: map<SessionId, Pin>)

  const EMPTY := Queue(Work(map[], map[], map[], map[]), Log(0, map[], map[]), Fate(map[], map[], map[], map[]), map[])

  function Waiting(w: Work, s: SessionId): seq<Job> {
    Get(w.waiting, s, [])
  }

  /** The session's job in flight, if any, as a sequence of length at most one. */
  function InFlight(w: Work, s: SessionId): seq<Job> {
    if s in w.busy && w.busy[s] in w.held then [w.held[w.busy[s]]] else []
  }

  /** All unfinished work of a session, in the order in which it must run. */
  function Line(w: Work, s: SessionId): seq<Job> {
    InFlight(w, s) + Waiting(w, s)
  }

  /** A job's submission number, 0 for a job that has none. */
  function Seq(order: map<JobId, nat>, job: Job): int {
    if job.id in order then order[job.id] else 0
  }

  /** How often a job has failed so far. */
  function Tries(attempts: map<JobId, nat>, id: JobId): nat {
    if id in attempts then attempts[id] else 0
  }

  // ---------- enqueue ----------

  function Append(w: Work, job: Job): Work {
    w.(waiting := w.waiting[job.session := Waiting(w, job.session) + [job]])
  }

  function Record(log: Log, job: Job): Log {
    Log(log.counter + 1, log.order[job.id := log.counter], log.submitted[job.id := job])
  }

  /** `setdefault(id, Event())` */
  function Await(f: Fate, id: JobId): Fate {
    f.(signalled := f.signalled[id := Get(f.signalled, id, false)])
  }

  function Enqueue(q: Queue, job: Job, now: Time): Queue {
    var j := job.Stamped(now);
    Queue(Append(q.work, j), Record(q.log, j), Await(q.fate, j.id), q.pins)
  }

  // ---------- visibility timeout ----------

  function Expired(w: Work, now: Time): set<JobId> {
    set id | id in w.leases && w.leases[id].deadline <= now
  }

  predicate Freed(w: Work, gone: set<JobId>, s: SessionId) {
    s in w.busy && w.busy[s] in gone
  }

  /** Put the jobs `gone` back at the head of their sessions' deques. */
  function Release(w: Work, gone: set<JobId>): Work {
    Work(map s | s in w.waiting :: (if Freed(w, gone, s) then InFlight(w, s) else []) + w.waiting[s],
         map s | s in w.busy && w.busy[s] !in gone :: w.busy[s],
         w.leases - gone,
         w.held - gone)
  }

  function RequeueExpired(q: Queue, now: Time): Queue {
    q.(work := Release(q.work, Expired(q.work, now)))
  }

  // ---------- selection ----------

  /** The sessions whose pin the selection loop looks at. */
  predicate Inspected(w: Work, models: set<ModelName>, s: SessionId) {
    Waiting(w, s) != [] && s !in w.busy && Passes(models, Waiting(w, s)[0])
  }

  predicate PinAllows(pins: map<SessionId, Pin>, s: SessionId, worker: WorkerId, now: Time) {
    s in pins ==> pins[s].expires <= now || pins[s].owner == worker
  }

  /** The head of `s` may go to this worker now. */
  predicate Eligible(q: Queue, p: Poll, s: SessionId) {
    && Inspected(q.work, p.models, s)
    && PinAllows(q.pins, s, p.worker, p.pinAt)
    && !InWindow(Waiting(q.work, s)[0], p.worker, p.now)
  }

  predicate Before(q: Queue, p: Poll, a: Job, b: Job) {
    KeyBefore(a, Seq(q.log.order, a), b, Seq(q.log.order, b), p.worker)
  }

  /** `s` is eligible and its head comes before every other eligible head. */
  ghost predicate Best(q: Queue, p: Poll, s: SessionId) {
    && Eligible(q, p, s)
    && forall o :: o != s && Eligible(q, p, o) ==> Before(q, p, Waiting(q.work, s)[0], Waiting(q.work, o)[0])
  }

  ghost function Choice(q: Queue, p: Poll): (r: Option<SessionId>)
    ensures r.Some? ==> Best(q, p, r.value)
    ensures r.None? ==> forall s :: !Best(q, p, s)
  {
    if s :| Best(q, p, s) then Some(s) else None
  }

  /** Pins that the selection loop found to have lapsed are dropped on the way. */
  function PrunedPins(q: Queue, p: Poll): map<SessionId, Pin> {
    map s | s in q.pins && !(Inspected(q.work, p.models, s) && q.pins[s].expires <= p.pinAt) :: q.pins[s]
  }

  /** Move the head of `s` from its deque into flight. */
  function Take(w: Work, p: Poll, s: SessionId): Work
    requires Waiting(w, s) != []
  {
    var job := Waiting(w, s)[0];
    Work(w.waiting[s := Waiting(w, s)[1..]],
         w.busy[s := job.id],
         w.leases[job.id := Lease(s, p.worker, p.deadline)],
         w.held[job.id := job])
  }

  ghost function Deliver(q: Queue, p: Poll): Queue {
    var work := match Choice(q, p) case None => q.work case Some(s) => Take(q.work, p, s);
    q.(work := work, pins := PrunedPins(q, p))
  }

  /** The job that one selection step hands to the polling worker. */
  ghost function Delivered(q: Queue, p: Poll): Option<Job> {
    match Choice(q, p)
    case None => None
    case Some(s) => Some(Waiting(q.work, s)[0])
  }

  // ---------- completion ----------

  /** Forget that `id` is in flight, whoever holds it. */
  function Unlease(w: Work, id: JobId): Work {
    if id in w.leases then
      Work(w.waiting, Without(w.busy, w.leases[id].session), Without(w.leases, id), Without(w.held, id))
    else w
  }

  /** Put a job that was in flight back at the head of its session's deque. */
  function Return(w: Work, id: JobId): Work
    requires id in w.leases && id in w.held
  {
    var u, s := Unlease(w, id), w.leases[id].session;
    u.(waiting := u.waiting[s := [w.held[id]] + Waiting(u, s)])
  }

  /** Record a final result and wake the waiters. */
  function Finish(f: Fate, id: JobId, result: JobResult): Fate {
    f.(results := f.results[id := result], signalled := f.signalled[id := true])
  }

  function Ack(q: Queue, id: JobId, result: JobResult): Queue {
    q.(work := Unlease(q.work, id),
       fate := Finish(q.fate.(attempts := Without(q.fate.attempts, id)), id, result))
  }

  /** The third failure of a job, and any failure of a job whose payload is lost, is final. */
  predicate LastTry(q: Queue, id: JobId) {
    Tries(q.fate.attempts, id) + 1 >= MAX_ATTEMPTS || id !in q.work.held
  }

  function Nack(q: Queue, id: JobId, error: string): Queue {
    if id !in q.work.leases then q else
    var counted := q.fate.(attempts := q.fate.attempts[id := Tries(q.fate.attempts, id) + 1]);
    if LastTry(q, id) then
      var buried :=
        if id in q.work.held then counted.(deadLetters := counted.deadLetters[id := (q.work.held[id], error)])
        else counted;
      q.(work := Unlease(q.work, id), fate := Finish(buried, id, JobResult(Failed, None, Some(error), None)))
    else
      q.(work := Return(q.work, id), fate := counted)
  }

  // ---------- pins ----------

  function SetPin(q: Queue, s: SessionId, worker: WorkerId, expires: Time): Queue {
    q.(pins := q.pins[s := Pin(worker, expires)])
  }

  function ClearPin(q: Queue, s: SessionId): Queue {
    q.(pins := Without(q.pins, s))
  }
}
