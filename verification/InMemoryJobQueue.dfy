/** The in-process queue itself: methods that update its dictionaries in place. */
module InMemoryJobQueues {
  import opened Basics
  import opened JobTypes
  import opened MemoryQueueState
  import opened MemoryQueueInvariants
  import opened MemoryQueueRuns

  /** `s` has a head that model filter and pin let through; the affinity window comes later. */
  predicate Candidate(q: Queue, p: Poll, s: SessionId) {
    Inspected(q.work, p.models, s) && PinAllows(q.pins, s, p.worker, p.pinAt)
  }

  /** Ids of the unfinished jobs that pass the filter. */
  ghost function Unfinished(q: Queue, models: set<ModelName>): set<JobId> {
    set id | id in q.log.submitted && Live(q, id) && Passes(models, q.log.submitted[id])
  }

  class InMemoryJobQueue {
    var sessionQueues: map<SessionId, seq<Job>>
    var inflightBySession: map<SessionId, JobId>
    var inflight: map<JobId, Lease>
    var pendingExpired: map<JobId, Job>
    var counter: nat
    var seqOf: map<JobId, nat>
    var results: map<JobId, JobResult>
    var resultEvents: map<JobId, bool>
    var attempts: map<JobId, nat>
    var deadLetter: map<JobId, (Job, string)>
    var accumPins: map<SessionId, Pin>
    ghost var submitted: map<JobId, Job>

    ghost function State(): Queue
      reads this
    {
      Queue(Work(sessionQueues, inflightBySession, inflight, pendingExpired),
            Log(counter, seqOf, submitted),
            Fate(results, resultEvents, attempts, deadLetter),
            accumPins)
    }

    ghost predicate Valid()
      reads this
    {
      Inv(State())
    }

    constructor ()
      ensures Valid() && State() == EMPTY
    {
      sessionQueues, inflightBySession, inflight, pendingExpired := map[], map[], map[], map[];
      counter, seqOf, submitted := 0, map[], map[];
      results, resultEvents, attempts, deadLetter, accumPins := map[], map[], map[], map[], map[];
      new;
      EmptyIsGood();
    }

    method Enqueue(job: Job, now: Time)
      requires Valid() && job.id !in submitted
      modifies this
      ensures State() == MemoryQueueState.Enqueue(old(State()), job, now)
      ensures Valid()
    {
      ghost var q0 := State();
      var stamped := job.Stamped(now);
      var dq := Get(sessionQueues, stamped.session, []);
      sessionQueues := sessionQueues[stamped.session := dq + [stamped]];
      seqOf := seqOf[stamped.id := counter];
      counter := counter + 1;
      resultEvents := resultEvents[stamped.id := Get(resultEvents, stamped.id, false)];
      submitted := submitted[stamped.id := stamped];
      assert State() == MemoryQueueState.Enqueue(q0, job, now);
      EnqueueKeepsInv(q0, job, now);
    }

    /** Release the jobs whose visibility timeout has lapsed, one after the other in any order. */
    method RequeueExpired(now: Time)
      requires IndexesAgree(State().work)
      modifies this
      ensures State() == MemoryQueueState.RequeueExpired(old(State()), now)
      ensures old(Valid()) ==> Valid()
    {
      PutBackAll(set id | id in inflight && inflight[id].deadline <= now);
      if old(Valid()) {
        RequeueExpiredKeepsInv(old(State()), now);
      }
    }

    method PutBackAll(expired: set<JobId>)
      requires IndexesAgree(State().work) && expired <= inflight.Keys
      modifies this`sessionQueues, this`inflight, this`inflightBySession, this`pendingExpired
      ensures State().work == Release(old(State()).work, expired)
    {
      ghost var w0 := State().work;
      var rest := expired;
      assert expired - rest == {};
      ReleaseNone(w0);
      while rest != {}
        invariant rest <= expired
        invariant State().work == Release(w0, expired - rest)
      {
        var id :| id in rest;
        ReleaseOneMore(w0, expired, rest, id);
        PutBack(id);
        rest := rest - {id};
      }
      assert expired - rest == expired;
    }

    /** One round of that loop. */
    method PutBack(id: JobId)
      requires id in inflight
      modifies this`sessionQueues, this`inflight, this`inflightBySession, this`pendingExpired
      ensures State().work == BackInDeque(old(State()).work, id)
    {
      var session := inflight[id].session;
      inflight := Without(inflight, id);
      inflightBySession := Without(inflightBySession, session);
      var dq := Get(sessionQueues, session, []);
      var back := if id in pendingExpired then [pendingExpired[id]] else [];
      pendingExpired := Without(pendingExpired, id);
      sessionQueues := sessionQueues[session := back + dq];
    }

    /** The part of `dequeue` that runs under the lock after expired jobs are back. */
    method SelectNext(worker: WorkerId, filter: ModelFilter, pinAt: Time, now: Time, deadline: Time)
      returns (selected: Option<Job>)
      requires Valid()
      modifies this
      ensures var p := Poll(worker, filter.Normalize(), pinAt, now, deadline);
              State() == Deliver(old(State()), p) && selected == Delivered(old(State()), p)
      ensures Valid()
    {
      ghost var q0, p := State(), Poll(worker, filter.Normalize(), pinAt, now, deadline);
      var candidates := CollectCandidates(worker, filter.Normalize(), pinAt, p);
      var visible := DropWindowed(candidates, worker, now);
      if visible == [] {
        NothingVisible(q0, p, candidates);
        selected := None;
      } else {
        var job := FirstByKey(visible, worker);
        FirstIsBest(q0, p, candidates, visible, job);
        MarkInFlight(job, worker, deadline, p);
        selected := Some(job);
      }
      assert State() == Deliver(q0, p);
      DeliverKeepsInv(q0, p);
    }

    /** The sticky affinity window. */
    static method DropWindowed(candidates: seq<Job>, worker: WorkerId, now: Time) returns (visible: seq<Job>)
      ensures forall j :: j in visible <==> j in candidates && !InWindow(j, worker, now)
    {
      visible := [];
      for i := 0 to |candidates|
        invariant forall j :: j in visible <==> j in candidates[..i] && !InWindow(j, worker, now)
      {
        assert candidates[..i + 1] == candidates[..i] + [candidates[i]];
        if !InWindow(candidates[i], worker, now) {
          visible := visible + [candidates[i]];
        }
      }
      assert candidates[..|candidates|] == candidates;
    }

    /** Pop the head of the job's session and remember who has it. */
    method MarkInFlight(job: Job, worker: WorkerId, deadline: Time, ghost p: Poll)
      requires job.session in sessionQueues && sessionQueues[job.session] != [] && sessionQueues[job.session][0] == job
      requires p.worker == worker && p.deadline == deadline
      modifies this`sessionQueues, this`inflight, this`inflightBySession, this`pendingExpired
      ensures State().work == Take(old(State()).work, p, job.session)
    {
      sessionQueues := sessionQueues[job.session := sessionQueues[job.session][1..]];
      inflight := inflight[job.id := Lease(job.session, worker, deadline)];
      inflightBySession := inflightBySession[job.session := job.id];
      pendingExpired := pendingExpired[job.id := job];
    }

    /** One pass over the sessions, in any order: eligible heads, and lapsed pins dropped. */
    method CollectCandidates(worker: WorkerId, models: set<ModelName>, pinAt: Time, ghost p: Poll)
      returns (candidates: seq<Job>)
      requires Valid() && p.worker == worker && p.models == models && p.pinAt == pinAt
      modifies this`accumPins
      ensures accumPins == PrunedPins(old(State()), p)
      ensures forall j <- candidates ::
        Candidate(old(State()), p, j.session) && j == Waiting(State().work, j.session)[0]
      ensures forall s :: Candidate(old(State()), p, s) ==> Waiting(State().work, s)[0] in candidates
    {
      ghost var q0 := State();
      candidates := [];
      var todo := sessionQueues.Keys;
      while todo != {}
        invariant todo <= sessionQueues.Keys
        invariant forall s :: s in accumPins <==>
          s in q0.pins && !(s !in todo && Inspected(q0.work, models, s) && q0.pins[s].expires <= pinAt)
        invariant forall s <- accumPins :: accumPins[s] == q0.pins[s]
        invariant forall j <- candidates :: Candidate(q0, p, j.session) && j == Waiting(q0.work, j.session)[0]
        invariant forall s <- sessionQueues.Keys - todo :: Candidate(q0, p, s) ==> Waiting(q0.work, s)[0] in candidates
      {
        var session :| session in todo;
        todo := todo - {session};
        var dq := sessionQueues[session];
        if dq != [] && session !in inflightBySession && Passes(models, dq[0]) {
          WaitingIsLive(q0, session, 0);
          if session !in accumPins {
            candidates := candidates + [dq[0]];
          } else if accumPins[session].expires <= pinAt {
            accumPins := Without(accumPins, session);
            candidates := candidates + [dq[0]];
          } else if accumPins[session].owner == worker {
            candidates := candidates + [dq[0]];
          }
        }
      }
    }

    /** The front of the list once sorted by (-priority, affinity, submission number). */
    method FirstByKey(jobs: seq<Job>, worker: WorkerId) returns (first: Job)
      requires jobs != []
      ensures first in jobs
      ensures forall j <- jobs :: !KeyBefore(j, Seq(seqOf, j), first, Seq(seqOf, first), worker)
      ensures forall j <- jobs :: first.priority >= j.priority
      ensures forall j <- jobs :: j.priority == first.priority ==>
        var own := Some(worker);
        && (j.preferredWorker == own ==> first.preferredWorker == own)
        && ((j.preferredWorker == own <==> first.preferredWorker == own) ==> Seq(seqOf, first) <= Seq(seqOf, j))
    {
      first := jobs[0];
      for i := 1 to |jobs|
        invariant first in jobs[..i]
        invariant forall j <- jobs[..i] :: !KeyBefore(j, Seq(seqOf, j), first, Seq(seqOf, first), worker)
      {
        assert jobs[..i + 1] == jobs[..i] + [jobs[i]];
        if KeyBefore(jobs[i], Seq(seqOf, jobs[i]), first, Seq(seqOf, first), worker) {
          first := jobs[i];
        }
      }
      assert jobs[..|jobs|] == jobs;
    }

    /** `dequeue`: expired jobs go back first, under a lock of their own. */
    method Dequeue(worker: WorkerId, filter: ModelFilter, expireAt: Time, pinAt: Time, now: Time, leaseAt: Time,
        timeout: Time)
      returns (selected: Option<Job>)
      requires Valid()
      modifies this
      ensures Valid()
      ensures var p := Poll(worker, filter.Normalize(), pinAt, now, leaseAt + timeout);
              var q := MemoryQueueState.RequeueExpired(old(State()), expireAt);
              State() == Deliver(q, p) && selected == Delivered(q, p)
    {
      RequeueExpired(expireAt);
      selected := SelectNext(worker, filter, pinAt, now, leaseAt + timeout);
    }

    /** The pops with which both `ack` and `nack` begin. */
    method DropLease(id: JobId) returns (job: Option<Job>)
      modifies this`inflight, this`inflightBySession, this`pendingExpired
      ensures State().work == Unlease(old(State()).work, id)
      ensures id in old(inflight) ==> job == if id in old(pendingExpired) then Some(old(pendingExpired)[id]) else None
    {
      job := None;
      if id in inflight {
        var session := inflight[id].session;
        inflight := Without(inflight, id);
        inflightBySession := Without(inflightBySession, session);
        job := if id in pendingExpired then Some(pendingExpired[id]) else None;
        pendingExpired := Without(pendingExpired, id);
      }
    }

    method Ack(id: JobId, result: JobResult)
      modifies this
      ensures State() == MemoryQueueState.Ack(old(State()), id, result)
      ensures old(Valid()) ==> Valid()
    {
      var _ := DropLease(id);
      attempts := Without(attempts, id);
      results := results[id := result];
      resultEvents := resultEvents[id := true];
      if old(Valid()) {
        AckKeepsInv(old(State()), id, result);
      }
    }

    method Nack(id: JobId, error: string)
      modifies this
      ensures State() == MemoryQueueState.Nack(old(State()), id, error)
      ensures old(Valid()) ==> Valid()
    {
      if id in inflight {
        NackInFlight(id, error);
      }
      if old(Valid()) {
        NackKeepsInv(old(State()), id, error);
      }
    }

    method NackInFlight(id: JobId, error: string)
      requires id in inflight
      modifies this
      ensures State() == MemoryQueueState.Nack(old(State()), id, error)
    {
      var session := inflight[id].session;
      var job := DropLease(id);
      var tries := Tries(attempts, id) + 1;
      attempts := attempts[id := tries];
      if tries >= MAX_ATTEMPTS || job.None? {
        if job.Some? {
          deadLetter := deadLetter[id := (job.value, error)];
        }
        results := results[id := JobResult(Failed, None, Some(error), None)];
        resultEvents := resultEvents[id := true];
      } else {
        sessionQueues := sessionQueues[session := [job.value] + Get(sessionQueues, session, [])];
      }
    }

    /** The first half of `wait_for_result`: the answer if there is one, else an event to wait on. */
    method StartWaiting(id: JobId) returns (result: Option<JobResult>)
      requires Valid()
      modifies this`resultEvents
      ensures Valid()
      ensures result == if id in results then Some(results[id]) else None
      ensures State().fate == if id in results then old(State()).fate else Await(old(State()).fate, id)
    {
      if id in results {
        return Some(results[id]);
      }
      StepKeepsInv(State(), Listen(id));
      resultEvents := resultEvents[id := Get(resultEvents, id, false)];
      return None;
    }

    /** The second half, after the event was set: the look-up cannot fail. */
    method CollectResult(id: JobId) returns (result: JobResult)
      requires Valid() && id in resultEvents && resultEvents[id]
      ensures id in results && result == results[id]
    {
      result := results[id];
    }

    method SetAccumPin(session: SessionId, worker: WorkerId, now: Time, ttl: Time)
      requires Valid()
      modifies this`accumPins
      ensures Valid() && State() == SetPin(old(State()), session, worker, now + ttl)
    {
      StepKeepsInv(State(), Own(session, worker, now + ttl));
      accumPins := accumPins[session := Pin(worker, now + ttl)];
    }

    method ClearAccumPin(session: SessionId)
      requires Valid()
      modifies this`accumPins
      ensures Valid() && State() == ClearPin(old(State()), session)
    {
      StepKeepsInv(State(), Disown(session));
      accumPins := Without(accumPins, session);
    }

    /** Waiting and leased jobs that pass the filter: every unfinished job is counted once. */
    method GetQueueDepth(filter: ModelFilter) returns (depth: nat)
      requires Valid()
      ensures depth == |Unfinished(State(), filter.Normalize())|
    {
      var models := filter.Normalize();
      ghost var q := State();
      depth := 0;
      var todo := sessionQueues.Keys;
      while todo != {}
        invariant todo <= q.work.waiting.Keys
        invariant depth == |WaitingIds(q.work, models, q.work.waiting.Keys - todo)|
      {
        var session :| session in todo;
        AnotherSession(q, models, session, q.work.waiting.Keys - todo);
        assert q.work.waiting.Keys - (todo - {session}) == q.work.waiting.Keys - todo + {session};
        todo := todo - {session};
        var n := CountPassing(sessionQueues[session], models);
        depth := depth + n;
      }
      var held := inflight.Keys;
      ghost var waiting := WaitingIds(q.work, models, q.work.waiting.Keys);
      assert q.work.waiting.Keys - {} == q.work.waiting.Keys;
      while held != {}
        invariant held <= q.work.leases.Keys
        invariant depth == |waiting| + |HeldIds(q.work, models, q.work.leases.Keys - held)|
      {
        var id :| id in held;
        AnotherHeld(q.work, models, id, q.work.leases.Keys - held);
        assert q.work.leases.Keys - (held - {id}) == q.work.leases.Keys - held + {id};
        held := held - {id};
        if Passes(models, pendingExpired[id]) {
          depth := depth + 1;
        }
      }
      assert q.work.leases.Keys - {} == q.work.leases.Keys;
      AllCounted(q, models);
    }

    static method CountPassing(jobs: seq<Job>, models: set<ModelName>) returns (n: nat)
      requires forall i, k :: 0 <= i < k < |jobs| ==> jobs[i].id != jobs[k].id
      ensures n == |PassingIds(jobs, models)|
    {
      n := 0;
      for i := 0 to |jobs|
        invariant n == |PassingIds(jobs[..i], models)|
      {
        assert forall k :: 0 <= k < i ==> jobs[..i + 1][k] == jobs[..i][k];
        assert PassingIds(jobs[..i + 1], models)
          == PassingIds(jobs[..i], models) + if Passes(models, jobs[i]) then {jobs[i].id} else {};
        if Passes(models, jobs[i]) {
          n := n + 1;
        }
      }
      assert jobs[..|jobs|] == jobs;
    }
  }

  // ---------- lemmas for the loops ----------

  lemma ReleaseNone(w: Work)
    ensures Release(w, {}) == w
  {
    assert forall s <- w.waiting :: Release(w, {}).waiting[s] == w.waiting[s];
  }

  function BackInDeque(w: Work, id: JobId): Work
    requires id in w.leases
  {
    var s := w.leases[id].session;
    Work(w.waiting[s := (if id in w.held then [w.held[id]] else []) + Waiting(w, s)],
         Without(w.busy, s), Without(w.leases, id), Without(w.held, id))
  }

  /** One more job back in its deque is one more job released. */
  lemma ReleaseOneMore(w: Work, all: set<JobId>, rest: set<JobId>, id: JobId)
    requires IndexesAgree(w) && id in rest && rest <= all <= w.leases.Keys
    ensures id in Release(w, all - rest).leases
    ensures Release(w, all - (rest - {id})) == BackInDeque(Release(w, all - rest), id)
  {
    var gone := all - rest;
    var r, s, next := Release(w, gone), w.leases[id].session, Release(w, gone + {id});
    assert all - (rest - {id}) == gone + {id};
    ReleaseDeques(w, gone, id);
    assert next.busy == Without(r.busy, s);
    assert next.leases == Without(r.leases, id);
    assert next.held == Without(r.held, id);
  }

  lemma ReleaseDeques(w: Work, gone: set<JobId>, id: JobId)
    requires IndexesAgree(w) && id in w.leases && id !in gone
    ensures w.leases[id].session in w.waiting
    ensures Release(w, gone + {id}).waiting ==
            var r, s := Release(w, gone).waiting, w.leases[id].session; r[s := [w.held[id]] + r[s]]
  {
    var s := w.leases[id].session;
    HeldLine(w, id);
    forall t <- w.waiting ensures Freed(w, gone + {id}, t) <==> Freed(w, gone, t) || t == s {
    }
    assert !Freed(w, gone, s);
    assert Release(w, gone + {id}).waiting[s] == [w.held[id]] + Release(w, gone).waiting[s];
  }

  lemma NothingVisible(q: Queue, p: Poll, candidates: seq<Job>)
    requires Inv(q) && forall s :: Candidate(q, p, s) ==> Waiting(q.work, s)[0] in candidates
    requires forall j <- candidates :: InWindow(j, p.worker, p.now)
    ensures Choice(q, p).None?
  {
  }

  /** The first of the visible candidates by key is the one session the specification chooses. */
  lemma FirstIsBest(q: Queue, p: Poll, candidates: seq<Job>, visible: seq<Job>, first: Job)
    requires Inv(q) && first in visible
    requires forall j <- candidates :: Candidate(q, p, j.session) && j == Waiting(q.work, j.session)[0]
    requires forall s :: Candidate(q, p, s) ==> Waiting(q.work, s)[0] in candidates
    requires forall j :: j in visible <==> j in candidates && !InWindow(j, p.worker, p.now)
    requires forall j <- visible :: !KeyBefore(j, Seq(q.log.order, j), first, Seq(q.log.order, first), p.worker)
    ensures Choice(q, p) == Some(first.session)
    ensures first.session in q.work.waiting && Waiting(q.work, first.session) != []
      && Waiting(q.work, first.session)[0] == first
  {
    forall s | s != first.session && Eligible(q, p, s) ensures Before(q, p, first, Waiting(q.work, s)[0]) {
      assert Waiting(q.work, s)[0] in visible;
      BeforeIsTotal(q, p, first.session, s);
    }
    assert Best(q, p, first.session);
    BestIsUnique(q, p, first.session);
  }

  ghost function PassingIds(jobs: seq<Job>, models: set<ModelName>): set<JobId> {
    set i | 0 <= i < |jobs| && Passes(models, jobs[i]) :: jobs[i].id
  }

  ghost function WaitingIds(w: Work, models: set<ModelName>, sessions: set<SessionId>): set<JobId> {
    set s, i | s in sessions && 0 <= i < |Waiting(w, s)| && Passes(models, Waiting(w, s)[i]) :: Waiting(w, s)[i].id
  }

  ghost function HeldIds(w: Work, models: set<ModelName>, ids: set<JobId>): set<JobId> {
    set id | id in ids && id in w.held && Passes(models, w.held[id])
  }

  /** Deques of different sessions, and different places of one deque, hold different jobs. */
  lemma AnotherSession(q: Queue, models: set<ModelName>, s: SessionId, done: set<SessionId>)
    requires Inv(q) && s !in done
    ensures var jobs := Waiting(q.work, s);
            && (forall i, k :: 0 <= i < k < |jobs| ==> jobs[i].id != jobs[k].id)
            && |WaitingIds(q.work, models, done + {s})|
              == |WaitingIds(q.work, models, done)| + |PassingIds(jobs, models)|
  {
    var jobs := Waiting(q.work, s);
    forall i, k | 0 <= i < k < |jobs| ensures jobs[i].id != jobs[k].id {
      DistinctPlaces(q, s, i, k);
    }
    var prior, more := WaitingIds(q.work, models, done), PassingIds(jobs, models);
    assert WaitingIds(q.work, models, done + {s}) == prior + more;
    forall id <- prior ensures id !in more {
      var t, i :| t in done && 0 <= i < |Waiting(q.work, t)| && Waiting(q.work, t)[i].id == id;
      WaitingIsLive(q, t, i);
      forall k | 0 <= k < |jobs| ensures jobs[k].id != id {
        WaitingIsLive(q, s, k);
      }
    }
    assert prior !! more;
  }

  lemma DistinctPlaces(q: Queue, s: SessionId, i: nat, k: nat)
    requires Inv(q) && i < k < |Waiting(q.work, s)|
    ensures Waiting(q.work, s)[i].id != Waiting(q.work, s)[k].id
  {
    assert GoodLine(q, s);
    LaterInLine(q, s, i, k);
  }

  lemma AnotherHeld(w: Work, models: set<ModelName>, id: JobId, done: set<JobId>)
    requires id in w.held && id !in done
    ensures |HeldIds(w, models, done + {id})|
      == |HeldIds(w, models, done)| + if Passes(models, w.held[id]) then 1 else 0
  {
    assert HeldIds(w, models, done + {id})
      == HeldIds(w, models, done) + if Passes(models, w.held[id]) then {id} else {};
  }

  lemma AllCounted(q: Queue, models: set<ModelName>)
    requires Inv(q)
    ensures |Unfinished(q, models)| ==
      |WaitingIds(q.work, models, q.work.waiting.Keys)| + |HeldIds(q.work, models, q.work.leases.Keys)|
  {
    var waiting, held := WaitingIds(q.work, models, q.work.waiting.Keys), HeldIds(q.work, models, q.work.leases.Keys);
    forall id <- waiting ensures id in Unfinished(q, models) && id !in held {
      var s, i :| s in q.work.waiting.Keys && 0 <= i < |Waiting(q.work, s)| && Waiting(q.work, s)[i].id == id
        && Passes(models, Waiting(q.work, s)[i]);
      WaitingIsLive(q, s, i);
      NotInFlight(q, s, i);
    }
    forall id <- held ensures id in Unfinished(q, models) {
      LeasedIsLive(q, id);
    }
    forall id <- Unfinished(q, models) ensures id in waiting + held {
      var job, s := q.log.submitted[id], q.log.submitted[id].session;
      var i :| 0 <= i < |Line(q.work, s)| && Line(q.work, s)[i] == job;
      if i >= |InFlight(q.work, s)| {
        assert Waiting(q.work, s)[i - |InFlight(q.work, s)|] == job;
      }
    }
    assert Unfinished(q, models) == waiting + held;
    assert waiting !! held;
  }
}
