/** What every operation of the in-memory queue keeps, whatever order operations come in. */
module MemoryQueueInvariants {
  import opened Basics
  import opened JobTypes
  import opened MemoryQueueState

  /** The three in-flight tables describe one set of jobs, at most one for each session. */
  ghost predicate IndexesAgree(w: Work) {
    && w.leases.Keys == w.held.Keys
    && (forall id <- w.leases :: w.held[id].id == id && w.held[id].session == w.leases[id].session)
    && (forall id <- w.leases :: w.leases[id].session in w.busy && w.busy[w.leases[id].session] == id)
    && (forall s <- w.busy :: w.busy[s] in w.leases && w.leases[w.busy[s]].session == s)
    && w.busy.Keys <= w.waiting.Keys
  }

  /** Submission numbers are below the counter and never shared. */
  ghost predicate Numbered(log: Log) {
    && log.order.Keys == log.submitted.Keys
    && (forall id <- log.order :: log.order[id] < log.counter)
    && (forall a <- log.order, b <- log.order :: log.order[a] == log.order[b] ==> a == b)
    && (forall id <- log.submitted :: log.submitted[id].id == id)
  }

  ghost predicate Increasing(order: map<JobId, nat>, line: seq<Job>) {
    forall i, k :: 0 <= i < k < |line| ==> Seq(order, line[i]) < Seq(order, line[k])
  }

  /** Every job of the line was submitted to `s`. */
  ghost predicate OwnJobs(submitted: map<JobId, Job>, line: seq<Job>, s: SessionId) {
    forall j <- line :: j.id in submitted && submitted[j.id] == j && j.session == s
  }

  /** Every job of the line can still be retried. */
  ghost predicate Retriable(f: Fate, line: seq<Job>) {
    forall j <- line :: Tries(f.attempts, j.id) < MAX_ATTEMPTS && j.id !in f.deadLetters
  }

  ghost predicate GoodLine(q: Queue, s: SessionId) {
    && Increasing(q.log.order, Line(q.work, s))
    && OwnJobs(q.log.submitted, Line(q.work, s), s)
    && Retriable(q.fate, Line(q.work, s))
  }

  ghost predicate Live(q: Queue, id: JobId) {
    id in q.log.submitted && q.log.submitted[id] in Line(q.work, q.log.submitted[id].session)
  }

  /** No job is lost: it is unfinished in its own session's line, or it has a result. */
  ghost predicate Accounted(q: Queue) {
    && (forall id <- q.log.submitted :: Live(q, id) || id in q.fate.results)
    && (forall id <- q.fate.deadLetters :: id in q.fate.results && id in q.log.submitted)
    && (forall id <- q.fate.signalled :: q.fate.signalled[id] ==> id in q.fate.results)
    && q.fate.attempts.Keys <= q.log.submitted.Keys
  }

  ghost predicate Inv(q: Queue) {
    && IndexesAgree(q.work)
    && Numbered(q.log)
    && (forall s :: GoodLine(q, s))
    && Accounted(q)
  }

  // ---------- consequences ----------

  /** A job in flight is the head of its session's line. */
  lemma HeldLine(w: Work, id: JobId)
    requires IndexesAgree(w) && id in w.leases
    ensures InFlight(w, w.leases[id].session) == [w.held[id]]
    ensures Line(w, w.leases[id].session) == [w.held[id]] + Waiting(w, w.leases[id].session)
  {
  }

  lemma LeasedIsLive(q: Queue, id: JobId)
    requires IndexesAgree(q.work) && (forall t :: GoodLine(q, t)) && id in q.work.leases
    ensures Live(q, id) && q.log.submitted[id] == q.work.held[id]
    ensures Tries(q.fate.attempts, id) < MAX_ATTEMPTS && id !in q.fate.deadLetters
  {
    var t := q.work.leases[id].session;
    HeldLine(q.work, id);
    assert GoodLine(q, t) && Line(q.work, t)[0] in Line(q.work, t);
  }

  lemma WaitingIsLive(q: Queue, s: SessionId, i: nat)
    requires (forall t :: GoodLine(q, t)) && i < |Waiting(q.work, s)|
    ensures var j := Waiting(q.work, s)[i];
            j.id in q.log.submitted && q.log.submitted[j.id] == j && j.session == s && j in Line(q.work, s)
              && Live(q, j.id)
  {
    assert GoodLine(q, s);
    assert Line(q.work, s)[|InFlight(q.work, s)| + i] == Waiting(q.work, s)[i];
  }

  /** A waiting job is not also in flight. */
  lemma NotInFlight(q: Queue, s: SessionId, i: nat)
    requires IndexesAgree(q.work) && (forall t :: GoodLine(q, t))
    requires i < |Waiting(q.work, s)|
    ensures Waiting(q.work, s)[i].id !in q.work.leases
  {
    var job, line, k := Waiting(q.work, s)[i], Line(q.work, s), |InFlight(q.work, s)| + i;
    WaitingIsLive(q, s, i);
    assert GoodLine(q, s) && line[k] == job;
    assert k > 0 ==> Seq(q.log.order, line[0]) < Seq(q.log.order, line[k]);
    if job.id in q.work.leases {
      LeasedIsLive(q, job.id);
      HeldLine(q.work, job.id);
    }
  }

  // ---------- what one operation does to a line ----------

  lemma LaterInLine(q: Queue, s: SessionId, i: nat, k: nat)
    requires GoodLine(q, s) && i < k < |Waiting(q.work, s)|
    ensures Seq(q.log.order, Waiting(q.work, s)[i]) < Seq(q.log.order, Waiting(q.work, s)[k])
  {
    var line, n := Line(q.work, s), |InFlight(q.work, s)|;
    assert line[n + i] == Waiting(q.work, s)[i] && line[n + k] == Waiting(q.work, s)[k];
  }

  lemma AppendLine(w: Work, job: Job, s: SessionId)
    ensures Line(Append(w, job), s) == if s == job.session then Line(w, s) + [job] else Line(w, s)
  {
    assert InFlight(Append(w, job), s) == InFlight(w, s);
  }

  /** A visibility timeout never reorders a session: the job goes back exactly where it was. */
  lemma ReleaseLine(w: Work, gone: set<JobId>, s: SessionId)
    requires IndexesAgree(w) && gone <= w.leases.Keys
    ensures Line(Release(w, gone), s) == Line(w, s)
    ensures IndexesAgree(Release(w, gone))
  {
    var r := Release(w, gone);
    assert forall id :: id in r.leases <==> id in w.leases && id !in gone;
    assert forall id :: id in r.held <==> id in w.held && id !in gone;
    assert InFlight(r, s) == if Freed(w, gone, s) then [] else InFlight(w, s);
  }

  /** The session `t` has a waiting job and nothing in flight. */
  predicate Idle(w: Work, t: SessionId) {
    Waiting(w, t) != [] && t !in w.busy
  }

  lemma TakeLine(q: Queue, p: Poll, t: SessionId, s: SessionId)
    requires IndexesAgree(q.work) && (forall u :: GoodLine(q, u)) && Idle(q.work, t)
    ensures Line(Take(q.work, p, t), s) == Line(q.work, s)
    ensures IndexesAgree(Take(q.work, p, t))
  {
    var w, r := q.work, Take(q.work, p, t);
    NotInFlight(q, t, 0);
    WaitingIsLive(q, t, 0);
    if s == t {
      assert Waiting(w, t) == [Waiting(w, t)[0]] + Waiting(w, t)[1..];
    } else {
      assert InFlight(r, s) == InFlight(w, s);
    }
  }

  lemma UnleaseLine(w: Work, id: JobId, s: SessionId)
    requires IndexesAgree(w) && id in w.leases
    ensures Line(Unlease(w, id), s) == if s == w.leases[id].session then Line(w, s)[1..] else Line(w, s)
    ensures IndexesAgree(Unlease(w, id))
  {
    HeldLine(w, id);
    assert InFlight(Unlease(w, id), s) == if s == w.leases[id].session then [] else InFlight(w, s);
  }

  /** A retried job keeps its place. */
  lemma ReturnLine(w: Work, id: JobId, s: SessionId)
    requires IndexesAgree(w) && id in w.leases
    ensures Line(Return(w, id), s) == Line(w, s)
    ensures IndexesAgree(Return(w, id))
  {
    HeldLine(w, id);
    UnleaseLine(w, id, s);
    assert InFlight(Return(w, id), s) == InFlight(Unlease(w, id), s);
  }

  // ---------- every operation keeps the invariant ----------

  lemma EmptyIsGood()
    ensures Inv(EMPTY)
  {
    assert forall s :: Line(EMPTY.work, s) == [];
  }

  lemma EnqueueKeepsInv(q: Queue, job: Job, now: Time)
    requires Inv(q) && job.id !in q.log.submitted
    ensures Inv(Enqueue(q, job, now))
  {
    var j, r := job.Stamped(now), Enqueue(q, job, now);
    forall s ensures GoodLine(r, s) {
      AppendLine(q.work, j, s);
      assert GoodLine(q, s);
      AppendedIsGood(q, j, s);
    }
    forall id <- r.log.submitted ensures Live(r, id) || id in r.fate.results {
      AppendLine(q.work, j, r.log.submitted[id].session);
      assert id != job.id ==> Live(q, id) || id in q.fate.results;
    }
  }

  lemma AppendedIsGood(q: Queue, job: Job, s: SessionId)
    requires Numbered(q.log) && GoodLine(q, s) && job.id !in q.log.submitted
    requires job.id !in q.fate.deadLetters && job.id !in q.fate.attempts
    ensures var line, log := Line(q.work, s), Record(q.log, job);
            && Increasing(log.order, line + [job]) && Increasing(log.order, line)
            && (forall j <- line :: j.id in log.submitted && log.submitted[j.id] == j)
            && Retriable(q.fate, line + [job])
  {
    var line, log := Line(q.work, s), Record(q.log, job);
    assert forall i :: 0 <= i < |line| ==>
      line[i] in line && Seq(log.order, line[i]) == Seq(q.log.order, line[i]) < q.log.counter;
  }

  /** Moving jobs between the tables without changing any line changes nothing that matters. */
  lemma SameLines(q: Queue, r: Queue)
    requires Inv(q) && IndexesAgree(r.work) && (forall s :: Line(r.work, s) == Line(q.work, s))
    requires r.log == q.log && r.fate.results == q.fate.results && r.fate.deadLetters == q.fate.deadLetters
    requires forall id <- r.fate.signalled :: r.fate.signalled[id] ==> id in r.fate.results
    requires forall id <- r.fate.attempts ::
      r.fate.attempts[id] < MAX_ATTEMPTS || r.fate.attempts[id] == Tries(q.fate.attempts, id)
    requires r.fate.attempts.Keys <= q.log.submitted.Keys
    ensures Inv(r)
  {
    forall s ensures GoodLine(r, s) {
      assert GoodLine(q, s);
      forall j <- Line(r.work, s) ensures Tries(r.fate.attempts, j.id) < MAX_ATTEMPTS {
        assert Tries(q.fate.attempts, j.id) < MAX_ATTEMPTS;
      }
    }
    forall id <- q.log.submitted ensures Live(q, id) ==> Live(r, id) {
      assert Line(r.work, q.log.submitted[id].session) == Line(q.work, q.log.submitted[id].session);
    }
  }

  lemma RequeueExpiredKeepsInv(q: Queue, now: Time)
    requires Inv(q)
    ensures Inv(RequeueExpired(q, now))
  {
    forall s { ReleaseLine(q.work, Expired(q.work, now), s); }
    AttemptsAreFew(q);
    SameLines(q, RequeueExpired(q, now));
  }

  lemma AttemptsAreFew(q: Queue)
    ensures forall id <- q.fate.attempts :: q.fate.attempts[id] == Tries(q.fate.attempts, id)
  {
  }

  lemma DeliverKeepsInv(q: Queue, p: Poll)
    requires Inv(q)
    ensures Inv(Deliver(q, p))
  {
    if Choice(q, p).Some? {
      var t := Choice(q, p).value;
      TakeLine(q, p, t, t);
      forall s ensures Line(Take(q.work, p, t), s) == Line(q.work, s) { TakeLine(q, p, t, s); }
    }
    AttemptsAreFew(q);
    SameLines(q, Deliver(q, p));
  }

  /** Taking `id` out of flight removes it from its line and keeps everything else unfinished. */
  lemma UnleaseKeeps(q: Queue, id: JobId)
    requires Inv(q) && id in q.work.leases
    ensures var r := q.(work := Unlease(q.work, id));
            && IndexesAgree(r.work)
            && (forall s :: GoodLine(r, s))
            && (forall s, j | j in Line(r.work, s) :: j.id != id)
            && !Live(r, id)
            && (forall other <- q.log.submitted :: other != id ==> Live(r, other) == Live(q, other))
  {
    var r, t := q.(work := Unlease(q.work, id)), q.work.leases[id].session;
    LeasedIsLive(q, id);
    UnleaseLine(q.work, id, t);
    forall s ensures GoodLine(r, s) && forall j <- Line(r.work, s) :: j.id != id {
      UnleaseLine(q.work, id, s);
      assert GoodLine(q, s) && GoodLine(q, t);
      HeldLine(q.work, id);
      TailIsGood(q, Line(q.work, s), s);
    }
    forall other <- q.log.submitted | other != id ensures Live(r, other) == Live(q, other) {
      UnleaseLine(q.work, id, q.log.submitted[other].session);
      HeldLine(q.work, id);
    }
  }

  lemma TailIsGood(q: Queue, line: seq<Job>, s: SessionId)
    requires Increasing(q.log.order, line) && OwnJobs(q.log.submitted, line, s) && Retriable(q.fate, line)
    ensures line != [] ==>
      && Increasing(q.log.order, line[1..]) && OwnJobs(q.log.submitted, line[1..], s) && Retriable(q.fate, line[1..])
      && forall j <- line[1..] :: j.id != line[0].id
  {
    if line != [] {
      assert forall i :: 0 <= i < |line| - 1 ==>
        line[1..][i] == line[i + 1] && Seq(q.log.order, line[0]) < Seq(q.log.order, line[1..][i]);
      assert forall j <- line[1..] :: j in line;
    }
  }

  /** Once `id` is on no line, what is recorded about it may change freely. */
  lemma BuryKeepsInv(q: Queue, id: JobId, r: Queue)
    requires Inv(q) && id in q.work.leases && r.work == Unlease(q.work, id) && r.log == q.log
    requires id in r.fate.results && q.fate.results.Keys <= r.fate.results.Keys
    requires r.fate.deadLetters.Keys <= q.fate.deadLetters.Keys + {id}
    requires r.fate.attempts.Keys <= q.fate.attempts.Keys + {id}
    requires forall other :: other != id ==> Tries(r.fate.attempts, other) == Tries(q.fate.attempts, other)
    requires forall e <- r.fate.signalled :: r.fate.signalled[e] ==>
      e == id || (e in q.fate.signalled && q.fate.signalled[e])
    ensures Inv(r)
  {
    var u := q.(work := r.work);
    UnleaseKeeps(q, id);
    LeasedIsLive(q, id);
    forall s ensures GoodLine(r, s) {
      assert GoodLine(u, s);
      forall j <- Line(r.work, s) ensures Tries(r.fate.attempts, j.id) < MAX_ATTEMPTS && j.id !in r.fate.deadLetters {
        assert Tries(u.fate.attempts, j.id) < MAX_ATTEMPTS && j.id !in u.fate.deadLetters;
      }
    }
    forall other <- q.log.submitted ensures Live(r, other) || other in r.fate.results {
      assert Live(r, other) == Live(u, other);
    }
  }

  lemma AckKeepsInv(q: Queue, id: JobId, result: JobResult)
    requires Inv(q)
    ensures Inv(Ack(q, id, result))
  {
    var r := Ack(q, id, result);
    if id in q.work.leases {
      BuryKeepsInv(q, id, r);
    } else {
      LateAckKeepsInv(q, id, result);
    }
  }

  /** An ack that comes after the lease lapsed records a result and leaves the lines alone. */
  lemma LateAckKeepsInv(q: Queue, id: JobId, result: JobResult)
    requires Inv(q) && id !in q.work.leases
    ensures Inv(Ack(q, id, result))
  {
    var r := Ack(q, id, result);
    forall s ensures GoodLine(r, s) {
      assert GoodLine(q, s);
    }
    forall other <- q.log.submitted ensures Live(r, other) == Live(q, other) {
    }
  }

  lemma NackKeepsInv(q: Queue, id: JobId, error: string)
    requires Inv(q)
    ensures Inv(Nack(q, id, error))
  {
    if id in q.work.leases {
      var r := Nack(q, id, error);
      LeasedIsLive(q, id);
      if LastTry(q, id) {
        BuryKeepsInv(q, id, r);
      } else {
        forall s { ReturnLine(q.work, id, s); }
        SameLines(q, r);
      }
    }
  }
}
