/**
 * The accumulation pin across workers and queue. Gradients that a worker has accumulated live on
 * its local disk only, so until `optim_step` drains them no other worker may get the session.
 */
module PinProtocol {
  import opened Basics
  import opened JobTypes
  import opened MemoryQueueState
  import opened MemoryQueueInvariants
  import opened MemoryQueueRuns

  /** Where a worker is with the job in its hands: the pin is updated before the ack is sent. */
  datatype Phase = Executing | PinUpdated

  datatype Hand = Hand(job: Job, phase: Phase)

  /**
   * `owner` is a history variable: the worker whose ack of an accumulating job on the session was
   * not yet followed by the pin clear of an `optim_step`.
   */
  datatype System = System(queue: Queue, hands: map<WorkerId, Hand>, owner: map<SessionId, WorkerId>)

  const INITIAL := System(EMPTY, map[], map[])

  predicate Accumulates(job: Job) {
    job.operation == "forward_backward" || job.operation == "forward_custom_step2"
  }

  predicate Drains(job: Job) {
    job.operation == "optim_step"
  }

  datatype Action =
    | Submit(job: Job, at: Time)
    | Expire(at: Time)                      // the first half of some worker's dequeue
    | Take(poll: Poll)                      // its second half
    | UpdatePin(worker: WorkerId, expires: Time)
    | SendAck(worker: WorkerId, result: JobResult)
    | SendFailedAck(worker: WorkerId, result: JobResult)
    | SendNack(worker: WorkerId, error: string)
    | Crash(worker: WorkerId)

  predicate Possible(sys: System, a: Action) {
    match a
    case Submit(job, _) => job.id !in sys.queue.log.submitted
    case Take(poll) => poll.worker !in sys.hands
    case UpdatePin(w, _) => w in sys.hands && sys.hands[w].phase.Executing?
    case SendAck(w, _) => w in sys.hands && sys.hands[w].phase.PinUpdated?
    case SendFailedAck(w, _) => w in sys.hands && sys.hands[w].phase.Executing?
    case SendNack(w, _) => w in sys.hands
    case _ => true
  }

  /** No lease runs out while its worker is still at the job; no owner's pin lapses. */
  predicate Timely(sys: System, a: Action) {
    match a
    case Expire(at) => forall w <- sys.hands :: sys.hands[w].job.id !in Expired(sys.queue.work, at)
    case Take(poll) => forall s <- sys.owner :: s in sys.queue.pins ==> poll.pinAt < sys.queue.pins[s].expires
    case _ => true
  }

  /** What an action asks of the queue. */
  function EventOf(sys: System, a: Action): Option<Event>
    requires Possible(sys, a)
  {
    match a
    case Submit(job, at) => Some(Event.Submit(job, at))
    case Expire(at) => Some(Tick(at))
    case Take(poll) => Some(Serve(poll))
    case UpdatePin(w, expires) =>
      var job := sys.hands[w].job;
      if Accumulates(job) then Some(Own(job.session, w, expires))
      else if Drains(job) then Some(Disown(job.session))
      else None
    case SendAck(w, result) => Some(Complete(sys.hands[w].job.id, result))
    case SendFailedAck(w, result) => Some(Complete(sys.hands[w].job.id, result))
    case SendNack(w, error) => Some(Fail(sys.hands[w].job.id, error))
    case Crash(w) => None
  }

  ghost function HandsAfter(sys: System, a: Action): map<WorkerId, Hand>
    requires Possible(sys, a)
  {
    match a
    case Submit(_, _) => sys.hands
    case Expire(_) => sys.hands
    case Take(poll) =>
      (match Delivered(sys.queue, poll)
       case None => sys.hands
       case Some(job) => sys.hands[poll.worker := Hand(job, Executing)])
    case UpdatePin(w, _) => sys.hands[w := Hand(sys.hands[w].job, PinUpdated)]
    case _ => Without(sys.hands, a.worker)
  }

  function OwnerAfter(sys: System, a: Action): map<SessionId, WorkerId>
    requires Possible(sys, a)
  {
    if a.UpdatePin? && Drains(sys.hands[a.worker].job) then Without(sys.owner, sys.hands[a.worker].job.session)
    else if a.SendAck? && Accumulates(sys.hands[a.worker].job) then
      sys.owner[sys.hands[a.worker].job.session := a.worker]
    else sys.owner
  }

  ghost function Next(sys: System, a: Action): System {
    if !Possible(sys, a) then sys
    else
      System(
        match EventOf(sys, a) case None => sys.queue case Some(e) => Step(sys.queue, e),
        HandsAfter(sys, a),
        OwnerAfter(sys, a))
  }

  ghost function After(actions: seq<Action>): System {
    if actions == [] then INITIAL else Next(After(actions[..|actions| - 1]), actions[|actions| - 1])
  }

  ghost predicate AllTimely(actions: seq<Action>) {
    actions != [] ==>
      AllTimely(actions[..|actions| - 1]) && Timely(After(actions[..|actions| - 1]), actions[|actions| - 1])
  }

  /** What the protocol keeps, in terms of the queue's leases and pins. */
  datatype View = View(leases: map<JobId, Lease>, pins: map<SessionId, Pin>, hands: map<WorkerId, Hand>,
    owner: map<SessionId, WorkerId>)

  function ViewOf(sys: System): View {
    View(sys.queue.work.leases, sys.queue.pins, sys.hands, sys.owner)
  }

  ghost predicate OneLeaseEach(v: View) {
    forall a <- v.leases, b <- v.leases :: v.leases[a].session == v.leases[b].session ==> a == b
  }

  /** The job in a worker's hands is leased to that worker. */
  ghost predicate HandsHold(v: View) {
    forall w <- v.hands ::
      && v.hands[w].job.id in v.leases && v.leases[v.hands[w].job.id].worker == w
      && v.leases[v.hands[w].job.id].session == v.hands[w].job.session
  }

  /** An owned session is pinned to its owner, and only the owner has a job of it. */
  ghost predicate OwnersPinned(v: View) {
    && (forall s <- v.owner :: s in v.pins && v.pins[s].owner == v.owner[s])
    && (forall id <- v.leases :: v.leases[id].session in v.owner ==>
      v.leases[id].worker == v.owner[v.leases[id].session])
  }

  /** A worker that has updated the pin for an accumulating job has the pin. */
  ghost predicate PinsSet(v: View) {
    forall w <- v.hands :: v.hands[w].phase.PinUpdated? && Accumulates(v.hands[w].job) ==>
      v.hands[w].job.session in v.pins && v.pins[v.hands[w].job.session].owner == w
  }

  ghost predicate Safe(v: View) {
    OneLeaseEach(v) && HandsHold(v) && OwnersPinned(v) && PinsSet(v)
  }

  // ---------- every action keeps the protocol's invariant ----------

  lemma ExpireIsSafe(v: View, gone: set<JobId>)
    requires Safe(v) && (forall w <- v.hands :: v.hands[w].job.id !in gone)
    ensures Safe(v.(leases := v.leases - gone))
  {
  }

  lemma TakeIsSafe(v: View, w: WorkerId, job: Job, lease: Lease, pins: map<SessionId, Pin>)
    requires Safe(v) && w !in v.hands && job.id !in v.leases && lease.worker == w && lease.session == job.session
    requires forall id <- v.leases :: v.leases[id].session != job.session
    requires job.session in v.owner ==> v.owner[job.session] == w
    requires PrunesOnlyIdle(v, pins)
    ensures Safe(View(v.leases[job.id := lease], pins, v.hands[w := Hand(job, Executing)], v.owner))
  {
  }

  /** Only lapsed pins of sessions with nothing in flight disappear, and owners' pins never do. */
  ghost predicate PrunesOnlyIdle(v: View, pins: map<SessionId, Pin>) {
    forall s <- v.pins :: (s in v.owner || exists id <- v.leases :: v.leases[id].session == s) ==>
      s in pins && pins[s] == v.pins[s]
  }

  lemma PruneIsSafe(v: View, pins: map<SessionId, Pin>)
    requires Safe(v) && PrunesOnlyIdle(v, pins)
    ensures Safe(v.(pins := pins))
  {
  }

  lemma UpdatePinIsSafe(v: View, w: WorkerId, expires: Time)
    requires Safe(v) && w in v.hands
    ensures var job := v.hands[w].job;
            var hands := v.hands[w := Hand(job, PinUpdated)];
            if Accumulates(job) then Safe(v.(hands := hands, pins := v.pins[job.session := Pin(w, expires)]))
            else if Drains(job) then
              Safe(v.(hands := hands, pins := Without(v.pins, job.session), owner := Without(v.owner, job.session)))
            else Safe(v.(hands := hands))
  {
    var s := v.hands[w].job.session;
    forall x <- v.hands | x != w ensures v.hands[x].job.session != s {
      assert v.hands[x].job.id in v.leases && v.hands[w].job.id in v.leases;
    }
  }

  /** Ending a job in one's hands leaves the other workers' jobs alone. */
  lemma EndIsSafe(v: View, w: WorkerId, owner: map<SessionId, WorkerId>, r: View)
    requires Safe(v) && w in v.hands
    requires r == View(Without(v.leases, v.hands[w].job.id), v.pins, Without(v.hands, w), owner)
    requires owner == v.owner || (owner == v.owner[v.hands[w].job.session := w] && v.hands[w].phase.PinUpdated?
      && Accumulates(v.hands[w].job))
    ensures Safe(r)
  {
    OthersAreElsewhere(v, w);
  }

  lemma OthersAreElsewhere(v: View, w: WorkerId)
    requires OneLeaseEach(v) && HandsHold(v) && w in v.hands
    ensures var job := v.hands[w].job;
      && (forall x <- v.hands :: x != w ==> v.hands[x].job.id != job.id && v.hands[x].job.session != job.session)
      && job.id in v.leases && (forall id <- v.leases :: id != job.id ==> v.leases[id].session != job.session)
  {
    var job := v.hands[w].job;
    forall x <- v.hands | x != w ensures v.hands[x].job.id != job.id && v.hands[x].job.session != job.session {
      assert v.hands[x].job.id in v.leases && v.hands[w].job.id in v.leases;
    }
  }

  lemma QueueStaysGood(sys: System, a: Action)
    requires Inv(sys.queue)
    ensures Inv(Next(sys, a).queue)
  {
    if Possible(sys, a) && EventOf(sys, a).Some? {
      StepKeepsInv(sys.queue, EventOf(sys, a).value);
    }
  }

  /** Whoever is handed a job of an owned session is its owner. */
  lemma OnlyOwnerIsServed(sys: System, poll: Poll)
    requires Inv(sys.queue) && Safe(ViewOf(sys)) && Timely(sys, Take(poll)) && Delivered(sys.queue, poll).Some?
    ensures var s := Delivered(sys.queue, poll).value.session; s in sys.owner ==> sys.owner[s] == poll.worker
  {
    SelectionIsOptimal(sys.queue, poll);
    var s := Delivered(sys.queue, poll).value.session;
    assert s in ViewOf(sys).owner ==> s in ViewOf(sys).pins;
  }

  lemma TakeStaysSafe(sys: System, poll: Poll)
    requires Inv(sys.queue) && Safe(ViewOf(sys)) && Possible(sys, Take(poll)) && Timely(sys, Take(poll))
    ensures Safe(ViewOf(Next(sys, Take(poll))))
  {
    var q, v := sys.queue, ViewOf(sys);
    forall s <- v.pins | s in v.owner || exists id <- v.leases :: v.leases[id].session == s
      ensures s in PrunedPins(q, poll) && PrunedPins(q, poll)[s] == v.pins[s]
    {
    }
    SelectionIsOptimal(q, poll);
    if Delivered(q, poll).Some? {
      var job := Delivered(q, poll).value;
      OnlyOwnerIsServed(sys, poll);
      NotInFlight(q, job.session, 0);
      TakeIsSafe(v, poll.worker, job, Lease(job.session, poll.worker, poll.deadline), PrunedPins(q, poll));
    } else {
      PruneIsSafe(v, PrunedPins(q, poll));
    }
  }

  lemma ActionIsSafe(sys: System, a: Action)
    requires Inv(sys.queue) && Safe(ViewOf(sys)) && Possible(sys, a) && Timely(sys, a)
    ensures Safe(ViewOf(Next(sys, a)))
  {
    if a.Take? {
      TakeStaysSafe(sys, a.poll);
    } else if a.Expire? {
      ExpireStaysSafe(sys, a.at);
    } else if a.UpdatePin? {
      UpdatePinStaysSafe(sys, a.worker, a.expires);
    } else if a.SendAck? || a.SendFailedAck? || a.SendNack? {
      EndStaysSafe(sys, a);
    } else {
      QuietStaysSafe(sys, a);
    }
  }

  lemma QuietStaysSafe(sys: System, a: Action)
    requires Safe(ViewOf(sys)) && Possible(sys, a) && (a.Submit? || a.Crash?)
    ensures Safe(ViewOf(Next(sys, a)))
  {
  }

  lemma ExpireStaysSafe(sys: System, at: Time)
    requires Safe(ViewOf(sys)) && Timely(sys, Expire(at))
    ensures Safe(ViewOf(Next(sys, Expire(at))))
  {
    ExpireIsSafe(ViewOf(sys), Expired(sys.queue.work, at));
  }

  lemma UpdatePinStaysSafe(sys: System, w: WorkerId, expires: Time)
    requires Safe(ViewOf(sys)) && Possible(sys, UpdatePin(w, expires))
    ensures Safe(ViewOf(Next(sys, UpdatePin(w, expires))))
  {
    UpdatePinIsSafe(ViewOf(sys), w, expires);
  }

  lemma EndStaysSafe(sys: System, a: Action)
    requires Inv(sys.queue) && Safe(ViewOf(sys)) && Possible(sys, a) && (a.SendAck? || a.SendFailedAck? || a.SendNack?)
    ensures Safe(ViewOf(Next(sys, a)))
  {
    EndingView(sys, a);
    EndIsSafe(ViewOf(sys), a.worker, OwnerAfter(sys, a), ViewOf(Next(sys, a)));
  }

  lemma EndingView(sys: System, a: Action)
    requires HandsHold(ViewOf(sys)) && Possible(sys, a) && (a.SendAck? || a.SendFailedAck? || a.SendNack?)
    ensures ViewOf(Next(sys, a)) ==
            View(Without(sys.queue.work.leases, sys.hands[a.worker].job.id), sys.queue.pins,
              Without(sys.hands, a.worker), OwnerAfter(sys, a))
  {
    var id := sys.hands[a.worker].job.id;
    assert id in ViewOf(sys).leases;
    if a.SendNack? {
      assert Nack(sys.queue, id, a.error).work.leases == Without(sys.queue.work.leases, id);
    } else {
      assert Ack(sys.queue, id, a.result).work.leases == Without(sys.queue.work.leases, id);
    }
  }

  lemma {:induction false} ReachableIsSafe(actions: seq<Action>)
    requires AllTimely(actions)
    ensures Inv(After(actions).queue) && Safe(ViewOf(After(actions)))
  {
    if actions == [] {
      EmptyIsGood();
    } else {
      var sys, a := After(actions[..|actions| - 1]), actions[|actions| - 1];
      ReachableIsSafe(actions[..|actions| - 1]);
      QueueStaysGood(sys, a);
      if Possible(sys, a) {
        ActionIsSafe(sys, a);
      }
    }
  }

  /**
   * In every run of any number of workers, crashes included, in which no lease runs out under a
   * working worker and no owner's pin lapses: from the ack of an accumulating job of a session
   * by worker `w` until the pin clear of an `optim_step`, every delivered job of the session goes
   * to `w`.
   */
  lemma SessionStaysWithItsGradients(actions: seq<Action>, poll: Poll)
    requires AllTimely(actions) && Timely(After(actions), Take(poll)) && Delivered(After(actions).queue, poll).Some?
    ensures var sys := After(actions);
            var s := Delivered(sys.queue, poll).value.session;
            s in sys.owner ==> poll.worker == sys.owner[s]
  {
    ReachableIsSafe(actions);
    OnlyOwnerIsServed(After(actions), poll);
  }

  /** The k-th action is the ack of a job of `s` that leaves gradients on the worker `w`. */
  ghost predicate LeavesGradients(actions: seq<Action>, k: nat, s: SessionId, w: WorkerId)
    requires k < |actions|
  {
    var hands := After(actions[..k]).hands;
    && actions[k].SendAck? && actions[k].worker == w && w in hands && hands[w].phase == PinUpdated
    && hands[w].job.session == s
    && (hands[w].job.operation == "forward_backward" || hands[w].job.operation == "forward_custom_step2")
  }

  /** The k-th action clears the pin of `s` for an optimizer step. */
  ghost predicate ClearsPin(actions: seq<Action>, k: nat, s: SessionId)
    requires k < |actions|
  {
    var hands := After(actions[..k]).hands;
    && actions[k].UpdatePin? && actions[k].worker in hands
    && hands[actions[k].worker].job.session == s && hands[actions[k].worker].job.operation == "optim_step"
  }

  lemma OwnerStays(sys: System, a: Action, s: SessionId)
    requires Inv(sys.queue) && Safe(ViewOf(sys)) && s in sys.owner
    requires a.UpdatePin? && a.worker in sys.hands && sys.hands[a.worker].job.session == s ==>
      sys.hands[a.worker].job.operation != "optim_step"
    ensures var v := Next(sys, a); s in v.owner && v.owner[s] == sys.owner[s]
  {
    if Possible(sys, a) && a.SendAck? {
      var id := sys.hands[a.worker].job.id;
      assert id in ViewOf(sys).leases && a.worker in ViewOf(sys).hands;
    }
  }

  lemma {:induction false} OwnerUntilCleared(actions: seq<Action>, i: nat, s: SessionId, w: WorkerId)
    requires AllTimely(actions) && i < |actions| && LeavesGradients(actions, i, s, w)
    requires forall k :: i < k < |actions| ==> !ClearsPin(actions, k, s)
    ensures s in After(actions).owner && After(actions).owner[s] == w
  {
    var n := |actions| - 1;
    var front := actions[..n];
    ReachableIsSafe(front);
    if i < n {
      assert forall k :: 0 <= k <= n ==> front[..k] == actions[..k];
      assert forall k :: i < k < n ==> (ClearsPin(front, k, s) <==> ClearsPin(actions, k, s));
      OwnerUntilCleared(front, i, s, w);
      assert !ClearsPin(actions, n, s);
      OwnerStays(After(front), actions[n], s);
    } else {
      AckOwns(After(front), actions[n], s, w);
    }
  }

  lemma AckOwns(sys: System, a: Action, s: SessionId, w: WorkerId)
    requires a.SendAck? && a.worker == w && w in sys.hands && sys.hands[w].phase == PinUpdated
    requires sys.hands[w].job.session == s
    requires sys.hands[w].job.operation == "forward_backward" || sys.hands[w].job.operation == "forward_custom_step2"
    ensures var v := Next(sys, a); s in v.owner && v.owner[s] == w
  {
  }

  /** The same in terms of the actions alone: gradients left and not cleared since decide who is served. */
  lemma GradientsStayPut(actions: seq<Action>, i: nat, s: SessionId, w: WorkerId, poll: Poll)
    requires AllTimely(actions) && i < |actions| && LeavesGradients(actions, i, s, w)
    requires forall k :: i < k < |actions| ==> !ClearsPin(actions, k, s)
    requires Timely(After(actions), Take(poll)) && Delivered(After(actions).queue, poll).Some?
    ensures Delivered(After(actions).queue, poll).value.session == s ==> poll.worker == w
  {
    OwnerUntilCleared(actions, i, s, w);
    SessionStaysWithItsGradients(actions, poll);
  }

  /** A pass pins the session to its worker, an optimizer step unpins it, and other jobs leave the pins alone. */
  lemma PinFollowsOperation(sys: System, w: WorkerId, expires: Time)
    requires w in sys.hands && sys.hands[w].phase.Executing?
    ensures var s, pins, v := sys.hands[w].job.session, sys.queue.pins, Next(sys, UpdatePin(w, expires));
      && v.hands == sys.hands[w := Hand(sys.hands[w].job, PinUpdated)] && v.queue.work == sys.queue.work
      && v.queue.pins == match sys.hands[w].job.operation
                         case "forward_backward" => pins[s := Pin(w, expires)]
                         case "forward_custom_step2" => pins[s := Pin(w, expires)]
                         case "optim_step" => pins - {s}
                         case _ => pins
  {
  }

  /** A worker may fail at any point: what it reports reaches the queue, and a crash reports nothing. */
  lemma WorkersMayFail(sys: System, w: WorkerId, result: JobResult, error: string, at: Time)
    ensures Next(sys, Crash(w)) == sys.(hands := sys.hands - {w})
    ensures Next(sys, Expire(at)) == sys.(queue := RequeueExpired(sys.queue, at))
    ensures w in sys.hands ==>
      Next(sys, SendNack(w, error))
        == sys.(hands := sys.hands - {w}, queue := Nack(sys.queue, sys.hands[w].job.id, error))
    ensures w in sys.hands ==>
      Next(sys, SendFailedAck(w, result))
        == if sys.hands[w].phase.PinUpdated? then sys
           else sys.(hands := sys.hands - {w}, queue := Ack(sys.queue, sys.hands[w].job.id, result))
  {
  }

  /**
   * Why the pin is set before the ack: between an ack and a pin set after it, the session's next
   * job may go to any worker that asks.
   */
  lemma AckFirstWouldLeak(q: Queue, id: JobId, result: JobResult, poll: Poll)
    requires Inv(q) && id in q.work.leases && q.work.leases[id].session !in q.pins
    requires var w := Waiting(q.work, q.work.leases[id].session);
             w != [] && Passes(poll.models, w[0]) && !InWindow(w[0], poll.worker, poll.now)
    ensures Eligible(Ack(q, id, result), poll, q.work.leases[id].session)
    ensures !Eligible(q, poll, q.work.leases[id].session)
  {
    HeldLine(q.work, id);
  }
}
