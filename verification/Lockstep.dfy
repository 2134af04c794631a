/** The command protocol of a worker group: rank 0 leads, the other ranks follow its broadcasts. */
module Lockstep {
  import opened Basics
  import opened JobTypes

  datatype Message = Idle | Run(job: JobId) | Shutdown

  /** An execution returns a result or raises. */
  datatype Outcome = Returned(status: Status) | Raised(error: string)

  /**
   * The collectives as each rank issues them; the k-th calls of all ranks belong together. A
   * gather follows an execution; of its outcome only the error travels.
   */
  datatype Call = Send(msg: Message) | Receive | Gather(outcome: Outcome)

  datatype Phase = Top | Running(job: JobId) | Waiting | Stopped

  /** `calls` counts the pending one, `completed` does not. */
  datatype Rank = Rank(phase: Phase, calls: seq<Call>, completed: nat, ran: seq<JobId>)

  datatype Verdict = Nacked(error: string) | AckedCompleted | AckedFailed | NothingSaid

  /** What rank 0 told the queue about a job, and the index of the gather it was based on. */
  datatype Settlement = Settlement(job: JobId, at: nat, verdict: Verdict)

  datatype Group = Group(ranks: seq<Rank>, processed: nat, settled: seq<Settlement>, rejected: seq<JobId>)

  /** What `dequeue` brings: nothing, an exception, a job for a wider group, or a job. */
  datatype Poll = Nothing | Broken | TooWide(job: JobId) | Found(job: JobId)

  datatype Event = Lead(poll: Poll) | Execute(rank: nat, outcome: Outcome) | Complete(rank: nat)

  // ---------- transitions ----------

  predicate IsGather(c: Call) {
    c.Gather?
  }

  /** The k-th call is complete for a rank: the message is out, or every rank has reported. */
  predicate Met(g: Group, r: nat, k: nat)
    requires r < |g.ranks| && k < |g.ranks[r].calls|
  {
    if g.ranks[r].calls[k].Gather? then
      forall q :: 0 <= q < |g.ranks| ==> k < |g.ranks[q].calls| && IsGather(g.ranks[q].calls[k])
    else k < |g.ranks[0].calls| && g.ranks[0].calls[k].Send?
  }

  /** A formatted exception is never the empty string. */
  predicate Enabled(g: Group, e: Event) {
    match e
    case Lead(_) => g.ranks != [] && g.ranks[0].phase.Top?
    case Execute(r, outcome) => r < |g.ranks| && g.ranks[r].phase.Running? && (outcome.Raised? ==> outcome.error != "")
    case Complete(r) =>
      r < |g.ranks| && g.ranks[r].phase.Waiting? && g.ranks[r].completed < |g.ranks[r].calls|
        && Met(g, r, g.ranks[r].completed)
  }

  /** Where a message takes the rank that has it. */
  function Follow(rank: Rank, msg: Message): Rank {
    match msg
    case Run(job) => rank.(phase := Running(job))
    case Shutdown => rank.(phase := Stopped)
    case Idle => rank
  }

  /** Rank 0 broadcasts and goes on without waiting for the others. */
  function Sent(rank: Rank, msg: Message): Rank {
    Follow(Rank(Top, rank.calls + [Send(msg)], rank.completed + 1, rank.ran), msg)
  }

  function Announce(g: Group, max: nat, poll: Poll): Message {
    if g.processed >= max then Shutdown else if poll.Found? then Run(poll.job) else Idle
  }

  function Leading(g: Group, max: nat, poll: Poll): Group
    requires Enabled(g, Lead(poll))
  {
    g.(ranks := g.ranks[0 := Sent(g.ranks[0], Announce(g, max, poll))],
       rejected := if g.processed < max && poll.TooWide? then g.rejected + [poll.job] else g.rejected)
  }

  function Report(outcome: Outcome): Option<string> {
    if outcome.Raised? then Some(outcome.error) else None
  }

  function Executed(g: Group, r: nat, outcome: Outcome): Group
    requires Enabled(g, Execute(r, outcome))
  {
    var rank := g.ranks[r];
    g.(ranks := g.ranks[r := Rank(Waiting, rank.calls + [Gather(outcome)], rank.completed,
      rank.ran + [rank.phase.job])])
  }

  function ErrorOf(c: Call): Option<string> {
    if c.Gather? then Report(c.outcome) else None
  }

  /** The reports gathered by the k-th call, in rank order. */
  function Gathered(g: Group, k: nat): seq<Option<string>>
    requires forall q :: 0 <= q < |g.ranks| ==> k < |g.ranks[q].calls|
  {
    seq(|g.ranks|, q requires 0 <= q < |g.ranks| => ErrorOf(g.ranks[q].calls[k]))
  }

  function FirstError(errors: seq<Option<string>>): Option<string> {
    if errors == [] then None
    else if errors[0].Some? && errors[0].value != "" then errors[0]
    else FirstError(errors[1..])
  }

  /** What rank 0 makes of the gathered errors and its own result. */
  function Judge(errors: seq<Option<string>>, own: Outcome): Verdict {
    var error := FirstError(errors);
    if error.Some? then Nacked(error.value)
    else if own.Raised? then NothingSaid
    else if own.status == Completed then AckedCompleted
    else AckedFailed
  }

  function Completing(g: Group, r: nat): Group
    requires Enabled(g, Complete(r))
  {
    var rank := g.ranks[r];
    var k := rank.completed;
    if rank.calls[k].Gather? then
      if r == 0 then
        var job := if k > 0 && rank.calls[k - 1].Send?
          && rank.calls[k - 1].msg.Run? then rank.calls[k - 1].msg.job else "";
        g.(ranks := g.ranks[0 := rank.(phase := Top, completed := k + 1)],
           processed := g.processed + 1,
           settled := g.settled + [Settlement(job, k, Judge(Gathered(g, k), rank.calls[k].outcome))])
      else g.(ranks := g.ranks[r := rank.(calls := rank.calls + [Receive], completed := k + 1)])
    else
      var msg := g.ranks[0].calls[k].msg;
      var heard := Follow(rank.(completed := k + 1), msg);
      g.(ranks := g.ranks[r := if msg.Idle? then heard.(calls := rank.calls + [Receive]) else heard])
  }

  function Step(g: Group, max: nat, e: Event): Group
    requires Enabled(g, e)
  {
    match e
    case Lead(poll) => Leading(g, max, poll)
    case Execute(r, outcome) => Executed(g, r, outcome)
    case Complete(r) => Completing(g, r)
  }

  /** Followers start by waiting for the first broadcast. */
  function Start(n: nat): Group
    requires n >= 1
  {
    Group(seq(n, r => if r == 0 then Rank(Top, [], 0, []) else Rank(Waiting, [Receive], 0, [])), 0, [], [])
  }

  /** Any sequence of events; what is not enabled does not happen. */
  function After(n: nat, max: nat, es: seq<Event>): Group
    requires n >= 1
  {
    if es == [] then Start(n)
    else
      var g, e := After(n, max, es[..|es| - 1]), es[|es| - 1];
      if Enabled(g, e) then Step(g, max, e) else g
  }

  // ---------- the script ----------

  predicate AwaitsGather(calls: seq<Call>, k: nat)
    requires k <= |calls|
  {
    k > 0 && calls[k - 1].Send? && calls[k - 1].msg.Run?
  }

  predicate AfterShutdown(calls: seq<Call>, k: nat)
    requires k <= |calls|
  {
    k > 0 && calls[k - 1] == Send(Shutdown)
  }

  /** Every job is followed by its gather, nothing by a second one, and nothing at all by a shutdown. */
  predicate ScriptAt(calls: seq<Call>, k: nat)
    requires k < |calls|
  {
    && !calls[k].Receive?
    && (IsGather(calls[k]) <==> AwaitsGather(calls, k))
    && !AfterShutdown(calls, k)
  }

  ghost predicate Script(calls: seq<Call>) {
    forall k: nat :: k < |calls| ==> ScriptAt(calls, k)
  }

  /** What holds at one place does not depend on what is said later. */
  lemma PlacesStay(calls: seq<Call>, c: Call, k: nat)
    requires k <= |calls|
    ensures AwaitsGather(calls + [c], k) == AwaitsGather(calls, k)
      && AfterShutdown(calls + [c], k) == AfterShutdown(calls, k)
    ensures k < |calls| ==> ScriptAt(calls + [c], k) == ScriptAt(calls, k)
  {
  }

  /** Rank 0 stands at the end of its own script. */
  predicate LeaderPlace(rank: Rank) {
    match rank.phase
    case Waiting => rank.completed + 1 == |rank.calls| && IsGather(rank.calls[rank.completed])
    case Top => rank.completed == |rank.calls| && !AwaitsGather(rank.calls, |rank.calls|)
      && !AfterShutdown(rank.calls, |rank.calls|)
    case Running(job) => rank.completed == |rank.calls| > 0 && rank.calls[|rank.calls| - 1] == Send(Run(job))
    case Stopped => rank.completed == |rank.calls| && AfterShutdown(rank.calls, |rank.calls|)
  }

  /** A follower's phase and pending call are what the leader's script says at its place. */
  predicate FollowerPlace(lead: seq<Call>, rank: Rank) {
    && rank.completed <= |lead|
    && if AwaitsGather(lead, rank.completed) then
         || (rank.phase == Running(lead[rank.completed - 1].msg.job) && rank.completed == |rank.calls|)
         || (rank.phase.Waiting? && rank.completed + 1 == |rank.calls| && IsGather(rank.calls[rank.completed]))
       else if AfterShutdown(lead, rank.completed) then
         rank.phase.Stopped? && rank.completed == |rank.calls|
       else
         rank.phase.Waiting? && rank.completed + 1 == |rank.calls| && rank.calls[rank.completed].Receive?
  }

  /** Calls with the same number are of the same kind. */
  ghost predicate SameKinds(lead: seq<Call>, calls: seq<Call>) {
    && |calls| <= |lead| + 1
    && forall k :: 0 <= k < |calls| && k < |lead| ==> (IsGather(calls[k]) <==> IsGather(lead[k]))
  }

  /** The jobs whose gather is among the first `n` calls. */
  function JobsRun(lead: seq<Call>, n: nat): seq<JobId> {
    if n <= 1 || n - 1 > |lead| then []
    else
      var before := JobsRun(lead, n - 1);
      if lead[n - 2].Send? && lead[n - 2].msg.Run? then before + [lead[n - 2].msg.job] else before
  }

  ghost predicate RankInv(lead: seq<Call>, rank: Rank, r: nat) {
    && (if r == 0 then LeaderPlace(rank) && rank.calls == lead else FollowerPlace(lead, rank))
    && SameKinds(lead, rank.calls)
    && rank.ran == JobsRun(lead, |rank.calls|)
  }

  predicate AllReached(g: Group, k: nat) {
    forall q :: 0 <= q < |g.ranks| ==> k < |g.ranks[q].calls|
  }

  /** A gather that one rank has completed, all ranks have issued. */
  ghost predicate GathersMet(g: Group)
    requires g.ranks != []
  {
    forall r, k: nat ::
      0 <= r < |g.ranks| && k < g.ranks[r].completed && k < |g.ranks[0].calls| && IsGather(g.ranks[0].calls[k]) ==>
        AllReached(g, k)
  }

  ghost predicate Inv(g: Group) {
    && g.ranks != []
    && Script(g.ranks[0].calls)
    && (forall r :: 0 <= r < |g.ranks| ==> RankInv(g.ranks[0].calls, g.ranks[r], r))
    && GathersMet(g)
  }

  // ---------- steps keep the invariant ----------

  lemma StartIsGood(n: nat)
    requires n >= 1
    ensures Inv(Start(n))
  {
  }

  lemma {:induction false} JobsRunExtends(lead: seq<Call>, c: Call, n: nat)
    requires n <= |lead| + 1
    ensures JobsRun(lead + [c], n) == JobsRun(lead, n)
  {
    if n > 1 {
      JobsRunExtends(lead, c, n - 1);
    }
  }

  /** A longer script leaves every rank in its place. */
  lemma FollowerStays(lead: seq<Call>, c: Call, rank: Rank, r: nat)
    requires RankInv(lead, rank, r) && r > 0 && Script(lead + [c])
    ensures RankInv(lead + [c], rank, r)
  {
    var longer := lead + [c];
    JobsRunExtends(lead, c, |rank.calls|);
    assert forall k :: 0 <= k < |lead| ==> longer[k] == lead[k];
    PlacesStay(lead, c, rank.completed);
    if |rank.calls| == |lead| + 1 {
      assert rank.completed == |lead|;
      assert ScriptAt(longer, |lead|);
    }
  }

  lemma LeadKeepsScript(lead: seq<Call>, msg: Message)
    requires Script(lead) && !AwaitsGather(lead, |lead|) && !AfterShutdown(lead, |lead|)
    ensures Script(lead + [Send(msg)])
  {
    forall k: nat | k < |lead| + 1
      ensures ScriptAt(lead + [Send(msg)], k)
    {
      PlacesStay(lead, Send(msg), k);
    }
  }

  /** A step that adds calls, and completes nothing but a broadcast, leaves the gathers met. */
  lemma MetStays(g: Group, v: Group)
    requires Inv(g) && |v.ranks| == |g.ranks| && g.ranks[0].calls <= v.ranks[0].calls
    requires forall q :: 0 <= q < |g.ranks| ==> |g.ranks[q].calls| <= |v.ranks[q].calls|
    requires forall q :: 0 < q < |g.ranks| ==> v.ranks[q].completed == g.ranks[q].completed
    requires v.ranks[0].completed > g.ranks[0].completed ==>
      g.ranks[0].completed + 1 == v.ranks[0].completed == |g.ranks[0].calls| + 1 == |v.ranks[0].calls|
        && v.ranks[0].calls[|g.ranks[0].calls|].Send?
    ensures GathersMet(v)
  {
    var lead := g.ranks[0].calls;
    forall q, k: nat | 0 <= q < |v.ranks| && k < v.ranks[q].completed && k < |v.ranks[0].calls|
      && IsGather(v.ranks[0].calls[k])
      ensures AllReached(v, k)
    {
      assert RankInv(lead, g.ranks[q], q);
      assert k < g.ranks[q].completed && k < |lead| && IsGather(lead[k]);
      assert AllReached(g, k);
    }
  }

  lemma LeadKeepsInv(g: Group, max: nat, poll: Poll, v: Group)
    requires Inv(g) && Enabled(g, Lead(poll)) && v == Leading(g, max, poll)
    ensures Inv(v)
  {
    var lead, msg := g.ranks[0].calls, Announce(g, max, poll);
    assert RankInv(lead, g.ranks[0], 0);
    LeadKeepsScript(lead, msg);
    var longer := lead + [Send(msg)];
    assert v.ranks[0].calls == longer;
    LeaderSent(g.ranks[0], msg);
    MetStays(g, v);
    forall r | 0 < r < |g.ranks|
      ensures RankInv(longer, v.ranks[r], r)
    {
      assert RankInv(lead, g.ranks[r], r);
      FollowerStays(lead, Send(msg), g.ranks[r], r);
    }
  }

  lemma LeaderSent(rank: Rank, msg: Message)
    requires RankInv(rank.calls, rank, 0) && rank.phase.Top? && Script(rank.calls + [Send(msg)])
    ensures RankInv(rank.calls + [Send(msg)], Sent(rank, msg), 0)
  {
    var lead := rank.calls;
    var n := |lead| + 1;
    JobsRunExtends(lead, Send(msg), |lead|);
    assert JobsRun(lead + [Send(msg)], n) == JobsRun(lead + [Send(msg)], n - 1);
  }

  lemma JobsRunNext(lead: seq<Call>, n: nat)
    requires 1 <= n <= |lead|
    ensures JobsRun(lead, n + 1) == JobsRun(lead, n) + if lead[n - 1].Send?
      && lead[n - 1].msg.Run? then [lead[n - 1].msg.job] else []
  {
  }

  lemma LeaderExecutes(rank: Rank, outcome: Outcome)
    requires Script(rank.calls) && RankInv(rank.calls, rank, 0) && rank.phase.Running?
    ensures Script(rank.calls + [Gather(outcome)])
    ensures RankInv(rank.calls + [Gather(outcome)],
      Rank(Waiting, rank.calls + [Gather(outcome)], rank.completed, rank.ran + [rank.phase.job]), 0)
  {
    var lead, c := rank.calls, Gather(outcome);
    forall k: nat | k < |lead| + 1
      ensures ScriptAt(lead + [c], k)
    {
      PlacesStay(lead, c, k);
    }
    JobsRunExtends(lead, c, |lead|);
    JobsRunNext(lead + [c], |lead|);
  }

  lemma FollowerExecutes(lead: seq<Call>, rank: Rank, r: nat, outcome: Outcome)
    requires Script(lead) && RankInv(lead, rank, r) && r > 0 && rank.phase.Running?
    ensures RankInv(lead, Rank(Waiting, rank.calls + [Gather(outcome)], rank.completed, rank.ran + [rank.phase.job]), r)
  {
    JobsRunNext(lead, |rank.calls|);
    if rank.completed < |lead| {
      assert ScriptAt(lead, rank.completed);
    }
  }

  lemma ExecuteKeepsInv(g: Group, r: nat, outcome: Outcome, v: Group)
    requires Inv(g) && Enabled(g, Execute(r, outcome)) && v == Executed(g, r, outcome)
    ensures Inv(v)
  {
    var lead, c := g.ranks[0].calls, Gather(outcome);
    assert RankInv(lead, g.ranks[0], 0) && RankInv(lead, g.ranks[r], r);
    if r == 0 {
      LeaderExecutes(g.ranks[0], outcome);
      forall q | 0 < q < |g.ranks|
        ensures RankInv(lead + [c], v.ranks[q], q)
      {
        assert RankInv(lead, g.ranks[q], q);
        FollowerStays(lead, c, g.ranks[q], q);
      }
    } else {
      FollowerExecutes(lead, g.ranks[r], r, outcome);
    }
    MetStays(g, v);
  }

  lemma FollowerHears(lead: seq<Call>, rank: Rank, r: nat, v: Rank)
    requires Script(lead) && RankInv(lead, rank, r) && r > 0 && rank.phase.Waiting? && rank.completed < |rank.calls|
    requires !IsGather(rank.calls[rank.completed]) && rank.completed < |lead| && lead[rank.completed].Send?
    requires var msg := lead[rank.completed].msg;
      var heard := Follow(rank.(completed := rank.completed + 1), msg);
      v == if msg.Idle? then heard.(calls := rank.calls + [Receive]) else heard
    ensures RankInv(lead, v, r)
  {
    var k := rank.completed;
    JobsRunNext(lead, k + 1);
    if k + 1 < |lead| {
      assert ScriptAt(lead, k + 1);
    }
  }

  lemma FollowerGathers(lead: seq<Call>, rank: Rank, r: nat, v: Rank)
    requires Script(lead) && RankInv(lead, rank, r) && r > 0 && rank.phase.Waiting? && rank.completed < |rank.calls|
    requires rank.completed < |lead| && IsGather(lead[rank.completed]) && IsGather(rank.calls[rank.completed])
    requires v == rank.(calls := rank.calls + [Receive], completed := rank.completed + 1)
    ensures RankInv(lead, v, r)
  {
    var k := rank.completed;
    JobsRunNext(lead, k + 1);
    if k + 1 < |lead| {
      assert ScriptAt(lead, k + 1);
    }
  }

  lemma LeaderGathers(rank: Rank, v: Rank)
    requires Script(rank.calls) && RankInv(rank.calls, rank, 0) && rank.phase.Waiting?
    requires v == rank.(phase := Top, completed := rank.completed + 1)
    ensures RankInv(rank.calls, v, 0)
  {
  }

  lemma CompleteKeepsInv(g: Group, r: nat, v: Group)
    requires Inv(g) && Enabled(g, Complete(r)) && v == Completing(g, r)
    ensures Inv(v)
  {
    var lead, k := g.ranks[0].calls, g.ranks[r].completed;
    assert RankInv(lead, g.ranks[0], 0) && RankInv(lead, g.ranks[r], r);
    assert Met(g, r, k);
    if r == 0 {
      LeaderGathers(g.ranks[0], v.ranks[0]);
    } else if IsGather(g.ranks[r].calls[k]) {
      assert IsGather(g.ranks[0].calls[k]);
      FollowerGathers(lead, g.ranks[r], r, v.ranks[r]);
    } else {
      FollowerHears(lead, g.ranks[r], r, v.ranks[r]);
    }
    CompleteMeets(g, r, v);
    assert forall q :: 0 <= q < |g.ranks| && q != r ==> v.ranks[q] == g.ranks[q];
  }

  lemma CompleteMeets(g: Group, r: nat, v: Group)
    requires Inv(g) && Enabled(g, Complete(r)) && v == Completing(g, r)
    ensures GathersMet(v)
  {
    var lead, done := g.ranks[0].calls, g.ranks[r].completed;
    assert RankInv(lead, g.ranks[r], r);
    assert v.ranks[0].calls == lead;
    forall q, k: nat | 0 <= q < |v.ranks| && k < v.ranks[q].completed && k < |lead| && IsGather(lead[k])
      ensures AllReached(v, k)
    {
      assert k < g.ranks[q].completed || (q == r && k == done);
      assert AllReached(g, k);
      OnlyGrows(g, r, v);
    }
  }

  lemma OnlyGrows(g: Group, r: nat, v: Group)
    requires Enabled(g, Complete(r)) && v == Completing(g, r)
    ensures |v.ranks| == |g.ranks| && forall q :: 0 <= q < |g.ranks| ==> |g.ranks[q].calls| <= |v.ranks[q].calls|
  {
  }

  /** Same calls in the same order on every rank, in every reachable state. */
  lemma {:induction false} ReachableIsLockstep(n: nat, max: nat, es: seq<Event>)
    requires n >= 1
    ensures Inv(After(n, max, es)) && |After(n, max, es).ranks| == n
  {
    if es == [] {
      StartIsGood(n);
    } else {
      var g, e := After(n, max, es[..|es| - 1]), es[|es| - 1];
      ReachableIsLockstep(n, max, es[..|es| - 1]);
      if Enabled(g, e) {
        match e
        case Lead(poll) => LeadKeepsInv(g, max, poll, Step(g, max, e));
        case Execute(r, outcome) => ExecuteKeepsInv(g, r, outcome, Step(g, max, e));
        case Complete(r) => CompleteKeepsInv(g, r, Step(g, max, e));
      }
    }
  }

  // ---------- consequences ----------

  lemma SameKindIn(g: Group, q: nat, r: nat, k: nat)
    requires Inv(g) && q < |g.ranks| && r < |g.ranks| && k < |g.ranks[q].calls| && k < |g.ranks[r].calls|
    ensures IsGather(g.ranks[q].calls[k]) <==> IsGather(g.ranks[r].calls[k])
  {
    var lead := g.ranks[0].calls;
    assert RankInv(lead, g.ranks[q], q) && RankInv(lead, g.ranks[r], r) && RankInv(lead, g.ranks[0], 0);
    if k >= |lead| {
      PendingAtEnd(lead, g.ranks[q], q);
      PendingAtEnd(lead, g.ranks[r], r);
    }
  }

  /** Calls with the same number, completed or pending, are of the same kind on any two ranks. */
  lemma NoMismatch(n: nat, max: nat, es: seq<Event>, q: nat, r: nat, k: nat, g: Group)
    requires q < n && r < n && g == After(n, max, es) && |g.ranks| == n
    requires k < |g.ranks[q].calls| && k < |g.ranks[r].calls|
    ensures IsGather(g.ranks[q].calls[k]) <==> IsGather(g.ranks[r].calls[k])
  {
    ReachableIsLockstep(n, max, es);
    SameKindIn(g, q, r, k);
  }

  /** A call the leader has not reached yet is pending, and its kind is settled by what the leader did last. */
  lemma PendingAtEnd(lead: seq<Call>, rank: Rank, r: nat)
    requires RankInv(lead, rank, r) && |rank.calls| == |lead| + 1
    ensures rank.completed == |lead| && (IsGather(rank.calls[|lead|]) <==> AwaitsGather(lead, |lead|))
  {
  }

  /** Until every rank has seen the shutdown, some rank can go on. */
  lemma SomeoneCanMove(n: nat, max: nat, es: seq<Event>)
    requires n >= 1
    ensures var g := After(n, max, es);
      (forall r :: 0 <= r < |g.ranks| ==> g.ranks[r].phase.Stopped?) || exists e :: Enabled(g, e)
  {
    ReachableIsLockstep(n, max, es);
    var g := After(n, max, es);
    if r :| 0 <= r < |g.ranks| && !g.ranks[r].phase.Stopped? {
      var e := SomeMove(g, r);
    }
  }

  predicate Found(e: Event) {
    e.Lead? ==> e.poll.Found?
  }

  /** One of the ranks can move, and rank 0 not only to an idle round. */
  lemma SomeMove(g: Group, r: nat) returns (e: Event)
    requires Inv(g) && r < |g.ranks| && !g.ranks[r].phase.Stopped?
    ensures Enabled(g, e) && Found(e)
  {
    if q :| 0 <= q < |g.ranks| && g.ranks[q].phase.Running? {
      e := Execute(q, Returned(Completed));
    } else if g.ranks[0].phase.Top? {
      e := Lead(Poll.Found(""));
    } else {
      WaitersCanMove(g, r);
      e :| Enabled(g, e);
    }
  }

  /** The rank furthest behind among those that wait has what it waits for. */
  lemma WaitersCanMove(g: Group, r: nat)
    requires Inv(g) && r < |g.ranks| && !g.ranks[r].phase.Stopped?
    requires !g.ranks[0].phase.Top? && forall q :: 0 <= q < |g.ranks| ==> !g.ranks[q].phase.Running?
    ensures exists e :: Enabled(g, e)
  {
    var lead := g.ranks[0].calls;
    var low := Furthest(g, |g.ranks|);
    assert RankInv(lead, g.ranks[low], low) && RankInv(lead, g.ranks[0], 0) && RankInv(lead, g.ranks[r], r);
    var k := g.ranks[low].completed;
    assert k <= g.ranks[r].completed && k <= g.ranks[0].completed;
    LowestWaits(g, low, r);
    forall q | 0 <= q < |g.ranks|
      ensures IsGather(lead[k]) ==> k < |g.ranks[q].calls| && IsGather(g.ranks[q].calls[k])
    {
      assert RankInv(lead, g.ranks[q], q);
      if IsGather(lead[k]) {
        GatherIsIssued(lead, g.ranks[q], q, k);
      }
    }
    assert Met(g, low, k);
    assert Enabled(g, Complete(low));
  }

  function Furthest(g: Group, n: nat): (low: nat)
    requires 1 <= n <= |g.ranks|
    ensures low < n && forall q :: 0 <= q < n ==> g.ranks[low].completed <= g.ranks[q].completed
  {
    if n == 1 then 0
    else
      var low := Furthest(g, n - 1);
      if g.ranks[n - 1].completed < g.ranks[low].completed then n - 1 else low
  }

  lemma LowestWaits(g: Group, low: nat, r: nat)
    requires Inv(g) && low < |g.ranks| && r < |g.ranks| && !g.ranks[r].phase.Stopped? && !g.ranks[0].phase.Top?
    requires forall q :: 0 <= q < |g.ranks| ==> !g.ranks[q].phase.Running?
    requires g.ranks[low].completed <= g.ranks[r].completed && g.ranks[low].completed <= g.ranks[0].completed
    ensures g.ranks[low].phase.Waiting? && g.ranks[low].completed < |g.ranks[0].calls|
      && g.ranks[low].completed < |g.ranks[low].calls|
    ensures IsGather(g.ranks[low].calls[g.ranks[low].completed]) <==> IsGather(g.ranks[0].calls[g.ranks[low].completed])
    ensures !g.ranks[0].calls[g.ranks[low].completed].Receive?
  {
    var lead, k := g.ranks[0].calls, g.ranks[low].completed;
    assert RankInv(lead, g.ranks[low], low) && RankInv(lead, g.ranks[0], 0) && RankInv(lead, g.ranks[r], r);
    if k < |lead| {
      assert ScriptAt(lead, k);
    }
    StoppedIsLast(lead, g.ranks[low], low);
    StoppedIsLast(lead, g.ranks[r], r);
    StoppedIsLast(lead, g.ranks[0], 0);
  }

  /** A stopped rank has completed the whole script. */
  lemma StoppedIsLast(lead: seq<Call>, rank: Rank, r: nat)
    requires Script(lead) && RankInv(lead, rank, r)
    ensures rank.completed <= |lead|
    ensures rank.phase.Stopped? <==> AfterShutdown(lead, rank.completed)
    ensures rank.phase.Stopped? ==> rank.completed == |lead|
  {
    if rank.completed < |lead| {
      assert ScriptAt(lead, rank.completed);
    }
  }

  lemma GatherIsIssued(lead: seq<Call>, rank: Rank, r: nat, k: nat)
    requires Script(lead) && RankInv(lead, rank, r) && !rank.phase.Running? && k <= rank.completed && k < |lead|
      && IsGather(lead[k])
    ensures k < |rank.calls| && IsGather(rank.calls[k])
  {
    assert ScriptAt(lead, k);
  }

  // ---------- what the queue is told ----------

  /** Each settlement rests on a gather of reports about its job. */
  predicate SettledRight(g: Group, t: Settlement) {
    && g.ranks != []
    && 0 < t.at < |g.ranks[0].calls|
    && g.ranks[0].calls[t.at - 1] == Send(Run(t.job))
    && (forall q :: 0 <= q < |g.ranks| ==> t.at < |g.ranks[q].calls| && IsGather(g.ranks[q].calls[t.at]))
    && t.verdict == Judge(Gathered(g, t.at), g.ranks[0].calls[t.at].outcome)
  }

  ghost predicate AllSettledRight(g: Group) {
    forall i :: 0 <= i < |g.settled| ==> SettledRight(g, g.settled[i])
  }

  /** Earlier calls are never rewritten. */
  ghost predicate Grows(g: Group, v: Group) {
    && |v.ranks| == |g.ranks|
    && forall q :: 0 <= q < |g.ranks| ==> g.ranks[q].calls <= v.ranks[q].calls
  }

  lemma StepGrows(g: Group, max: nat, e: Event)
    requires Enabled(g, e)
    ensures Grows(g, Step(g, max, e))
  {
  }

  lemma SettledStays(g: Group, v: Group, t: Settlement)
    requires Grows(g, v) && SettledRight(g, t)
    ensures SettledRight(v, t)
  {
    forall q | 0 <= q < |g.ranks|
      ensures t.at < |v.ranks[q].calls| && v.ranks[q].calls[t.at] == g.ranks[q].calls[t.at]
    {
      assert g.ranks[q].calls <= v.ranks[q].calls;
    }
    assert Gathered(v, t.at) == Gathered(g, t.at);
    assert g.ranks[0].calls <= v.ranks[0].calls;
  }

  lemma NewSettlement(g: Group, v: Group)
    requires Inv(g) && Enabled(g, Complete(0)) && v == Completing(g, 0)
    ensures |v.settled| == |g.settled| + 1 && v.settled[..|g.settled|] == g.settled
    ensures SettledRight(g, v.settled[|g.settled|])
  {
    var lead, k := g.ranks[0].calls, g.ranks[0].completed;
    assert RankInv(lead, g.ranks[0], 0);
    assert ScriptAt(lead, k);
    assert Met(g, 0, k);
  }

  lemma {:induction false} SettlementsAreRight(n: nat, max: nat, es: seq<Event>)
    requires n >= 1
    ensures AllSettledRight(After(n, max, es))
  {
    if es != [] {
      var g, e := After(n, max, es[..|es| - 1]), es[|es| - 1];
      SettlementsAreRight(n, max, es[..|es| - 1]);
      ReachableIsLockstep(n, max, es[..|es| - 1]);
      if Enabled(g, e) {
        var v := Step(g, max, e);
        StepGrows(g, max, e);
        if e == Complete(0) {
          NewSettlement(g, v);
        }
        OldSettlements(g, max, e, v);
        forall i | 0 <= i < |v.settled|
          ensures SettledRight(v, v.settled[i])
        {
          if i < |g.settled| {
            assert v.settled[i] == g.settled[i];
          }
          SettledStays(g, v, v.settled[i]);
        }
      }
    }
  }

  lemma OldSettlements(g: Group, max: nat, e: Event, v: Group)
    requires Enabled(g, e) && v == Step(g, max, e)
    ensures g.settled <= v.settled
    ensures e != Complete(0) && g.ranks != [] && LeaderPlace(g.ranks[0]) ==> v.settled == g.settled
  {
  }

  lemma {:induction false} FirstErrorFinds(errors: seq<Option<string>>)
    ensures FirstError(errors).None? <==> forall q :: 0 <= q < |errors| ==> errors[q] == None || errors[q] == Some("")
    ensures FirstError(errors).Some? ==> FirstError(errors) in errors
  {
    if errors != [] {
      FirstErrorFinds(errors[1..]);
      assert forall q :: 1 <= q < |errors| ==> errors[q] == errors[1..][q - 1];
    }
  }

  predicate Named(c: Call) {
    c.Gather? && c.outcome.Raised? ==> c.outcome.error != ""
  }

  ghost predicate AllNamed(g: Group) {
    forall q :: 0 <= q < |g.ranks| ==> forall k :: 0 <= k < |g.ranks[q].calls| ==> Named(g.ranks[q].calls[k])
  }

  lemma {:induction false} ErrorsAreNamed(n: nat, max: nat, es: seq<Event>)
    requires n >= 1
    ensures AllNamed(After(n, max, es))
  {
    if es != [] {
      ErrorsAreNamed(n, max, es[..|es| - 1]);
      var g, e := After(n, max, es[..|es| - 1]), es[|es| - 1];
      if Enabled(g, e) {
        StepIsNamed(g, max, e, Step(g, max, e));
      }
    }
  }

  lemma StepIsNamed(g: Group, max: nat, e: Event, v: Group)
    requires AllNamed(g) && Enabled(g, e) && v == Step(g, max, e)
    ensures AllNamed(v)
  {
  }

  /**
   * About each job it has executed rank 0 tells the queue something: "completed" exactly if all
   * ranks gathered after that job's broadcast, none of them raised, and rank 0's own result is
   * completed; an exception on any rank is reported as that rank's failure.
   */
  lemma CompletedMeansEveryRank(n: nat, max: nat, es: seq<Event>, i: nat, g: Group)
    requires n >= 1 && g == After(n, max, es) && i < |g.settled|
    ensures var t := g.settled[i];
      && g.ranks != [] && 0 < t.at < |g.ranks[0].calls| && g.ranks[0].calls[t.at - 1] == Send(Run(t.job))
      && (forall q :: 0 <= q < |g.ranks| ==> t.at < |g.ranks[q].calls| && IsGather(g.ranks[q].calls[t.at]))
      && (t.verdict.Nacked? <==> exists q :: 0 <= q < |g.ranks| && g.ranks[q].calls[t.at].outcome.Raised?)
      && (t.verdict.Nacked? ==>
        exists q :: 0 <= q < |g.ranks| && g.ranks[q].calls[t.at].outcome == Raised(t.verdict.error))
      && (!t.verdict.Nacked? ==>
        t.verdict == if g.ranks[0].calls[t.at].outcome == Returned(Completed) then AckedCompleted else AckedFailed)
  {
    SettlementsAreRight(n, max, es);
    ErrorsAreNamed(n, max, es);
    VerdictMeans(g, g.settled[i]);
  }

  lemma VerdictMeans(g: Group, t: Settlement)
    requires AllNamed(g) && SettledRight(g, t)
    ensures t.verdict.Nacked? <==> exists q :: 0 <= q < |g.ranks| && g.ranks[q].calls[t.at].outcome.Raised?
    ensures t.verdict.Nacked? ==>
      exists q :: 0 <= q < |g.ranks| && g.ranks[q].calls[t.at].outcome == Raised(t.verdict.error)
    ensures !t.verdict.Nacked? ==>
      t.verdict == if g.ranks[0].calls[t.at].outcome == Returned(Completed) then AckedCompleted else AckedFailed
  {
    var errors := Gathered(g, t.at);
    FirstErrorFinds(errors);
    forall q | 0 <= q < |g.ranks|
      ensures errors[q] == Report(g.ranks[q].calls[t.at].outcome) && errors[q] != Some("")
    {
      assert Named(g.ranks[q].calls[t.at]);
    }
    if FirstError(errors).Some? {
      var q :| 0 <= q < |errors| && errors[q] == FirstError(errors);
      assert g.ranks[q].calls[t.at].outcome == Raised(t.verdict.error);
    } else {
      assert forall q :: 0 <= q < |g.ranks| ==> errors[q] == None;
    }
  }

  /** The jobs a rank has run are a prefix of the jobs rank 0 has broadcast; at the end they are all of them. */
  lemma RanksRunTheSameJobs(n: nat, max: nat, es: seq<Event>, g: Group)
    requires n >= 1 && g == After(n, max, es)
    ensures g.ranks != []
    ensures forall r :: 0 <= r < |g.ranks| ==> g.ranks[r].ran == JobsRun(g.ranks[0].calls, |g.ranks[r].calls|)
    ensures (forall r :: 0 <= r < |g.ranks| ==> g.ranks[r].phase.Stopped?) ==>
      forall r :: 0 <= r < |g.ranks| ==> g.ranks[r].ran == g.ranks[0].ran && |g.ranks[r].calls| == |g.ranks[0].calls|
  {
    ReachableIsLockstep(n, max, es);
    forall r | 0 <= r < |g.ranks|
      ensures g.ranks[r].ran == JobsRun(g.ranks[0].calls, |g.ranks[r].calls|)
      ensures g.ranks[r].phase.Stopped? ==> |g.ranks[r].calls| == |g.ranks[0].calls|
    {
      assert RankInv(g.ranks[0].calls, g.ranks[r], r);
      StoppedIsLast(g.ranks[0].calls, g.ranks[r], r);
    }
  }

  /** Without a further broadcast, a group that has caught up cannot move: the shutdown has to be sent. */
  lemma OnlyTheLeaderCanMove(g: Group, e: Event)
    requires Inv(g) && g.ranks[0].phase.Top?
    requires forall r :: 0 < r < |g.ranks| ==> g.ranks[r].completed == |g.ranks[0].calls|
    ensures Enabled(g, e) ==> e.Lead?
  {
    var lead := g.ranks[0].calls;
    assert RankInv(lead, g.ranks[0], 0);
    forall r | 0 < r < |g.ranks|
      ensures g.ranks[r].phase.Waiting? && |g.ranks[r].calls| == |lead| + 1 && g.ranks[r].calls[|lead|].Receive?
    {
      assert RankInv(lead, g.ranks[r], r);
    }
  }

  // ---------- no job is lost between queue and group ----------

  function SettledJobs(ts: seq<Settlement>): (r: seq<JobId>)
    ensures |r| == |ts|
  {
    seq(|ts|, i requires 0 <= i < |ts| => ts[i].job)
  }

  /** Rank 0 has settled the jobs whose gather it has completed, and no more than it may process. */
  ghost predicate Books(g: Group, max: nat)
    requires g.ranks != []
  {
    && SettledJobs(g.settled) == JobsRun(g.ranks[0].calls, g.ranks[0].completed)
    && g.processed == |g.settled|
    && g.processed + (if g.ranks[0].phase.Running? || g.ranks[0].phase.Waiting? then 1 else 0) <= max
  }

  lemma LeadKeepsBooks(g: Group, max: nat, poll: Poll, v: Group)
    requires Inv(g) && Books(g, max) && Enabled(g, Lead(poll)) && v == Leading(g, max, poll)
    ensures Books(v, max)
  {
    var lead, msg := g.ranks[0].calls, Announce(g, max, poll);
    assert RankInv(lead, g.ranks[0], 0);
    JobsRunExtends(lead, Send(msg), |lead|);
    if lead != [] {
      JobsRunNext(lead + [Send(msg)], |lead|);
    }
  }

  lemma ExecuteKeepsBooks(g: Group, max: nat, r: nat, outcome: Outcome, v: Group)
    requires Inv(g) && Books(g, max) && Enabled(g, Execute(r, outcome)) && v == Executed(g, r, outcome)
    ensures Books(v, max)
  {
    var lead := g.ranks[0].calls;
    assert RankInv(lead, g.ranks[0], 0);
    JobsRunExtends(lead, Gather(outcome), |lead|);
  }

  lemma CompleteKeepsBooks(g: Group, max: nat, r: nat, v: Group)
    requires Inv(g) && Books(g, max) && Enabled(g, Complete(r)) && v == Completing(g, r)
    ensures Books(v, max)
  {
    if r == 0 {
      var lead, k := g.ranks[0].calls, g.ranks[0].completed;
      assert RankInv(lead, g.ranks[0], 0);
      assert ScriptAt(lead, k);
      JobsRunNext(lead, k);
      assert SettledJobs(v.settled) == SettledJobs(g.settled) + [lead[k - 1].msg.job];
    }
  }

  /** Every job the group has finished is settled once, in the order of the broadcasts, and there are at most `max`. */
  lemma {:induction false} EveryJobIsSettledOnce(n: nat, max: nat, es: seq<Event>)
    requires n >= 1
    ensures After(n, max, es).ranks != [] && Books(After(n, max, es), max)
  {
    if es != [] {
      var g, e := After(n, max, es[..|es| - 1]), es[|es| - 1];
      EveryJobIsSettledOnce(n, max, es[..|es| - 1]);
      ReachableIsLockstep(n, max, es[..|es| - 1]);
      if Enabled(g, e) {
        match e
        case Lead(poll) => LeadKeepsBooks(g, max, poll, Step(g, max, e));
        case Execute(r, outcome) => ExecuteKeepsBooks(g, max, r, outcome, Step(g, max, e));
        case Complete(r) => CompleteKeepsBooks(g, max, r, Step(g, max, e));
      }
    }
  }

  /** No shutdown is sent before the last job that may be run. */
  ghost predicate EndsOnTime(g: Group, max: nat) {
    g.ranks != [] && (Send(Shutdown) in g.ranks[0].calls ==> g.processed >= max)
  }

  lemma StepEndsOnTime(g: Group, max: nat, e: Event, v: Group)
    requires EndsOnTime(g, max) && Enabled(g, e) && v == Step(g, max, e)
    ensures EndsOnTime(v, max)
  {
    var lead, longer := g.ranks[0].calls, v.ranks[0].calls;
    if Send(Shutdown) in longer && Send(Shutdown) !in lead {
      assert longer[|longer| - 1] == Send(Shutdown);
    }
  }

  lemma {:induction false} ShutdownIsLast(n: nat, max: nat, es: seq<Event>)
    requires n >= 1
    ensures EndsOnTime(After(n, max, es), max)
  {
    if es != [] {
      var g, e := After(n, max, es[..|es| - 1]), es[|es| - 1];
      ShutdownIsLast(n, max, es[..|es| - 1]);
      if Enabled(g, e) {
        StepEndsOnTime(g, max, e, Step(g, max, e));
      }
    }
  }

  /** When a shutdown has been sent, or any rank has stopped, exactly `max` jobs have been settled. */
  lemma GroupStopsAtMax(n: nat, max: nat, es: seq<Event>, g: Group)
    requires n >= 1 && g == After(n, max, es)
    ensures g.ranks != []
    ensures Send(Shutdown) in g.ranks[0].calls ==> |g.settled| == max
    ensures (exists r :: 0 <= r < |g.ranks| && g.ranks[r].phase.Stopped?) ==> |g.settled| == max
  {
    ReachableIsLockstep(n, max, es);
    EveryJobIsSettledOnce(n, max, es);
    ShutdownIsLast(n, max, es);
    var lead := g.ranks[0].calls;
    forall r | 0 <= r < |g.ranks| && g.ranks[r].phase.Stopped?
      ensures Send(Shutdown) in lead
    {
      assert RankInv(lead, g.ranks[r], r);
      StoppedIsLast(lead, g.ranks[r], r);
      assert lead[g.ranks[r].completed - 1] == Send(Shutdown);
    }
  }

  /** A poll takes rank 0 to the job it found, anything else to the next poll; behind the last job it stops. */
  lemma EveryPollIsAnswered(g: Group, max: nat, poll: Poll, v: Group)
    requires Enabled(g, Lead(poll)) && v == Step(g, max, Lead(poll))
    ensures g.processed >= max ==> v.ranks[0].phase.Stopped? && v.rejected == g.rejected
    ensures g.processed < max ==> v.ranks[0].phase == match poll case Found(job) => Running(job) case _ => Top
    ensures g.processed < max ==> v.rejected == g.rejected + match poll case TooWide(job) => [job] case _ => []
  {
  }

  // ---------- the group can always finish ----------

  /** The length of rank 0's script once it has stopped, if no more rounds are idle. */
  function Length(g: Group, max: nat): int
    requires g.ranks != []
  {
    var lead, jobs := g.ranks[0], max - g.processed;
    |lead.calls| + match lead.phase
      case Top => 2 * jobs + 1
      case Running(_) => 2 * jobs
      case Waiting => 2 * jobs - 1
      case Stopped => 0
  }

  function Used(rank: Rank): nat {
    rank.completed + |rank.calls|
  }

  function UsedBy(g: Group, k: nat): nat
    requires k <= |g.ranks|
  {
    if k == 0 then 0 else UsedBy(g, k - 1) + Used(g.ranks[k - 1])
  }

  /** The rank an event is about. */
  function Mover(e: Event): nat {
    match e
    case Lead(_) => 0
    case Execute(r, _) => r
    case Complete(r) => r
  }

  lemma OneMoves(g: Group, max: nat, e: Event, v: Group)
    requires g.ranks != [] && Enabled(g, e) && v == Step(g, max, e)
    ensures |v.ranks| == |g.ranks| && Mover(e) < |g.ranks|
    ensures forall q :: 0 <= q < |g.ranks| && q != Mover(e) ==> v.ranks[q] == g.ranks[q]
    ensures Used(v.ranks[Mover(e)]) > Used(g.ranks[Mover(e)])
  {
  }

  lemma {:induction false} MoreIsUsed(g: Group, v: Group, r: nat, k: nat)
    requires |v.ranks| == |g.ranks| && r < |g.ranks| && k <= |g.ranks|
    requires forall q :: 0 <= q < |g.ranks| && q != r ==> v.ranks[q] == g.ranks[q]
    requires Used(v.ranks[r]) > Used(g.ranks[r])
    ensures UsedBy(v, k) >= UsedBy(g, k) && (r < k ==> UsedBy(v, k) > UsedBy(g, k))
  {
    if k > 0 {
      MoreIsUsed(g, v, r, k - 1);
    }
  }

  lemma LengthStays(g: Group, max: nat, e: Event, v: Group)
    requires Inv(g) && Books(g, max) && Enabled(g, e) && v == Step(g, max, e) && Found(e)
    ensures v.ranks != [] && Length(v, max) == Length(g, max)
  {
    assert RankInv(g.ranks[0].calls, g.ranks[0], 0);
  }

  lemma LengthIsEnough(g: Group, max: nat, r: nat)
    requires Inv(g) && Books(g, max) && r < |g.ranks|
    ensures |g.ranks[0].calls| <= Length(g, max) && Used(g.ranks[r]) <= 2 * Length(g, max) + 1
  {
    assert RankInv(g.ranks[0].calls, g.ranks[0], 0) && RankInv(g.ranks[0].calls, g.ranks[r], r);
  }

  lemma {:induction false} UsedIsBounded(g: Group, max: nat, k: nat)
    requires Inv(g) && Books(g, max) && k <= |g.ranks|
    ensures UsedBy(g, k) <= k * (2 * Length(g, max) + 1)
  {
    if k > 0 {
      UsedIsBounded(g, max, k - 1);
      LengthIsEnough(g, max, k - 1);
      OneMoreTime(k, 2 * Length(g, max) + 1);
    }
  }

  lemma OneMoreTime(k: nat, x: int)
    requires k > 0
    ensures k * x == (k - 1) * x + x
  {
  }

  ghost predicate AllStopped(g: Group) {
    forall r :: 0 <= r < |g.ranks| ==> g.ranks[r].phase.Stopped?
  }

  /** From wherever a run stands, the group can go on until every rank has stopped, with `max` jobs settled. */
  lemma GroupCanFinish(n: nat, max: nat, es: seq<Event>) returns (more: seq<Event>)
    requires n >= 1
    ensures AllStopped(After(n, max, es + more)) && |After(n, max, es + more).settled| == max
  {
    ReachableIsLockstep(n, max, es);
    more := Finish(n, max, es, n * (2 * Length(After(n, max, es), max) + 1));
    ReachableIsLockstep(n, max, es + more);
    GroupStopsAtMax(n, max, es + more, After(n, max, es + more));
    assert After(n, max, es + more).ranks[0].phase.Stopped?;
  }

  lemma {:induction false} Finish(n: nat, max: nat, es: seq<Event>, bound: int) returns (more: seq<Event>)
    requires n >= 1 && |After(n, max, es).ranks| == n && bound == n * (2 * Length(After(n, max, es), max) + 1)
    ensures AllStopped(After(n, max, es + more))
    decreases bound - UsedBy(After(n, max, es), n)
  {
    if AllStopped(After(n, max, es)) {
      more := [];
      assert es + [] == es;
    } else {
      var e := Closer(n, max, es);
      var rest := Finish(n, max, es + [e], bound);
      more := [e] + rest;
      assert es + more == es + [e] + rest;
    }
  }

  lemma Closer(n: nat, max: nat, es: seq<Event>) returns (e: Event)
    requires n >= 1 && |After(n, max, es).ranks| == n && !AllStopped(After(n, max, es))
    ensures |After(n, max, es + [e]).ranks| == n
    ensures Length(After(n, max, es + [e]), max) == Length(After(n, max, es), max)
    ensures UsedBy(After(n, max, es), n) < UsedBy(After(n, max, es + [e]), n)
    ensures UsedBy(After(n, max, es + [e]), n) <= n * (2 * Length(After(n, max, es), max) + 1)
  {
    var g := After(n, max, es);
    ReachableBooks(n, max, es, g);
    e := AnyMove(g);
    var v := NextState(n, max, es, e);
    ReachableBooks(n, max, es + [e], v);
    MoveIsProgress(g, max, e, v);
    UsedIsBounded(v, max, n);
  }

  lemma ReachableBooks(n: nat, max: nat, es: seq<Event>, g: Group)
    requires n >= 1 && g == After(n, max, es)
    ensures Inv(g) && Books(g, max)
  {
    ReachableIsLockstep(n, max, es);
    EveryJobIsSettledOnce(n, max, es);
  }

  lemma AnyMove(g: Group) returns (e: Event)
    requires Inv(g) && !AllStopped(g)
    ensures Enabled(g, e) && Found(e)
  {
    var r :| 0 <= r < |g.ranks| && !g.ranks[r].phase.Stopped?;
    e := SomeMove(g, r);
  }

  lemma MoveIsProgress(g: Group, max: nat, e: Event, v: Group)
    requires Inv(g) && Books(g, max) && Enabled(g, e) && v == Step(g, max, e) && Found(e)
    ensures |v.ranks| == |g.ranks| && Length(v, max) == Length(g, max)
    ensures UsedBy(v, |g.ranks|) > UsedBy(g, |g.ranks|)
  {
    OneMoves(g, max, e, v);
    MoreIsUsed(g, v, Mover(e), |g.ranks|);
    LengthStays(g, max, e, v);
  }

  lemma NextState(n: nat, max: nat, es: seq<Event>, e: Event) returns (v: Group)
    requires n >= 1 && Enabled(After(n, max, es), e)
    ensures v == After(n, max, es + [e]) == Step(After(n, max, es), max, e)
  {
    assert (es + [e])[..|es|] == es;
    v := After(n, max, es + [e]);
  }

  /** The jobs that the polls of a run brought. */
  function Taken(n: nat, max: nat, es: seq<Event>): seq<JobId>
    requires n >= 1
  {
    if es == [] then []
    else
      var before, g, e := Taken(n, max, es[..|es| - 1]), After(n, max, es[..|es| - 1]), es[|es| - 1];
      if Enabled(g, e) && e.Lead? && g.processed < max
        && (e.poll.Found? || e.poll.TooWide?) then before + [e.poll.job] else before
  }

  /** The jobs that rank 0 has broadcast. */
  function Announced(lead: seq<Call>): seq<JobId> {
    if lead == [] then []
    else
      var before, c := Announced(lead[..|lead| - 1]), lead[|lead| - 1];
      if c.Send? && c.msg.Run? then before + [c.msg.job] else before
  }

  lemma AnnouncedNext(lead: seq<Call>, c: Call)
    ensures Announced(lead + [c]) == Announced(lead) + if c.Send? && c.msg.Run? then [c.msg.job] else []
  {
    assert (lead + [c])[..|lead|] == lead;
  }

  /** A job taken from the queue is broadcast to all ranks or handed back, never both and never neither. */
  lemma {:induction false} TakenIsRunOrRejected(n: nat, max: nat, es: seq<Event>)
    requires n >= 1
    ensures After(n, max, es).ranks != []
    ensures multiset(Taken(n, max, es)) ==
      multiset(Announced(After(n, max, es).ranks[0].calls)) + multiset(After(n, max, es).rejected)
  {
    if es != [] {
      var g, e := After(n, max, es[..|es| - 1]), es[|es| - 1];
      TakenIsRunOrRejected(n, max, es[..|es| - 1]);
      if Enabled(g, e) {
        StepTakes(g, max, e, Step(g, max, e));
      }
    }
  }

  lemma StepTakes(g: Group, max: nat, e: Event, v: Group)
    requires g.ranks != [] && Enabled(g, e) && v == Step(g, max, e)
    ensures v.ranks != []
    ensures multiset(Announced(v.ranks[0].calls)) + multiset(v.rejected) ==
      multiset(Announced(g.ranks[0].calls)) + multiset(g.rejected)
      + (if e.Lead? && g.processed < max && (e.poll.Found?
        || e.poll.TooWide?) then multiset{e.poll.job} else multiset{})
  {
    if e.Lead? {
      var lead, msg := g.ranks[0].calls, Announce(g, max, e.poll);
      assert v.ranks[0].calls == lead + [Send(msg)];
      AnnouncedNext(lead, Send(msg));
    } else {
      OthersTakeNothing(g, max, e, v);
    }
  }

  lemma OthersTakeNothing(g: Group, max: nat, e: Event, v: Group)
    requires g.ranks != [] && Enabled(g, e) && !e.Lead? && v == Step(g, max, e)
    ensures v.ranks != [] && v.rejected == g.rejected
    ensures Announced(v.ranks[0].calls) == Announced(g.ranks[0].calls)
  {
    var lead := g.ranks[0].calls;
    if e.Execute? {
      AnnouncedNext(lead, Gather(e.outcome));
    } else {
      AnnouncedNext(lead, Receive);
    }
  }
}
