/** What holds in every state that some run of the farm reaches. */
module Runs {
  import opened Queues
  import opened PoolModel
  import opened PoolLaws
  import opened WorkerModel
  import opened Farm
  import opened Protocol
  import opened Bookkeeping

  /** The events, in order, lead from s to r. */
  ghost predicate Run(s: Farm, events: seq<Event>, r: Farm)
    decreases |events|
  {
    if events == [] then r == s
    else Valid(s.pool) && Enabled(s, events[0]) && Run(Next(s, events[0]), events[1..], r)
  }

  ghost predicate Reachable(s: Farm) {
    exists events :: Run(Start, events, s)
  }

  lemma {:induction false} RunAppend(s: Farm, events: seq<Event>, r: Farm, e: Event)
    requires Run(s, events, r) && Valid(r.pool) && Enabled(r, e)
    ensures Run(s, events + [e], Next(r, e))
    decreases |events|
  {
    if events == [] {
      assert Run(Next(r, e), [e][1..], Next(r, e));
      assert events + [e] == [e];
    } else {
      assert (events + [e])[1..] == events[1..] + [e];
      RunAppend(Next(s, events[0]), events[1..], r, e);
    }
  }

  lemma Extend(s: Farm, e: Event)
    requires Reachable(s) && Valid(s.pool) && Enabled(s, e)
    ensures Reachable(Next(s, e))
  {
    var events :| Run(Start, events, s);
    RunAppend(Start, events, s, e);
  }

  lemma MembershipParts(s: Farm, running: seq<WorkerId>, pending: seq<WorkerId>)
    requires Valid(s.pool) && NoDup(running + pending)
    ensures var r := Next(s, Membership(running, pending));
      && r.pool == OnMembership(s.pool, running, pending) && r.workers == s.workers && r.now == s.now
      && r.log == Requeued(s.log, s.pool, Stopped(s.pool, running, pending))
  {
  }

  lemma StartSafe()
    ensures Sound(Start) && InBalance(Start)
  {
    assert forall t :: TaskLaws(AccountOf(Start.pool, Start.log), t);
  }

  lemma {:induction false} RunSafe(s: Farm, events: seq<Event>, r: Farm)
    requires Sound(s) && InBalance(s) && Run(s, events, r)
    ensures Sound(r) && InBalance(r)
    decreases |events|
  {
    if events != [] {
      BalancedStep(s, events[0]);
      RunSafe(Next(s, events[0]), events[1..], r);
    }
  }

  lemma ReachableSafe(s: Farm)
    requires Reachable(s)
    ensures Sound(s) && InBalance(s)
  {
    var events :| Run(Start, events, s);
    StartSafe();
    RunSafe(Start, events, s);
  }

  /** FIFO agreement: the manager's processing queue of a member is that member's pipeline. */
  lemma FifoAgreement(s: Farm, w: WorkerId)
    requires Reachable(s) && w in s.pool.keys
    ensures Valid(s.pool) && s.pool.processing[w] == Pipeline(WorkerOf(s, w))
  {
    ReachableSafe(s);
  }

  lemma SoundDone(s: Farm, w: WorkerId)
    requires Sound(s) && w in s.pool.keys && WorkerOf(s, w).channel.Request? && WorkerOf(s, w).channel.packet.Done?
    ensures var done := WorkerOf(s, w).channel.packet;
      && done.sender == w && s.pool.processing[w] != [] && s.pool.processing[w][0] == done.task
      && done.task in s.pool.assignTime && s.pool.assignTime[done.task] <= s.now
  {
    FirstPending(s, w);
    assert Orderly(w, WorkerOf(s, w));
  }

  /** A report from a member pops exactly the task it names, finds that task's assign time, and
      that time is not in the future. */
  lemma DoneIsTheHead(s: Farm, w: WorkerId)
    requires Reachable(s) && w in s.pool.keys
    requires WorkerOf(s, w).channel.Request? && WorkerOf(s, w).channel.packet.Done?
    ensures var done := WorkerOf(s, w).channel.packet;
      && Valid(s.pool) && done.sender == w && s.pool.processing[w] != [] && s.pool.processing[w][0] == done.task
      && done.task in s.pool.assignTime && s.now - s.pool.assignTime[done.task] >= 0.0
  {
    ReachableSafe(s);
    SoundDone(s, w);
  }

  /** No request, from a member or not, ever makes the server raise an exception. */
  lemma ServerNeverFails(s: Farm, w: WorkerId)
    requires Reachable(s)
    ensures !WorkerOf(s, w).channel.Closed?
    ensures Valid(s.pool)
    ensures WorkerOf(s, w).channel.Request? ==> OnPacket(s.pool, WorkerOf(s, w).channel.packet, s.now).1.Reply?
  {
    ReachableSafe(s);
    if WorkerOf(s, w).channel.Request? {
      ServeShape(s, w);
    }
  }

  /** The one assumption on joins is needed: a worker that joins while its report of an earlier task
      is on its way crashes the connection that carries the report. */
  lemma UndrainedJoinCrashes(s: Farm, running: seq<WorkerId>, pending: seq<WorkerId>, w: WorkerId)
    requires Reachable(s) && NoDup(running + pending) && Valid(s.pool) && w in Joined(s.pool, running, pending)
    requires WorkerOf(s, w).channel.Request? && WorkerOf(s, w).channel.packet.Done?
    ensures var s' := Next(s, Membership(running, pending));
      && Valid(s'.pool) && WorkerOf(s', w) == WorkerOf(s, w)
      && WorkerOf(Next(s', Serve(w)), w).channel.Closed?
  {
    ReachableSafe(s);
    MembershipShape(s.pool, running, pending);
    var s' := Next(s, Membership(running, pending));
    assert WorkerOf(s', w) == WorkerOf(s, w) && w in s'.pool.keys;
    ReportToEmptyQueue(s', w);
  }

  lemma ReportToEmptyQueue(s: Farm, w: WorkerId)
    requires Valid(s.pool) && w in s.pool.keys && s.pool.processing[w] == []
    requires WorkerOf(s, w).channel.Request? && WorkerOf(s, w).channel.packet.Done?
    requires WorkerOf(s, w).channel.packet.sender == w
    ensures WorkerOf(Next(s, Serve(w)), w).channel.Closed?
  {
    ServeParts(s, w);
  }

  /** A worker that has stopped asking for work still has some, or is about to learn there is none;
      and unless an exception has ended its processing loop, it has a step of its own to take. */
  lemma NoSilentIdling(s: Farm, w: WorkerId)
    requires Reachable(s) && WorkerOf(s, w).taskCommandReceived
    ensures var k := WorkerOf(s, w);
      && (Pipeline(k) != [] || (k.channel.Answer? && k.channel.packet.Done?))
      && (k.failed || !k.channel.Idle? || k.buffer != [] || Work(k, w, true) != k)
  {
    ReachableSafe(s);
  }

  /** Both dictionaries have exactly the running and pending workers as keys. */
  lemma MembershipAgreement(s: Farm)
    requires Reachable(s)
    ensures NoDup(s.pool.running + s.pool.pending)
    ensures forall w :: w in s.pool.assignment <==> w in s.pool.running + s.pool.pending
    ensures forall w :: w in s.pool.processing <==> w in s.pool.running + s.pool.pending
  {
    ReachableSafe(s);
  }

  lemma AccountConservation(a: Account)
    requires forall t :: TaskLaws(a, t)
    ensures a.tasks + a.held + a.inHand + a.log.finished == a.log.registered + a.log.stolen
  {
    forall t
      ensures (a.tasks + a.held + a.inHand + a.log.finished)[t] == (a.log.registered + a.log.stolen)[t]
    {
      assert TaskLaws(a, t);
    }
  }

  /** No task is lost, and a theft is the only thing that duplicates one. */
  lemma Conservation(s: Farm)
    requires Reachable(s)
    ensures WellKeyed(s.pool)
    ensures multiset(s.pool.tasks) + Held(s.pool) + InHand(s.pool) + s.log.finished == s.log.registered + s.log.stolen
  {
    ReachableSafe(s);
    AccountConservation(AccountOf(s.pool, s.log));
  }

  /** Every task in a worker's queues can be looked up in assign_time. */
  lemma ResponseLookupTotal(s: Farm, t: TaskId)
    requires Reachable(s)
    ensures WellKeyed(s.pool) && (t in Held(s.pool) || t in InHand(s.pool) ==> t in s.pool.assignTime)
  {
    ReachableSafe(s);
  }

  /** The counter, and the number of waiting tasks the manager reports. */
  lemma CounterMeaning(s: Farm)
    requires Reachable(s)
    ensures WellKeyed(s.pool)
    ensures s.pool.allAssigned == |Held(s.pool)| + |InHand(s.pool)| - |s.log.stolen| + |s.log.requeued|
    ensures GenerateHeartBeat(s.pool).waiting == |s.log.registered| - |s.log.finished| + |s.log.requeued|
  {
    ReachableSafe(s);
    Conservation(s);
    assert |multiset(s.pool.tasks) + Held(s.pool) + InHand(s.pool) + s.log.finished|
        == |s.log.registered + s.log.stolen|;
  }

  /** When all the work is done the reported backlog is off by the thefts that no requeueing made up
      for; it is zero exactly when there were as many of the one as of the other. */
  lemma DrainedBacklog(s: Farm)
    requires Reachable(s) && s.pool.tasks == []
    requires forall w | w in s.pool.keys && w in s.pool.assignment && w in s.pool.processing ::
      s.pool.assignment[w] == [] && s.pool.processing[w] == []
    ensures WellKeyed(s.pool)
    ensures GenerateHeartBeat(s.pool).waiting == |s.log.requeued| - |s.log.stolen|
    ensures GenerateHeartBeat(s.pool).waiting == 0 <==> |s.log.requeued| == |s.log.stolen|
  {
    CounterMeaning(s);
    EmptyQueues(s.pool.keys, s.pool.assignment);
    EmptyQueues(s.pool.keys, s.pool.processing);
  }

  lemma {:induction false} EmptyQueues(keys: seq<WorkerId>, queues: Queues)
    requires forall k | k in keys :: k in queues && queues[k] == []
    ensures Collect(Whole, keys, queues) == multiset{}
  {
    if keys != [] {
      EmptyQueues(keys[1..], queues);
    }
  }

  /** How often a task is handed out: exactly once per copy that has left the pool and the
      assignment queues, where thefts and requeueing make the copies. */
  lemma HandOutsExact(s: Farm, t: TaskId)
    requires Reachable(s)
    ensures WellKeyed(s.pool)
    ensures s.log.handed[t] + Held(s.pool)[t] + multiset(s.pool.tasks)[t]
         == s.log.registered[t] + s.log.stolen[t] + s.log.requeued[t]
    ensures s.log.stolen[t] <= 1 + s.log.requeued[t] + s.log.returned[t]
    ensures s.log.handed[t] <= 2 + 2 * s.log.requeued[t] + s.log.returned[t]
  {
    ReachableSafe(s);
    assert TaskLaws(AccountOf(s.pool, s.log), t);
  }

  /** A task that no departure has put back is stolen at most once and handed out at most twice;
      once it has left the pool and the assignment queues, twice exactly when it was stolen. */
  lemma AtMostTwice(s: Farm, t: TaskId)
    requires Reachable(s) && t in s.log.registered && t !in s.log.requeued && t !in s.log.returned
    ensures s.log.stolen[t] <= 1 && s.log.handed[t] <= 2
    ensures WellKeyed(s.pool)
    ensures t !in s.pool.tasks && t !in Held(s.pool) ==>
      (s.log.handed[t] == if t in s.log.stolen then 2 else 1)
  {
    HandOutsExact(s, t);
    ReachableSafe(s);
    assert TaskLaws(AccountOf(s.pool, s.log), t);
  }

  /** All answers that carry work, over a whole run, are paid for by what came into the pool. */
  lemma HandOutsBounded(s: Farm)
    requires Reachable(s)
    ensures |s.log.handed| <= 2 * (|s.log.registered| + |s.log.requeued| + |s.log.returned| - |s.pool.tasks|)
  {
    ReachableSafe(s);
  }

  /** What assignment queues can still give: two answers per task, less one per non-empty queue. */
  ghost function Potential(s: Farm): nat
    requires WellKeyed(s.pool)
  {
    |Held(s.pool)| + |HeldBehind(s.pool)|
  }

  /** An answer that carries work lowers the potential; nothing but a dispatch raises it. */
  lemma PotentialStep(s: Farm, e: Event)
    requires Sound(s) && InBalance(s) && Enabled(s, e) && !e.RunDispatch?
    ensures Valid(Next(s, e).pool)
    ensures |Next(s, e).log.handed| + Potential(Next(s, e)) <= |s.log.handed| + Potential(s)
    ensures |Next(s, e).log.handed| > |s.log.handed| ==> Potential(Next(s, e)) < Potential(s)
  {
    BalancedStep(s, e);
    if e.Serve? {
      ServePotential(s, e.w);
    } else if e.Membership? {
      MembershipCounts(s.pool, e.running, e.pending);
      var r := OnMembership(s.pool, e.running, e.pending);
      SizeMonotone(Held(r), Held(s.pool));
      SizeMonotone(HeldBehind(r), HeldBehind(s.pool));
    } else if !e.Register? {
      QuietStep(s, e);
    }
  }

  lemma ServePotential(s: Farm, w: WorkerId)
    requires Sound(s) && InBalance(s) && WorkerOf(s, w).channel.Request?
    ensures var s' := Next(s, Serve(w));
      && WellKeyed(s'.pool)
      && |s'.log.handed| + Potential(s') <= |s.log.handed| + Potential(s)
      && (|s'.log.handed| > |s.log.handed| ==> Potential(s') < Potential(s))
  {
    ServeAccount(s, w);
    var s' := Next(s, Serve(w));
    var request, answer := WorkerOf(s, w).channel.packet, WorkerOf(s', w).channel.packet;
    if answer.Task? {
      var a, b := AccountOf(s.pool, s.log), AccountOf(s'.pool, s'.log);
      GrantKeepsSizes(a, b, FinishedBy(s.pool, request), answer.task, s.pool.assignment[w] == []);
    }
  }

  lemma {:induction false} PotentialDrop(s: Farm, events: seq<Event>, r: Farm)
    requires Sound(s) && InBalance(s) && Run(s, events, r) && forall e | e in events :: !e.RunDispatch?
    ensures Sound(r) && |r.log.handed| - |s.log.handed| <= Potential(s) - Potential(r)
    decreases |events|
  {
    if events != [] {
      PotentialStep(s, events[0]);
      BalancedStep(s, events[0]);
      PotentialDrop(Next(s, events[0]), events[1..], r);
    }
  }

  /** Draining: from any reachable state on, as long as nothing is dispatched, the answers that carry
      work number at most twice the tasks then in assignment queues, less one per non-empty queue. */
  lemma Draining(s: Farm, events: seq<Event>, r: Farm)
    requires Reachable(s) && Run(s, events, r) && forall e | e in events :: !e.RunDispatch?
    ensures WellKeyed(s.pool)
    ensures |r.log.handed| - |s.log.handed| <= 2 * |Held(s.pool)| - NonEmpty(s.pool.keys, s.pool.assignment)
  {
    ReachableSafe(s);
    PotentialDrop(s, events, r);
    BehindSize(s.pool.keys, s.pool.assignment);
  }

  function NonEmpty(keys: seq<WorkerId>, queues: Queues): nat
    requires forall k | k in keys :: k in queues
  {
    if keys == [] then 0 else (if queues[keys[0]] != [] then 1 else 0) + NonEmpty(keys[1..], queues)
  }

  lemma {:induction false} BehindSize(keys: seq<WorkerId>, queues: Queues)
    requires forall k | k in keys :: k in queues
    ensures |Collect(Behind, keys, queues)| == |Collect(Whole, keys, queues)| - NonEmpty(keys, queues)
  {
    if keys != [] {
      BehindSize(keys[1..], queues);
    }
  }
}
