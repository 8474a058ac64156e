/** The farm can always finish: nothing it has taken on is ever stuck, as long as some workers are
    members and none of them has failed. */
module Completion {
  import opened Queues
  import opened Packets
  import opened PoolModel
  import opened PoolLaws
  import opened WorkerModel
  import opened Farm
  import opened Protocol
  import opened Bookkeeping
  import opened Runs

  ghost predicate Healthy(s: Farm) {
    Reachable(s) && Valid(s.pool) && s.pool.keys != [] && forall w | w in s.pool.keys :: !WorkerOf(s, w).failed
  }

  ghost predicate Finished(s: Farm)
    requires WellKeyed(s.pool)
  {
    s.pool.tasks == [] && Held(s.pool) == multiset{} && InHand(s.pool) == multiset{}
  }

  ghost predicate MembersStay(events: seq<Event>) {
    forall e | e in events :: !e.Membership?
  }

  /** Some run leads from s to r without a change of the members. */
  ghost predicate Leads(s: Farm, r: Farm) {
    exists events :: Run(s, events, r) && MembersStay(events)
  }

  /** The work at hand can be finished with the members there are. */
  ghost predicate CanFinish(s: Farm) {
    exists r :: Leads(s, r) && WellKeyed(r.pool) && Finished(r)
  }

  lemma LeadsNowhere(s: Farm)
    ensures Leads(s, s)
  {
    assert Run(s, [], s) && MembersStay([]);
  }

  lemma LeadsOn(s: Farm, m: Farm, e: Event)
    requires Leads(s, m) && Valid(m.pool) && Enabled(m, e) && !e.Membership?
    ensures Leads(s, Next(m, e))
  {
    var events :| Run(s, events, m) && MembersStay(events);
    RunAppend(s, events, m, e);
    assert MembersStay(events + [e]);
  }

  lemma LeadsFar(s: Farm, m: Farm, r: Farm)
    requires Leads(s, m) && Leads(m, r)
    ensures Leads(s, r)
  {
    var first :| Run(s, first, m) && MembersStay(first);
    var second :| Run(m, second, r) && MembersStay(second);
    RunConcat(s, first, m, second, r);
    assert MembersStay(first + second);
  }

  lemma {:induction false} RunConcat(s: Farm, first: seq<Event>, m: Farm, second: seq<Event>, r: Farm)
    requires Run(s, first, m) && Run(m, second, r)
    ensures Run(s, first + second, r)
    decreases |first|
  {
    if first == [] {
      assert first + second == second;
    } else {
      assert (first + second)[1..] == first[1..] + second;
      RunConcat(Next(s, first[0]), first[1..], m, second, r);
    }
  }

  /** How many steps a worker still owes: sending, being answered, receiving, running. */
  function Owed(k: Worker): nat {
    (match k.channel
     case Idle => 0
     case Request(_) => 3
     case Answer(packet) => if packet.Task? then 6 else 1
     case Closed => 0)
    + 4 * |k.buffer| + 5 * |k.queue|
  }

  function TotalOwed(s: Farm, keys: seq<WorkerId>): nat {
    if keys == [] then 0 else Owed(WorkerOf(s, keys[0])) + TotalOwed(s, keys[1..])
  }

  ghost function Measure(s: Farm): nat
    requires Valid(s.pool)
  {
    21 * |s.pool.tasks| + 10 * Potential(s) + TotalOwed(s, s.pool.keys)
  }

  lemma {:induction false} TotalOwedSame(a: Farm, b: Farm, keys: seq<WorkerId>)
    requires forall w | w in keys :: WorkerOf(a, w) == WorkerOf(b, w)
    ensures TotalOwed(a, keys) == TotalOwed(b, keys)
  {
    if keys != [] {
      TotalOwedSame(a, b, keys[1..]);
    }
  }

  lemma {:induction false} TotalOwedChange(a: Farm, b: Farm, keys: seq<WorkerId>, w: WorkerId)
    requires NoDup(keys) && w in keys && forall v | v != w :: WorkerOf(a, v) == WorkerOf(b, v)
    ensures TotalOwed(b, keys) - TotalOwed(a, keys) == Owed(WorkerOf(b, w)) - Owed(WorkerOf(a, w))
  {
    NoDupTail(keys);
    if keys[0] == w {
      TotalOwedSame(a, b, keys[1..]);
    } else {
      TotalOwedChange(a, b, keys[1..], w);
    }
  }

  /** One event that brings the end nearer, and keeps the farm healthy. */
  ghost predicate Nearer(s: Farm, r: Farm) {
    && Valid(s.pool) && Healthy(r) && r.pool.keys == s.pool.keys
    && r.log.registered == s.log.registered && Measure(r) < Measure(s)
  }

  /** A worker's own event: the pool stays, the worker owes less or more. */
  lemma WorkerEvent(s: Farm, e: Event, w: WorkerId) returns (r: Farm)
    requires Healthy(s) && w in s.pool.keys && Enabled(s, e)
    requires e == EmitBeat(w) || e == RunTask(w, true) || e == Send(w) || e == Receive(w)
    ensures r == Next(s, e) && Healthy(r) && r.pool == s.pool && r.log == s.log
    ensures Measure(r) - Measure(s) == Owed(WorkerOf(r, w)) - Owed(WorkerOf(s, w))
  {
    Extend(s, e);
    r := Next(s, e);
    OnlyOneWorker(s, e, w);
    TotalOwedChange(s, r, s.pool.keys, w);
  }

  lemma OnlyOneWorker(s: Farm, e: Event, w: WorkerId)
    requires Valid(s.pool) && Possible(s, e)
    requires e == EmitBeat(w) || e == RunTask(w, true) || e == Send(w) || e == Receive(w)
    ensures var r := Next(s, e);
      && r.pool == s.pool && r.log == s.log && (WorkerOf(s, w).failed <==> WorkerOf(r, w).failed)
      && forall v | v != w :: WorkerOf(r, v) == WorkerOf(s, v)
  {
  }

  /** What serving w's request comes to: an answer with work uses up potential. */
  ghost predicate Answered(s: Farm, r: Farm, w: WorkerId) {
    && Valid(s.pool) && Valid(r.pool) && r.pool.keys == s.pool.keys
    && |r.pool.tasks| == |s.pool.tasks| && r.log.registered == s.log.registered
    && WorkerOf(s, w).channel.Request? && WorkerOf(r, w).channel.Answer?
    && WorkerOf(r, w) == WorkerOf(s, w).(channel := WorkerOf(r, w).channel)
    && (forall v | v != w :: WorkerOf(r, v) == WorkerOf(s, v))
    && (if WorkerOf(r, w).channel.packet.Task? then Potential(r) < Potential(s) else Potential(r) == Potential(s))
  }

  lemma ServeWorkers(s: Farm, w: WorkerId)
    requires Valid(s.pool) && WorkerOf(s, w).channel.Request?
    ensures var r := Next(s, Serve(w));
      && WorkerOf(r, w) == WorkerOf(s, w).(channel := WorkerOf(r, w).channel)
      && forall v | v != w :: WorkerOf(r, v) == WorkerOf(s, v)
  {
  }

  lemma ServedPotential(p: Pool, log: Log, r: Pool, log': Log, request: Packet, answer: Packet)
    requires WellKeyed(p) && WellKeyed(r) && !request.Task? && Movement(p, log, r, log', request, answer)
    requires Balanced(AccountOf(p, log))
    ensures |r.tasks| == |p.tasks| && log'.registered == log.registered
    ensures if answer.Task? then |Held(r)| + |HeldBehind(r)| < |Held(p)| + |HeldBehind(p)|
            else |Held(r)| + |HeldBehind(r)| == |Held(p)| + |HeldBehind(p)|
  {
    assert |multiset(r.tasks)| == |multiset(p.tasks)|;
    if answer.Task? {
      var a, b, theft := AccountOf(p, log), AccountOf(r, log'), p.assignment[request.sender] == [];
      GrantKeepsSizes(a, b, FinishedBy(p, request), answer.task, theft);
    }
  }

  lemma ServeSpends(s: Farm, w: WorkerId)
    requires Sound(s) && InBalance(s) && WorkerOf(s, w).channel.Request?
    ensures var r := Next(s, Serve(w));
      && WellKeyed(r.pool) && WorkerOf(r, w).channel.Answer?
      && |r.pool.tasks| == |s.pool.tasks| && r.log.registered == s.log.registered
      && (if WorkerOf(r, w).channel.packet.Task? then Potential(r) < Potential(s) else Potential(r) == Potential(s))
  {
    var r := Next(s, Serve(w));
    ServeAccount(s, w);
    ServedPotential(s.pool, s.log, r.pool, r.log, WorkerOf(s, w).channel.packet, WorkerOf(r, w).channel.packet);
  }

  lemma ServeKeys(s: Farm, w: WorkerId)
    requires Sound(s) && WorkerOf(s, w).channel.Request?
    ensures var r := Next(s, Serve(w)); Valid(r.pool) && r.pool.keys == s.pool.keys
  {
    ServeShape(s, w);
    ServeParts(s, w);
  }

  lemma ServeAnswers(s: Farm, w: WorkerId)
    requires Sound(s) && InBalance(s) && WorkerOf(s, w).channel.Request?
    ensures Answered(s, Next(s, Serve(w)), w)
  {
    ServeKeys(s, w);
    ServeWorkers(s, w);
    ServeSpends(s, w);
  }

  lemma OwedAnswer(k: Worker, packet: Packet)
    requires k.channel.Request?
    ensures Owed(k.(channel := Answer(packet))) - Owed(k) == if packet.Task? then 3 else -2
  {
  }

  lemma AnsweredNearer(s: Farm, r: Farm, w: WorkerId)
    requires Answered(s, r, w) && w in s.pool.keys
    ensures Measure(r) < Measure(s)
    ensures WorkerOf(r, w).channel.packet.Task? ==> Measure(r) <= Measure(s) - 7
  {
    OwedAnswer(WorkerOf(s, w), WorkerOf(r, w).channel.packet);
    TotalOwedChange(s, r, s.pool.keys, w);
  }

  lemma ServeEvent(s: Farm, w: WorkerId) returns (r: Farm)
    requires Healthy(s) && w in s.pool.keys && WorkerOf(s, w).channel.Request?
    ensures r == Next(s, Serve(w)) && Answered(s, r, w) && Nearer(s, r)
    ensures WorkerOf(r, w).channel.packet.Task? ==> Measure(r) <= Measure(s) - 7
  {
    ReachableSafe(s);
    Extend(s, Serve(w));
    ServeAnswers(s, w);
    r := Next(s, Serve(w));
    AnsweredNearer(s, r, w);
    AnsweredHealthy(s, r, w);
  }

  lemma AnsweredHealthy(s: Farm, r: Farm, w: WorkerId)
    requires Healthy(s) && Answered(s, r, w) && Reachable(r)
    ensures Healthy(r)
  {
    forall v | v in r.pool.keys
      ensures !WorkerOf(r, v).failed
    {
      assert !WorkerOf(s, v).failed;
    }
  }

  /** A task that moves from the pool into a queue costs less there. */
  lemma DispatchSpends(p: Pool, now: real)
    requires Valid(p)
    ensures var r := Dispatch(p, now);
      && |Held(r)| + |r.tasks| == |Held(p)| + |p.tasks|
      && |HeldBehind(r)| + |r.tasks| <= |HeldBehind(p)| + |p.tasks|
  {
    var r := Dispatch(p, now);
    DispatchCounts(p, now);
    assert |Held(r) + multiset(r.tasks)| == |Held(p) + multiset(p.tasks)|;
    SizeMonotone(HeldBehind(r) + multiset(r.tasks), HeldBehind(p) + multiset(p.tasks));
  }

  lemma DispatchNearer(s: Farm, r: Farm)
    requires Valid(s.pool) && s.pool.tasks != [] && s.pool.keys != []
    requires r.pool == Dispatch(s.pool, s.now) && r.workers == s.workers
    ensures r.pool.keys == s.pool.keys && Measure(r) < Measure(s)
  {
    DispatchShape(s.pool, s.now);
    DispatchSpends(s.pool, s.now);
    TotalOwedSame(s, r, s.pool.keys);
  }

  lemma SameWorkersHealthy(s: Farm, r: Farm)
    requires Healthy(s) && Reachable(r) && Valid(r.pool) && r.pool.keys == s.pool.keys && r.workers == s.workers
    ensures Healthy(r)
  {
    assert forall v :: WorkerOf(r, v) == WorkerOf(s, v);
  }

  lemma DispatchEvent(s: Farm) returns (r: Farm)
    requires Healthy(s) && s.pool.tasks != []
    ensures r == Next(s, RunDispatch) && Nearer(s, r)
  {
    Extend(s, RunDispatch);
    r := Next(s, RunDispatch);
    DispatchNearer(s, r);
    SameWorkersHealthy(s, r);
  }

  ghost predicate Quiet(k: Worker) {
    k.channel.Idle? && k.buffer == [] && k.queue == []
  }

  /** Receiving, sending and running each lower what the worker owes. */
  lemma OwnStepsOwe(k: Worker, w: WorkerId)
    ensures k.channel.Answer? ==> Owed(OnMessage(k, k.channel.packet).(channel := Idle)) < Owed(k)
    ensures k.channel.Idle? && k.buffer != [] ==>
      Owed(k.(channel := Request(k.buffer[0]), buffer := k.buffer[1..])) < Owed(k)
    ensures k.queue != [] && !k.failed && k.current.None? ==> Owed(Work(k, w, true)) < Owed(k)
  {
  }

  lemma OwnEvent(s: Farm, w: WorkerId) returns (e: Event)
    requires Valid(s.pool) && Orderly(w, WorkerOf(s, w)) && !WorkerOf(s, w).failed
    requires !Quiet(WorkerOf(s, w)) && !WorkerOf(s, w).channel.Request?
    ensures e == RunTask(w, true) || e == Send(w) || e == Receive(w)
    ensures Enabled(s, e) && Owed(WorkerOf(Next(s, e), w)) < Owed(WorkerOf(s, w))
  {
    var k := WorkerOf(s, w);
    OwnStepsOwe(k, w);
    e := if k.channel.Answer? then Receive(w) else if k.buffer != [] then Send(w) else RunTask(w, true);
  }

  /** A worker that is not quiet has an event that brings the end nearer. */
  lemma BusyWorker(s: Farm, w: WorkerId) returns (e: Event, r: Farm)
    requires Healthy(s) && w in s.pool.keys && !Quiet(WorkerOf(s, w))
    ensures Enabled(s, e) && r == Next(s, e) && Nearer(s, r) && !e.Membership?
  {
    if WorkerOf(s, w).channel.Request? {
      e := Serve(w);
      r := ServeEvent(s, w);
    } else {
      ReachableSafe(s);
      e := OwnEvent(s, w);
      r := WorkerEvent(s, e, w);
    }
  }

  /** A quiet worker asks: its next heartbeat requests work, and costs three steps until it is sent. */
  lemma QuietAsks(k: Worker, w: WorkerId)
    requires Orderly(w, k) && Quiet(k) && !k.failed
    ensures Beat(k, w).buffer == [HeartBeat(w, false)] && Owed(Beat(k, w)) == Owed(k) + 4
    ensures Owed(Beat(k, w).(channel := Request(HeartBeat(w, false)), buffer := [])) == Owed(k) + 3
  {
    assert Pipeline(k) == [];
  }

  lemma RequestIsGranted(s: Farm, w: WorkerId)
    requires Valid(s.pool) && w in s.pool.keys && s.pool.assignment[w] != []
    requires WorkerOf(s, w).channel == Request(HeartBeat(w, false))
    ensures WorkerOf(Next(s, Serve(w)), w).channel.Answer? && WorkerOf(Next(s, Serve(w)), w).channel.packet.Task?
  {
    NextTaskShape(s.pool, w);
    ServeParts(s, w);
  }

  /** A quiet worker's request, as far as the channel. */
  lemma SendRequest(s: Farm, w: WorkerId) returns (r: Farm)
    requires Healthy(s) && w in s.pool.keys && Quiet(WorkerOf(s, w))
    ensures Leads(s, r) && Healthy(r) && r.pool == s.pool && r.log == s.log && Measure(r) == Measure(s) + 3
    ensures WorkerOf(r, w).channel == Request(HeartBeat(w, false))
  {
    ReachableSafe(s);
    QuietAsks(WorkerOf(s, w), w);
    LeadsNowhere(s);
    var beaten := WorkerEvent(s, EmitBeat(w), w);
    LeadsOn(s, s, EmitBeat(w));
    assert WorkerOf(beaten, w) == Beat(WorkerOf(s, w), w);
    r := WorkerEvent(beaten, Send(w), w);
    LeadsOn(s, beaten, Send(w));
    assert WorkerOf(r, w) == Beat(WorkerOf(s, w), w).(channel := Request(HeartBeat(w, false)), buffer := []);
  }

  /** When all members are quiet, one that has work assigned asks, and gets a task. */
  lemma AskForWork(s: Farm, w: WorkerId) returns (r: Farm)
    requires Healthy(s) && w in s.pool.keys && Quiet(WorkerOf(s, w)) && s.pool.assignment[w] != []
    ensures Leads(s, r) && Nearer(s, r)
  {
    var asking := SendRequest(s, w);
    RequestIsGranted(asking, w);
    r := ServeEvent(asking, w);
    LeadsOn(s, asking, Serve(w));
  }

  lemma NothingHeld(s: Farm)
    requires Sound(s) && s.pool.tasks == []
    requires forall w | w in s.pool.keys ::
      Quiet(WorkerOf(s, w)) && !WorkerOf(s, w).failed && s.pool.assignment[w] == []
    ensures Finished(s)
  {
    assert forall w | w in s.pool.keys :: s.pool.processing[w] == [];
    EmptyQueues(s.pool.keys, s.pool.assignment);
    EmptyQueues(s.pool.keys, s.pool.processing);
  }

  lemma Advance(s: Farm) returns (r: Farm)
    requires Healthy(s) && !Finished(s)
    ensures Leads(s, r) && Nearer(s, r)
  {
    LeadsNowhere(s);
    if s.pool.tasks != [] {
      r := DispatchEvent(s);
      LeadsOn(s, s, RunDispatch);
    } else if w :| w in s.pool.keys && !Quiet(WorkerOf(s, w)) {
      var e;
      e, r := BusyWorker(s, w);
      LeadsOn(s, s, e);
    } else if w :| w in s.pool.keys && s.pool.assignment[w] != [] {
      r := AskForWork(s, w);
    } else {
      ReachableSafe(s);
      NothingHeld(s);
      assert false;
    }
  }

  lemma AllFinished(s: Farm)
    requires Reachable(s) && WellKeyed(s.pool) && Finished(s)
    ensures s.log.finished == s.log.registered + s.log.stolen
  {
    Conservation(s);
    assert multiset(s.pool.tasks) == multiset{};
  }

  /** From every reachable state with members none of whom has failed, some run finishes every task:
      the pool and all queues are empty, every registered task has been reported done, once more for
      each time it was stolen, and nothing was registered and nobody left on the way. */
  lemma CanAlwaysFinish(s: Farm) returns (r: Farm)
    requires Healthy(s)
    ensures Leads(s, r) && Healthy(r) && Finished(r)
    ensures r.pool.keys == s.pool.keys && r.log.registered == s.log.registered
    ensures r.log.finished == s.log.registered + r.log.stolen
    decreases Measure(s)
  {
    if Finished(s) {
      r := s;
      LeadsNowhere(s);
      AllFinished(s);
    } else {
      var m := Advance(s);
      r := CanAlwaysFinish(m);
      LeadsFar(s, m, r);
    }
  }

  lemma KeysStay(s: Farm, e: Event)
    requires Sound(s) && Enabled(s, e) && !e.Membership?
    ensures Next(s, e).pool.keys == s.pool.keys
  {
    if e.Serve? {
      ServeKeys(s, e.w);
    } else if e.RunDispatch? {
      DispatchShape(s.pool, s.now);
    } else if !e.Register? {
      QuietStep(s, e);
    }
  }

  lemma FailureStays(s: Farm, e: Event, w: WorkerId)
    requires Valid(s.pool) && Possible(s, e) && !(e.Reboot? && e.w == w)
    ensures WorkerOf(s, w).failed ==> WorkerOf(Next(s, e), w).failed
  {
  }

  lemma {:induction false} FailedBlocks(s: Farm, events: seq<Event>, r: Farm, w: WorkerId)
    requires Sound(s) && w in s.pool.keys && WorkerOf(s, w).failed && Run(s, events, r) && MembersStay(events)
    ensures WellKeyed(r.pool) && !Finished(r)
    decreases |events|
  {
    if events == [] {
      assert s.pool.processing[w] != [];
      CollectContains(s.pool.keys, s.pool.processing, w);
      assert s.pool.processing[w][0] in multiset(s.pool.processing[w]);
    } else {
      SoundStep(s, events[0]);
      KeysStay(s, events[0]);
      FailureStays(s, events[0], w);
      FailedBlocks(Next(s, events[0]), events[1..], r, w);
    }
  }

  lemma DesertedStep(s: Farm, e: Event)
    requires Sound(s) && InBalance(s) && Enabled(s, e) && !e.Membership? && s.pool.keys == []
    ensures |Next(s, e).pool.tasks| >= |s.pool.tasks|
  {
    if e.Serve? {
      ServeSpends(s, e.w);
    } else if e.RunDispatch? {
      DispatchShape(s.pool, s.now);
    } else if !e.Register? {
      QuietStep(s, e);
    }
  }

  lemma {:induction false} DesertedBlocks(s: Farm, events: seq<Event>, r: Farm)
    requires Sound(s) && InBalance(s) && s.pool.keys == [] && s.pool.tasks != []
    requires Run(s, events, r) && MembersStay(events)
    ensures WellKeyed(r.pool) && !Finished(r)
    decreases |events|
  {
    if events != [] {
      DesertedStep(s, events[0]);
      KeysStay(s, events[0]);
      BalancedStep(s, events[0]);
      DesertedBlocks(Next(s, events[0]), events[1..], r);
    }
  }

  /** No deadlock: the work at hand can be finished with the members there are exactly when none of
      them has failed, and there is one if any task waits. */
  lemma FinishesExactlyWhen(s: Farm)
    requires Reachable(s)
    ensures CanFinish(s) <==>
      (s.pool.keys == [] ==> s.pool.tasks == []) && forall w | w in s.pool.keys :: !WorkerOf(s, w).failed
  {
    ReachableSafe(s);
    if CanFinish(s) {
      var r :| Leads(s, r) && WellKeyed(r.pool) && Finished(r);
      var events :| Run(s, events, r) && MembersStay(events);
      if w :| w in s.pool.keys && WorkerOf(s, w).failed {
        FailedBlocks(s, events, r, w);
      }
      if s.pool.keys == [] && s.pool.tasks != [] {
        DesertedBlocks(s, events, r);
      }
    } else if s.pool.keys != [] {
      if forall w | w in s.pool.keys :: !WorkerOf(s, w).failed {
        var _ := CanAlwaysFinish(s);
        assert false;
      }
    } else if s.pool.tasks == [] {
      NothingHeld(s);
      LeadsNowhere(s);
      assert false;
    }
  }

  lemma MembersAfter(s: Farm, running: seq<WorkerId>, pending: seq<WorkerId>, w: WorkerId)
    requires Valid(s.pool) && NoDup(running + pending)
    ensures var r := Next(s, Membership(running, pending));
      && WorkerOf(r, w) == WorkerOf(s, w) && (w in r.pool.keys <==> w in running + pending)
      && (w in r.pool.keys && w !in s.pool.keys ==> w in Joined(s.pool, running, pending))
  {
    MembershipParts(s, running, pending);
  }

  lemma DrainedNotFailed(s: Farm, w: WorkerId)
    requires Sound(s) && Pipeline(WorkerOf(s, w)) == []
    ensures !WorkerOf(s, w).failed
  {
    assert Orderly(w, WorkerOf(s, w));
  }

  /** What failed workers hold is not lost: once they have been dropped from the members, and at least
      one worker is left or has joined, everything can be finished. */
  lemma ReplacingFailedWorkers(s: Farm, running: seq<WorkerId>, pending: seq<WorkerId>)
    requires Reachable(s) && Valid(s.pool) && Enabled(s, Membership(running, pending)) && running + pending != []
    requires forall w | w in s.pool.keys && WorkerOf(s, w).failed :: w !in running + pending
    ensures CanFinish(Next(s, Membership(running, pending)))
  {
    var r := Next(s, Membership(running, pending));
    ReachableSafe(s);
    Extend(s, Membership(running, pending));
    MembersAfter(s, running, pending, (running + pending)[0]);
    forall w | w in r.pool.keys
      ensures !WorkerOf(r, w).failed
    {
      MembersAfter(s, running, pending, w);
      if w !in s.pool.keys {
        DrainedNotFailed(s, w);
      }
    }
    FinishesExactlyWhen(r);
  }
}
