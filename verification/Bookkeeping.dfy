/** Conservation laws that hold in every state of every run, departures included. */
module Bookkeeping {
  import opened Queues
  import opened Packets
  import opened PoolModel
  import opened PoolLaws
  import opened WorkerModel
  import opened Farm
  import opened Protocol

  /** The pool's holdings and the record of the run, as multisets. */
  datatype Account = Account(
    tasks: multiset<TaskId>, held: multiset<TaskId>, behind: multiset<TaskId>, inHand: multiset<TaskId>,
    counter: int, log: Log)

  ghost function AccountOf(p: Pool, log: Log): Account
    requires WellKeyed(p)
  {
    Account(multiset(p.tasks), Held(p), HeldBehind(p), InHand(p), p.allAssigned, log)
  }

  /** What was handed out or is still to be handed out: each registration, each theft and each task
      requeued from a processing queue accounts for one copy. */
  ghost predicate HandOutLaw(a: Account, t: TaskId) {
    a.log.handed[t] + a.held[t] + a.tasks[t] == a.log.registered[t] + a.log.stolen[t] + a.log.requeued[t]
  }

  /** What was handed out is finished, being processed, or was requeued while being processed. */
  ghost predicate OutcomeLaw(a: Account, t: TaskId) {
    a.log.handed[t] == a.log.finished[t] + a.inHand[t] + a.log.requeued[t]
  }

  /** A theft uses up a copy that was in the pool or behind a queue's head; such copies come only
      from registering and requeueing. Registered ids are fresh. */
  ghost predicate TheftLaw(a: Account, t: TaskId) {
    && a.log.stolen[t] + a.behind[t] + a.tasks[t] <= a.log.registered[t] + a.log.requeued[t] + a.log.returned[t]
    && a.log.registered[t] <= 1
  }

  ghost predicate TaskLaws(a: Account, t: TaskId) {
    HandOutLaw(a, t) && OutcomeLaw(a, t) && TheftLaw(a, t)
  }

  /** Each dispatch pays for at most two hand-outs, and takes a task that came into the pool. */
  ghost predicate DrainLaw(a: Account) {
    && |a.log.handed| + |a.held| + |a.behind| <= 2 * a.log.dispatched
    && a.log.dispatched + |a.tasks| == |a.log.registered| + |a.log.requeued| + |a.log.returned|
  }

  /** The running counter against what it is said to count. */
  ghost predicate CounterLaw(a: Account) {
    a.counter == |a.held| + |a.inHand| - |a.log.stolen| + |a.log.requeued|
  }

  ghost predicate Balanced(a: Account) {
    DrainLaw(a) && CounterLaw(a) && forall t :: TaskLaws(a, t)
  }

  /** A request answered without work. */
  ghost predicate Refused(a: Account, b: Account, finished: multiset<TaskId>) {
    && b.tasks == a.tasks && b.held == a.held && b.behind == a.behind
    && b.inHand + finished == a.inHand && b.counter == a.counter - |finished|
    && b.log == a.log.(finished := a.log.finished + finished)
  }

  /** A request answered with a task, stolen or not. */
  ghost predicate Granted(a: Account, b: Account, finished: multiset<TaskId>, t: TaskId, theft: bool) {
    && b.tasks == a.tasks
    && (if theft then b.held == a.held && b.behind + multiset{t} == a.behind
        else b.held + multiset{t} == a.held && b.behind <= a.behind)
    && b.inHand + finished == a.inHand + multiset{t} && b.counter == a.counter - |finished|
    && b.log == a.log.(finished := a.log.finished + finished, handed := a.log.handed + multiset{t},
                       stolen := a.log.stolen + Count(theft, t))
  }

  lemma SizeMonotone(a: multiset<TaskId>, b: multiset<TaskId>)
    requires a <= b
    ensures |a| <= |b|
  {
    assert b == a + (b - a);
  }

  lemma RefusalKeeps(a: Account, b: Account, finished: multiset<TaskId>)
    requires Balanced(a) && Refused(a, b, finished)
    ensures Balanced(b)
  {
    assert |b.inHand + finished| == |b.inHand| + |finished|;
    forall x
      ensures TaskLaws(b, x)
    {
      assert TaskLaws(a, x);
      assert a.inHand[x] == (b.inHand + finished)[x];
    }
  }

  lemma GrantKeepsTasks(a: Account, b: Account, finished: multiset<TaskId>, t: TaskId, theft: bool, x: TaskId)
    requires TaskLaws(a, x) && Granted(a, b, finished, t, theft)
    ensures TaskLaws(b, x)
  {
    assert (b.inHand + finished)[x] == (a.inHand + multiset{t})[x];
    if theft {
      assert (b.behind + multiset{t})[x] == a.behind[x];
    } else {
      assert (b.held + multiset{t})[x] == a.held[x] && b.behind[x] <= a.behind[x];
    }
  }

  lemma GrantKeepsSizes(a: Account, b: Account, finished: multiset<TaskId>, t: TaskId, theft: bool)
    requires DrainLaw(a) && CounterLaw(a) && Granted(a, b, finished, t, theft)
    ensures DrainLaw(b) && CounterLaw(b)
    ensures |b.held| + |b.behind| < |a.held| + |a.behind|
  {
    assert |b.inHand + finished| == |a.inHand + multiset{t}|;
    if theft {
      assert |b.behind + multiset{t}| == |a.behind|;
    } else {
      assert |b.held + multiset{t}| == |a.held|;
      SizeMonotone(b.behind, a.behind);
    }
  }

  lemma GrantKeeps(a: Account, b: Account, finished: multiset<TaskId>, t: TaskId, theft: bool)
    requires Balanced(a) && Granted(a, b, finished, t, theft)
    ensures Balanced(b)
  {
    GrantKeepsSizes(a, b, finished, t, theft);
    forall x
      ensures TaskLaws(b, x)
    {
      assert TaskLaws(a, x);
      GrantKeepsTasks(a, b, finished, t, theft, x);
    }
  }

  /** The request in a worker's channel, seen as an account movement. */
  ghost function FinishedBy(p: Pool, request: Packet): multiset<TaskId>
    requires !request.Task?
  {
    if request.Done? then Count(request.sender in p.running + p.pending, request.task) else multiset{}
  }

  lemma HeartBeatAccount(p: Pool, w: WorkerId, noHbTask: bool)
    requires Valid(p)
    ensures var (r, answer) := OnHeartBeat(p, w, noHbTask);
      && r.tasks == p.tasks && r.allAssigned == p.allAssigned && WellKeyed(r)
      && match answer
         case Task(t) =>
           && w in p.keys && InHand(r) == InHand(p) + multiset{t}
           && (if p.assignment[w] == [] then Held(r) == Held(p) && HeldBehind(r) + multiset{t} == HeldBehind(p)
               else Held(r) + multiset{t} == Held(p) && HeldBehind(r) <= HeldBehind(p))
         case _ => r == p
  {
    if w in p.keys {
      NextTaskShape(p, w);
      NextTaskCounts(p, w);
    }
  }

  lemma DoneAccount(p: Pool, w: WorkerId, task: TaskId, now: real)
    requires Valid(p)
    requires w in p.keys ==> p.processing[w] != [] && p.processing[w][0] == task && task in p.assignTime
    ensures var (r, outcome) := OnDone(p, w, task, now);
      && outcome.Reply? && r.tasks == p.tasks && WellKeyed(r)
      && r.allAssigned == p.allAssigned - (if w in p.keys then 1 else 0)
      && match outcome.packet
         case Task(t) =>
           && w in p.keys && InHand(r) + multiset{task} == InHand(p) + multiset{t}
           && (if p.assignment[w] == [] then Held(r) == Held(p) && HeldBehind(r) + multiset{t} == HeldBehind(p)
               else Held(r) + multiset{t} == Held(p) && HeldBehind(r) <= HeldBehind(p))
         case _ =>
           && Held(r) == Held(p) && HeldBehind(r) == HeldBehind(p)
           && InHand(r) + Count(w in p.keys, task) == InHand(p)
  {
    if w in p.keys {
      var popped := PopDone(p, w);
      PopDoneCounts(p, w);
      NextTaskShape(popped, w);
      NextTaskCounts(popped, w);
      var (r, next) := NextTask(popped, w);
      if next.Some? {
        Swap(InHand(p), InHand(popped), InHand(r), task, next.value);
      }
    }
  }

  lemma Swap(a: multiset<TaskId>, b: multiset<TaskId>, c: multiset<TaskId>, gone: TaskId, come: TaskId)
    requires b + multiset{gone} == a && c == b + multiset{come}
    ensures c + multiset{gone} == a + multiset{come}
  {
  }

  lemma Honest(s: Farm, w: WorkerId)
    requires Sound(s) && WorkerOf(s, w).channel.Request?
    ensures var request := WorkerOf(s, w).channel.packet;
      && !request.Task? && request.sender == w
      && (request.Done? && w in s.pool.keys ==>
            s.pool.processing[w] != [] && s.pool.processing[w][0] == request.task && request.task in s.pool.assignTime)
  {
    if WorkerOf(s, w).channel.packet.Done? && w in s.pool.keys {
      FirstPending(s, w);
    }
  }

  lemma ServeParts(s: Farm, w: WorkerId)
    requires Valid(s.pool) && WorkerOf(s, w).channel.Request?
    ensures var s' := Next(s, Serve(w));
      var request := WorkerOf(s, w).channel.packet;
      var (r, outcome) := OnPacket(s.pool, request, s.now);
      && s'.pool == r && s'.log == Served(s.log, s.pool, request, outcome)
      && WorkerOf(s', w).channel == if outcome.Crash? then Closed else Answer(outcome.packet)
  {
  }

  /** Serving a request is one of the two movements. */
  lemma ServeAccount(s: Farm, w: WorkerId)
    requires Sound(s) && WorkerOf(s, w).channel.Request?
    ensures var s' := Next(s, Serve(w));
      var request := WorkerOf(s, w).channel.packet;
      var answer := WorkerOf(s', w).channel;
      && WellKeyed(s'.pool) && answer.Answer? && !request.Task?
      && Movement(s.pool, s.log, s'.pool, s'.log, request, answer.packet)
  {
    Honest(s, w);
    ServeParts(s, w);
    PacketMovement(s.pool, s.log, WorkerOf(s, w).channel.packet, s.now);
  }

  ghost predicate Movement(p: Pool, log: Log, r: Pool, log': Log, request: Packet, answer: Packet)
    requires WellKeyed(p) && WellKeyed(r) && !request.Task?
  {
    var a, b := AccountOf(p, log), AccountOf(r, log');
    var finished := FinishedBy(p, request);
    if answer.Task? then
      request.sender in p.keys && Granted(a, b, finished, answer.task, p.assignment[request.sender] == [])
    else Refused(a, b, finished)
  }

  lemma HeartBeatMovement(p: Pool, log: Log, w: WorkerId, noHbTask: bool)
    requires Valid(p)
    ensures var (r, answer) := OnHeartBeat(p, w, noHbTask);
      var request := HeartBeat(w, noHbTask);
      WellKeyed(r) && Movement(p, log, r, Served(log, p, request, Reply(answer)), request, answer)
  {
    HeartBeatAccount(p, w, noHbTask);
  }

  lemma DoneMovement(p: Pool, log: Log, w: WorkerId, task: TaskId, now: real)
    requires Valid(p)
    requires w in p.keys ==> p.processing[w] != [] && p.processing[w][0] == task && task in p.assignTime
    ensures var (r, outcome) := OnDone(p, w, task, now);
      var request := Done(w, task);
      && outcome.Reply? && WellKeyed(r)
      && Movement(p, log, r, Served(log, p, request, outcome), request, outcome.packet)
  {
    DoneAccount(p, w, task, now);
  }

  lemma PacketMovement(p: Pool, log: Log, request: Packet, now: real)
    requires Valid(p) && !request.Task?
    requires request.Done? && request.sender in p.keys ==>
      && p.processing[request.sender] != [] && p.processing[request.sender][0] == request.task
      && request.task in p.assignTime
    ensures var (r, outcome) := OnPacket(p, request, now);
      && outcome.Reply? && WellKeyed(r)
      && Movement(p, log, r, Served(log, p, request, outcome), request, outcome.packet)
  {
    match request
    case HeartBeat(w, noHbTask) => HeartBeatMovement(p, log, w, noHbTask);
    case Done(w, task) => DoneMovement(p, log, w, task, now);
  }

  lemma MovementKeepsBalance(p: Pool, log: Log, r: Pool, log': Log, request: Packet, answer: Packet)
    requires WellKeyed(p) && WellKeyed(r) && !request.Task? && Movement(p, log, r, log', request, answer)
    requires Balanced(AccountOf(p, log))
    ensures Balanced(AccountOf(r, log'))
  {
    var finished := FinishedBy(p, request);
    if answer.Task? {
      GrantKeeps(AccountOf(p, log), AccountOf(r, log'), finished, answer.task, p.assignment[request.sender] == []);
    } else {
      RefusalKeeps(AccountOf(p, log), AccountOf(r, log'), finished);
    }
  }

  ghost predicate Put(a: Account, b: Account, t: TaskId) {
    && b.held == a.held + multiset{t} && b.behind <= a.behind + multiset{t} && a.tasks == b.tasks + multiset{t}
    && b.inHand == a.inHand && b.counter == a.counter + 1 && b.log == a.log.(dispatched := a.log.dispatched + 1)
  }

  lemma PutKeeps(a: Account, b: Account, t: TaskId)
    requires Balanced(a) && Put(a, b, t)
    ensures Balanced(b)
  {
    SizeMonotone(b.behind, a.behind + multiset{t});
    assert |a.tasks| == |b.tasks + multiset{t}|;
    forall x
      ensures TaskLaws(b, x)
    {
      assert TaskLaws(a, x);
      assert b.behind[x] <= (a.behind + multiset{t})[x] && a.tasks[x] == (b.tasks + multiset{t})[x];
    }
  }

  ghost predicate Requeue(a: Account, b: Account, requeued: multiset<TaskId>, returned: multiset<TaskId>) {
    && a.held == b.held + returned && b.behind <= a.behind && a.inHand == b.inHand + requeued
    && b.tasks == requeued + (a.tasks + returned) && b.counter == a.counter - |returned|
    && b.log == a.log.(requeued := a.log.requeued + requeued, returned := a.log.returned + returned)
  }

  lemma RequeueKeeps(a: Account, b: Account, requeued: multiset<TaskId>, returned: multiset<TaskId>)
    requires Balanced(a) && Requeue(a, b, requeued, returned)
    ensures Balanced(b)
  {
    SizeMonotone(b.behind, a.behind);
    forall x
      ensures TaskLaws(b, x)
    {
      assert TaskLaws(a, x);
      assert a.held[x] == (b.held + returned)[x] && a.inHand[x] == (b.inHand + requeued)[x];
      assert b.behind[x] <= a.behind[x];
    }
  }

  lemma RegisterKeeps(a: Account, b: Account, t: TaskId)
    requires Balanced(a) && t !in a.log.registered
    requires b == a.(tasks := a.tasks + multiset{t}, log := a.log.(registered := a.log.registered + multiset{t}))
    ensures Balanced(b)
  {
    forall x
      ensures TaskLaws(b, x)
    {
      assert TaskLaws(a, x);
    }
  }

  lemma MembershipBalance(p: Pool, log: Log, running: seq<WorkerId>, pending: seq<WorkerId>)
    requires Valid(p) && NoDup(running + pending) && Balanced(AccountOf(p, log))
    ensures var gone := Stopped(p, running, pending);
      && (forall w | w in gone :: w in p.keys)
      && Balanced(AccountOf(OnMembership(p, running, pending), Requeued(log, p, gone)))
  {
    MembershipCounts(p, running, pending);
    var gone := Stopped(p, running, pending);
    var a := AccountOf(p, log);
    var b := AccountOf(OnMembership(p, running, pending), Requeued(log, p, gone));
    RequeueKeeps(a, b, Collect(Whole, gone, p.processing), Collect(Whole, gone, p.assignment));
  }

  lemma DispatchOnePuts(p: Pool, log: Log, now: real)
    requires WellKeyed(p) && p.keys != [] && p.tasks != []
    ensures Put(AccountOf(p, log), AccountOf(DispatchOne(p, now), log.(dispatched := log.dispatched + 1)), p.tasks[0])
  {
    DispatchOneCounts(p, now);
  }

  lemma DispatchOneBalance(p: Pool, log: Log, now: real)
    requires WellKeyed(p) && p.keys != [] && p.tasks != [] && Balanced(AccountOf(p, log))
    ensures Balanced(AccountOf(DispatchOne(p, now), log.(dispatched := log.dispatched + 1)))
  {
    var a, b := AccountOf(p, log), AccountOf(DispatchOne(p, now), log.(dispatched := log.dispatched + 1));
    DispatchOnePuts(p, log, now);
    PutKeeps(a, b, p.tasks[0]);
  }

  lemma DispatchedOnce(p: Pool, log: Log, now: real)
    requires Valid(p) && p.tasks != [] && p.running + p.pending != []
    ensures p.keys != []
    ensures var one, log' := DispatchOne(p, now), log.(dispatched := log.dispatched + 1);
      Valid(one) && Dispatch(p, now) == Dispatch(one, now) && Dispatched(log, p, now) == Dispatched(log', one, now)
  {
    assert (p.running + p.pending)[0] in p.keys;
  }

  lemma DispatchedNothing(p: Pool, log: Log, now: real)
    requires Valid(p) && (p.tasks == [] || p.running + p.pending == [])
    ensures Dispatch(p, now) == p && Dispatched(log, p, now) == log
  {
  }

  lemma {:induction false} DispatchBalance(p: Pool, log: Log, now: real)
    requires Valid(p) && Balanced(AccountOf(p, log))
    ensures Balanced(AccountOf(Dispatch(p, now), Dispatched(log, p, now)))
    decreases |p.tasks|
  {
    if p.tasks == [] || p.running + p.pending == [] {
      DispatchedNothing(p, log, now);
    } else {
      DispatchedOnce(p, log, now);
      DispatchOneBalance(p, log, now);
      DispatchBalance(DispatchOne(p, now), log.(dispatched := log.dispatched + 1), now);
    }
  }

  ghost predicate InBalance(s: Farm)
    requires WellKeyed(s.pool)
  {
    Balanced(AccountOf(s.pool, s.log))
  }

  lemma ServeInBalance(s: Farm, w: WorkerId)
    requires Sound(s) && InBalance(s) && WorkerOf(s, w).channel.Request?
    ensures var s' := Next(s, Serve(w)); WellKeyed(s'.pool) && InBalance(s')
  {
    ServeAccount(s, w);
    var s' := Next(s, Serve(w));
    MovementKeepsBalance(s.pool, s.log, s'.pool, s'.log, WorkerOf(s, w).channel.packet, WorkerOf(s', w).channel.packet);
  }

  lemma QuietStep(s: Farm, e: Event)
    requires Valid(s.pool) && Possible(s, e)
    requires e.Tick? || e.EmitBeat? || e.RunTask? || e.Send? || e.Receive? || e.Reboot?
    ensures Next(s, e).pool == s.pool && Next(s, e).log == s.log
  {
  }

  lemma RegisterInBalance(s: Farm, t: TaskId)
    requires Valid(s.pool) && InBalance(s) && t !in s.log.registered
    ensures InBalance(Next(s, Register(t)))
  {
    var s' := Next(s, Register(t));
    RegisterKeeps(AccountOf(s.pool, s.log), AccountOf(s'.pool, s'.log), t);
  }

  /** One event keeps every law. */
  lemma BalancedStep(s: Farm, e: Event)
    requires Sound(s) && InBalance(s) && Enabled(s, e)
    ensures Sound(Next(s, e)) && InBalance(Next(s, e))
  {
    SoundStep(s, e);
    if e.Serve? {
      ServeInBalance(s, e.w);
    } else if e.Register? {
      RegisterInBalance(s, e.task);
    } else if e.RunDispatch? {
      DispatchBalance(s.pool, s.log, s.now);
    } else if e.Membership? {
      MembershipBalance(s.pool, s.log, e.running, e.pending);
    } else {
      QuietStep(s, e);
    }
  }
}
