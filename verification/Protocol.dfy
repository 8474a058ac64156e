/** Safety of the protocol between the node manager and its workers. */
module Protocol {
  import opened Queues
  import opened Packets
  import opened PoolModel
  import opened PoolLaws
  import opened WorkerModel
  import opened Farm

  /** For every member, both ends agree on what it has been given and in which order. */
  ghost predicate InStep(s: Farm)
    requires Valid(s.pool)
  {
    forall w | w in s.pool.keys :: s.pool.processing[w] == Pipeline(WorkerOf(s, w))
  }

  /** Every task in a worker's queues has an assign_time entry, and no entry lies in the future. */
  ghost predicate Stamped(p: Pool, now: real)
    requires WellKeyed(p)
  {
    && (forall t :: t in Held(p) || t in InHand(p) ==> t in p.assignTime)
    && (forall t | t in p.assignTime :: p.assignTime[t] <= now)
  }

  ghost predicate Sound(s: Farm) {
    && Valid(s.pool)
    && InStep(s)
    && Stamped(s.pool, s.now)
    && forall w :: Orderly(w, WorkerOf(s, w))
  }

  /** The same for one worker alone, whatever the others are up to. */
  ghost predicate SoundAt(s: Farm, w: WorkerId) {
    && Valid(s.pool) && Stamped(s.pool, s.now) && Orderly(w, WorkerOf(s, w))
    && (w in s.pool.keys ==> s.pool.processing[w] == Pipeline(WorkerOf(s, w)))
  }

  /** The task an answer hands out, if any. */
  function Carried(answer: Packet): seq<TaskId> {
    if answer.Task? then [answer.task] else []
  }

  /** Serving a member's heartbeat appends to its processing queue exactly the task sent. */
  lemma HeartBeatShape(p: Pool, w: WorkerId, noHbTask: bool)
    requires Valid(p)
    ensures var (r, answer) := OnHeartBeat(p, w, noHbTask);
      && Valid(r) && r.keys == p.keys && r.assignTime == p.assignTime
      && (answer.Task? || answer == HeartBeat(w, noHbTask))
      && (if w in p.keys then r.processing == p.processing[w := p.processing[w] + Carried(answer)]
          else r == p)
  {
    if w in p.keys {
      NextTaskShape(p, w);
      assert p.processing[w] + [] == p.processing[w];
      assert p.processing[w := p.processing[w]] == p.processing;
    }
  }

  /** Serving a `done` that names the head of the sender's processing queue cannot fail. */
  lemma DoneShape(p: Pool, w: WorkerId, task: TaskId, now: real)
    requires Valid(p)
    requires w in p.keys ==> p.processing[w] != [] && p.processing[w][0] == task && task in p.assignTime
    ensures var (r, outcome) := OnDone(p, w, task, now);
      && Valid(r) && r.assignTime == p.assignTime && r.keys == p.keys
      && outcome.Reply? && (outcome.packet.Task? || outcome.packet == Done(w, task))
      && (if w !in p.keys then r == p && outcome.packet.Done?
          else r.processing == p.processing[w := p.processing[w][1..] + Carried(outcome.packet)])
  {
    if w in p.keys {
      var popped := PopDone(p, w);
      NextTaskShape(popped, w);
      var (r, next) := NextTask(popped, w);
      var rest := p.processing[w][1..];
      if next.None? {
        assert rest + [] == rest;
      } else {
        assert p.processing[w := rest][w := rest + [next.value]] == p.processing[w := rest + [next.value]];
      }
    }
  }

  lemma FirstPending(s: Farm, w: WorkerId)
    requires SoundAt(s, w) && WorkerOf(s, w).channel.Request? && WorkerOf(s, w).channel.packet.Done?
    requires w in s.pool.keys
    ensures var task := WorkerOf(s, w).channel.packet.task;
      && s.pool.processing[w] == [task] + Backlog(WorkerOf(s, w))
      && task in s.pool.assignTime
  {
    var k := WorkerOf(s, w);
    AnswerKeeps(k, w, k.channel.packet);
    var task := k.channel.packet.task;
    assert s.pool.processing[w][0] == task;
    CollectContains(s.pool.keys, s.pool.processing, w);
    assert task in multiset(s.pool.processing[w]);
  }

  /** Serving a request of w when the manager's queue of w is what the request reports, then the rest. */
  lemma PacketShape(p: Pool, w: WorkerId, request: Packet, rest: seq<TaskId>, now: real)
    requires Valid(p) && Own(w, request)
    requires w in p.keys ==> p.processing[w] == (if request.Done? then [request.task] else []) + rest
    requires w in p.keys && request.Done? ==> request.task in p.assignTime
    ensures var (r, outcome) := OnPacket(p, request, now);
      && outcome.Reply? && (outcome.packet.Task? || outcome.packet == request)
      && Valid(r) && r.keys == p.keys && r.assignTime == p.assignTime
      && (if w in p.keys then r.processing == p.processing[w := rest + Carried(outcome.packet)]
          else r == p)
  {
    match request
    case HeartBeat(_, noHbTask) =>
      assert [] + rest == rest;
      HeartBeatShape(p, w, noHbTask);
    case Done(_, task) =>
      assert w in p.keys ==> p.processing[w][1..] == rest;
      DoneShape(p, w, task, now);
  }

  /** Every `done` from a member names the head of its processing queue, and its lookup of the
      assign time succeeds: no request ends in an exception. */
  lemma ServeShape(s: Farm, w: WorkerId)
    requires SoundAt(s, w) && WorkerOf(s, w).channel.Request?
    ensures var k := WorkerOf(s, w);
      var (p', outcome) := OnPacket(s.pool, k.channel.packet, s.now);
      && outcome.Reply? && (outcome.packet.Task? || outcome.packet == k.channel.packet)
      && Valid(p') && p'.keys == s.pool.keys && p'.assignTime == s.pool.assignTime
      && (if w in s.pool.keys
          then p'.processing == s.pool.processing[w := Backlog(k) + Carried(outcome.packet)]
          else p' == s.pool)
  {
    var k := WorkerOf(s, w);
    AnswerKeeps(k, w, k.channel.packet);
    if w in s.pool.keys && k.channel.packet.Done? {
      FirstPending(s, w);
    }
    PacketShape(s.pool, w, k.channel.packet, Backlog(k), s.now);
  }

  /** If the pool's processing queue changes like the worker's pipeline, both ends stay in step. */
  lemma AnswerInStep(s: Farm, w: WorkerId, r: Farm, answer: Packet)
    requires Sound(s) && WorkerOf(s, w).channel.Request? && Valid(r.pool) && r.pool.keys == s.pool.keys
    requires answer.Task? || answer == WorkerOf(s, w).channel.packet
    requires r.workers == s.workers[w := WorkerOf(s, w).(channel := Answer(answer))]
    requires r.pool.processing
          == if w in s.pool.keys then s.pool.processing[w := Backlog(WorkerOf(s, w)) + Carried(answer)]
             else s.pool.processing
    ensures InStep(r) && forall v :: Orderly(v, WorkerOf(r, v))
  {
    forall v
      ensures Orderly(v, WorkerOf(r, v)) && (v in r.pool.keys ==> r.pool.processing[v] == Pipeline(WorkerOf(r, v)))
    {
      if v == w {
        AnswerKeeps(WorkerOf(s, w), w, answer);
      } else {
        assert WorkerOf(r, v) == WorkerOf(s, v) && Orderly(v, WorkerOf(s, v));
      }
    }
  }

  lemma ServeReplies(s: Farm, w: WorkerId)
    requires Valid(s.pool) && WorkerOf(s, w).channel.Request?
    ensures var (r, outcome) := OnPacket(s.pool, WorkerOf(s, w).channel.packet, s.now);
      && Next(s, Serve(w)).pool == r && Next(s, Serve(w)).now == s.now
      && (outcome.Reply? ==>
            Next(s, Serve(w)).workers == s.workers[w := WorkerOf(s, w).(channel := Answer(outcome.packet))])
  {
  }

  lemma ServeInStep(s: Farm, w: WorkerId)
    requires Sound(s) && WorkerOf(s, w).channel.Request?
    ensures var s' := Next(s, Serve(w));
      Valid(s'.pool) && InStep(s') && forall v :: Orderly(v, WorkerOf(s', v))
  {
    ServeShape(s, w);
    ServeReplies(s, w);
    var outcome := OnPacket(s.pool, WorkerOf(s, w).channel.packet, s.now).1;
    AnswerInStep(s, w, Next(s, Serve(w)), outcome.packet);
  }

  lemma WorkerStep(s: Farm, w: WorkerId, k: Worker)
    requires Sound(s) && Orderly(w, k) && (w in s.pool.keys ==> Pipeline(k) == Pipeline(WorkerOf(s, w)))
    ensures Sound(SetWorker(s, w, k))
  {
    var s' := SetWorker(s, w, k);
    forall v
      ensures Orderly(v, WorkerOf(s', v)) && (v in s.pool.keys ==> s.pool.processing[v] == Pipeline(WorkerOf(s', v)))
    {
      if v != w {
        assert WorkerOf(s', v) == WorkerOf(s, v);
      }
    }
  }

  lemma NextTaskStamped(p: Pool, w: WorkerId, now: real)
    requires WellKeyed(p) && w in p.keys && Stamped(p, now)
    ensures var r := NextTask(p, w).0; WellKeyed(r) && Stamped(r, now)
  {
    var (r, task) := NextTask(p, w);
    NextTaskShape(p, w);
    NextTaskCounts(p, w);
    if task.Some? {
      var t := task.value;
      assert t in Held(p) by {
        if p.assignment[w] != [] {
          assert (Held(r) + multiset{t})[t] > 0;
        } else {
          assert (HeldBehind(r) + multiset{t})[t] > 0;
          BehindWithin(p.keys, p.assignment);
        }
      }
      assert forall x :: x in Held(r) ==> x in Held(r) + multiset{t};
    }
  }

  lemma DoneStamped(p: Pool, w: WorkerId, task: TaskId, now: real)
    requires WellKeyed(p) && Stamped(p, now)
    ensures var r := OnDone(p, w, task, now).0; WellKeyed(r) && Stamped(r, now)
  {
    if w in p.running + p.pending && w in p.processing && p.processing[w] != [] {
      PopDoneCounts(p, w);
      var popped := PopDone(p, w);
      assert InHand(popped) <= InHand(p);
      NextTaskStamped(popped, w, now);
    }
  }

  lemma HeartBeatStamped(p: Pool, w: WorkerId, noHbTask: bool, now: real)
    requires WellKeyed(p) && Stamped(p, now)
    ensures var r := OnHeartBeat(p, w, noHbTask).0; WellKeyed(r) && Stamped(r, now)
  {
    if !noHbTask && w in p.keys {
      NextTaskStamped(p, w, now);
    }
  }

  lemma PacketStamped(p: Pool, packet: Packet, now: real)
    requires WellKeyed(p) && Stamped(p, now)
    ensures var r := OnPacket(p, packet, now).0; WellKeyed(r) && Stamped(r, now)
  {
    match packet
    case Done(w, task) => DoneStamped(p, w, task, now);
    case HeartBeat(w, noHbTask) => HeartBeatStamped(p, w, noHbTask, now);
    case Task(_) =>
  }

  function PopDone(p: Pool, w: WorkerId): Pool
    requires WellKeyed(p) && w in p.keys && p.processing[w] != []
  {
    p.(processing := p.processing[w := p.processing[w][1..]], allAssigned := p.allAssigned - 1)
  }

  lemma PopDoneCounts(p: Pool, w: WorkerId)
    requires WellKeyed(p) && w in p.keys && p.processing[w] != []
    ensures WellKeyed(PopDone(p, w)) && InHand(PopDone(p, w)) + multiset{p.processing[w][0]} == InHand(p)
  {
    assert p.processing[w] == [p.processing[w][0]] + p.processing[w][1..];
    CollectLoss(Whole, p.keys, p.processing, w, p.processing[w][1..], multiset{p.processing[w][0]});
  }

  lemma DispatchStamped(p: Pool, now: real)
    requires Valid(p) && Stamped(p, now)
    ensures Stamped(Dispatch(p, now), now)
  {
    var r := Dispatch(p, now);
    DispatchShape(p, now);
    DispatchCounts(p, now);
    forall t
      ensures t in Held(r) ==> t in r.assignTime
      ensures t in InHand(r) ==> t in r.assignTime
      ensures t in r.assignTime ==> r.assignTime[t] <= now
    {
      DispatchStamps(p, now, t);
      assert (Held(r) + multiset(r.tasks))[t] == (Held(p) + multiset(p.tasks))[t];
    }
  }

  lemma DrainedJoinInStep(s: Farm, running: seq<WorkerId>, pending: seq<WorkerId>)
    requires Sound(s) && NoDup(running + pending) && JoinersDrained(s, running, pending)
    ensures InStep(Next(s, Membership(running, pending)))
  {
    var s' := Next(s, Membership(running, pending));
    MembershipShape(s.pool, running, pending);
    forall w | w in s'.pool.keys
      ensures s'.pool.processing[w] == Pipeline(WorkerOf(s', w))
    {
      assert WorkerOf(s', w) == WorkerOf(s, w);
      assert w in s.pool.keys || w in Joined(s.pool, running, pending);
    }
  }

  /** Changing the members keeps both ends in step exactly when every joiner is drained. */
  lemma MembershipInStep(s: Farm, running: seq<WorkerId>, pending: seq<WorkerId>)
    requires Sound(s) && NoDup(running + pending)
    ensures InStep(Next(s, Membership(running, pending))) <==> JoinersDrained(s, running, pending)
  {
    if JoinersDrained(s, running, pending) {
      DrainedJoinInStep(s, running, pending);
    } else {
      var s' := Next(s, Membership(running, pending));
      MembershipShape(s.pool, running, pending);
      var w :| w in Joined(s.pool, running, pending) && Pipeline(WorkerOf(s, w)) != [];
      assert w in s'.pool.keys && w !in s.pool.keys;
      assert WorkerOf(s', w) == WorkerOf(s, w);
    }
  }

  lemma MembershipStamped(p: Pool, running: seq<WorkerId>, pending: seq<WorkerId>, now: real)
    requires Valid(p) && NoDup(running + pending) && Stamped(p, now)
    ensures Stamped(OnMembership(p, running, pending), now)
  {
    var r := OnMembership(p, running, pending);
    MembershipShape(p, running, pending);
    MembershipCounts(p, running, pending);
    assert Held(r) <= Held(p) && InHand(r) <= InHand(p);
  }

  /** A step that leaves every worker process alone keeps their order, and both ends in step if it
      keeps the processing queues. */
  lemma SamePipelines(s: Farm, r: Farm)
    requires Sound(s) && Valid(r.pool) && r.workers == s.workers
    requires r.pool.keys == s.pool.keys && r.pool.processing == s.pool.processing
    ensures InStep(r) && forall w :: Orderly(w, WorkerOf(r, w))
  {
    assert forall w :: WorkerOf(r, w) == WorkerOf(s, w);
  }

  lemma DispatchSound(s: Farm)
    requires Sound(s)
    ensures Sound(Next(s, RunDispatch))
  {
    DispatchShape(s.pool, s.now);
    DispatchStamped(s.pool, s.now);
    SamePipelines(s, Next(s, RunDispatch));
  }

  lemma MembershipSound(s: Farm, running: seq<WorkerId>, pending: seq<WorkerId>)
    requires Sound(s) && NoDup(running + pending) && JoinersDrained(s, running, pending)
    ensures Sound(Next(s, Membership(running, pending)))
  {
    DrainedJoinInStep(s, running, pending);
    MembershipStamped(s.pool, running, pending, s.now);
    var r := Next(s, Membership(running, pending));
    assert forall w :: WorkerOf(r, w) == WorkerOf(s, w);
  }

  lemma TickSound(s: Farm, elapsed: real)
    requires Sound(s) && elapsed >= 0.0
    ensures Sound(Next(s, Tick(elapsed)))
  {
    SamePipelines(s, Next(s, Tick(elapsed)));
  }

  lemma RegisterSound(s: Farm, task: TaskId)
    requires Sound(s) && task !in s.log.registered
    ensures Sound(Next(s, Register(task)))
  {
    SamePipelines(s, Next(s, Register(task)));
  }

  lemma SendSound(s: Farm, w: WorkerId)
    requires Sound(s) && WorkerOf(s, w).channel.Idle? && WorkerOf(s, w).buffer != []
    ensures Sound(Next(s, Send(w)))
  {
    var k := WorkerOf(s, w);
    SendKeeps(k, w);
    WorkerStep(s, w, k.(channel := Request(k.buffer[0]), buffer := k.buffer[1..]));
  }

  lemma ReceiveSound(s: Farm, w: WorkerId)
    requires Sound(s) && WorkerOf(s, w).channel.Answer?
    ensures Sound(Next(s, Receive(w)))
  {
    var k := WorkerOf(s, w);
    ReceiveKeeps(k, w);
    WorkerStep(s, w, OnMessage(k, k.channel.packet).(channel := Idle));
  }

  lemma ServeStamped(s: Farm, w: WorkerId)
    requires Valid(s.pool) && Stamped(s.pool, s.now) && WorkerOf(s, w).channel.Request?
    ensures var r := Next(s, Serve(w)); WellKeyed(r.pool) && Stamped(r.pool, r.now)
  {
    PacketStamped(s.pool, WorkerOf(s, w).channel.packet, s.now);
    ServeReplies(s, w);
    StampedSame(OnPacket(s.pool, WorkerOf(s, w).channel.packet, s.now).0, Next(s, Serve(w)), s.now);
  }

  lemma StampedSame(p: Pool, r: Farm, now: real)
    requires WellKeyed(p) && Stamped(p, now) && r.pool == p && r.now == now
    ensures WellKeyed(r.pool) && Stamped(r.pool, r.now)
  {
  }

  lemma ServeSound(s: Farm, w: WorkerId)
    requires Sound(s) && WorkerOf(s, w).channel.Request?
    ensures Sound(Next(s, Serve(w)))
  {
    ServeInStep(s, w);
    ServeStamped(s, w);
  }

  /** One event keeps everything. */
  lemma SoundStep(s: Farm, e: Event)
    requires Sound(s) && Enabled(s, e)
    ensures Sound(Next(s, e))
  {
    match e
    case Tick(elapsed) => TickSound(s, elapsed);
    case Register(task) => RegisterSound(s, task);
    case RunDispatch => DispatchSound(s);
    case Membership(running, pending) => MembershipSound(s, running, pending);
    case EmitBeat(w) =>
      BeatKeeps(WorkerOf(s, w), w);
      WorkerStep(s, w, Beat(WorkerOf(s, w), w));
    case RunTask(w, succeeds) =>
      WorkKeeps(WorkerOf(s, w), w, succeeds);
      WorkerStep(s, w, Work(WorkerOf(s, w), w, succeeds));
    case Send(w) => SendSound(s, w);
    case Serve(w) => ServeSound(s, w);
    case Receive(w) => ReceiveSound(s, w);
    case Reboot(w) =>
      WorkerStep(s, w, Blank);
  }
}
