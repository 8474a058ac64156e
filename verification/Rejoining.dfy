/** What taking back a worker with unfinished business can lead to: exactly when its connection can be
    closed by an exception. */
module Rejoining {
  import opened Queues
  import opened Packets
  import opened PoolModel
  import opened PoolLaws
  import opened WorkerModel
  import opened Farm
  import opened Protocol
  import opened Runs
  import opened Completion

  /** Some run closes the worker's connection. */
  ghost predicate CanClose(s: Farm, w: WorkerId) {
    exists events, r :: Run(s, events, r) && WorkerOf(r, w).channel.Closed?
  }

  /** A report is in the worker's buffer or channel, or it is going to make one. */
  ghost predicate CanReport(k: Worker) {
    Front(k.channel) != [] || DoneTasks(k.buffer) != [] || (!k.failed && (k.queue != [] || Rear(k.channel) != []))
  }

  /** Everybody sends under its own name. */
  ghost predicate Honest(w: WorkerId, k: Worker) {
    && (k.channel.Request? ==> Own(w, k.channel.packet))
    && (forall i | 0 <= i < |k.buffer| :: Own(w, k.buffer[i]))
  }

  /** What holds whoever has joined in whatever state. */
  ghost predicate Sane(s: Farm) {
    Valid(s.pool) && Stamped(s.pool, s.now) && forall v :: Honest(v, WorkerOf(s, v))
  }

  lemma HonestStep(s: Farm, e: Event, v: WorkerId)
    requires Valid(s.pool) && Enabled(s, e) && Honest(v, WorkerOf(s, v))
    ensures Honest(v, WorkerOf(Next(s, e), v))
  {
  }

  /** Serving a packet of one worker, in or out of step, leaves everybody else's processing queue alone. */
  lemma PacketElsewhere(p: Pool, v: WorkerId, packet: Packet, now: real, w: WorkerId)
    requires Valid(p) && Own(v, packet)
    ensures var r := OnPacket(p, packet, now).0;
      && Valid(r) && r.keys == p.keys
      && (w != v && w in p.keys ==> r.processing[w] == p.processing[w])
  {
    match packet
    case HeartBeat(_, noHbTask) =>
      if v in p.keys {
        NextTaskShape(p, v);
      }
    case Done(_, task) =>
      if v in p.keys && p.processing[v] != [] {
        NextTaskShape(PopDone(p, v), v);
      }
  }

  lemma PacketEverywhere(p: Pool, v: WorkerId, packet: Packet, now: real)
    requires Valid(p) && Own(v, packet)
    ensures var r := OnPacket(p, packet, now).0;
      && Valid(r) && r.keys == p.keys
      && forall w | w in p.keys && w != v :: r.processing[w] == p.processing[w]
  {
    PacketElsewhere(p, v, packet, now, v);
    forall w | w in p.keys && w != v
      ensures OnPacket(p, packet, now).0.processing[w] == p.processing[w]
    {
      PacketElsewhere(p, v, packet, now, w);
    }
  }

  /** Serving v changes at most v's processing queue, and every queued task keeps its stamp. */
  ghost predicate PoolKept(p: Pool, r: Pool, v: WorkerId, now: real) {
    && Valid(p) && Valid(r) && r.keys == p.keys && Stamped(r, now)
    && forall w | w in p.keys && w != v :: r.processing[w] == p.processing[w]
  }

  lemma PacketKept(p: Pool, v: WorkerId, packet: Packet, now: real)
    requires Valid(p) && Stamped(p, now) && Own(v, packet)
    ensures PoolKept(p, OnPacket(p, packet, now).0, v, now)
  {
    PacketStamped(p, packet, now);
    PacketEverywhere(p, v, packet, now);
  }

  lemma ServeSane(s: Farm, v: WorkerId)
    requires Sane(s) && WorkerOf(s, v).channel.Request?
    ensures PoolKept(s.pool, Next(s, Serve(v)).pool, v, s.now) && Next(s, Serve(v)).now == s.now
  {
    assert Honest(v, WorkerOf(s, v));
    PacketKept(s.pool, v, WorkerOf(s, v).channel.packet, s.now);
    ServeReplies(s, v);
  }

  lemma PoolSane(s: Farm, e: Event)
    requires Sane(s) && Enabled(s, e) && !e.Serve?
    ensures Valid(Next(s, e).pool) && Stamped(Next(s, e).pool, Next(s, e).now)
  {
    match e
    case RunDispatch => DispatchStamped(s.pool, s.now);
    case Membership(running, pending) => MembershipStamped(s.pool, running, pending, s.now);
    case _ =>
  }

  lemma SaneStep(s: Farm, e: Event)
    requires Sane(s) && Enabled(s, e)
    ensures Sane(Next(s, e))
  {
    if e.Serve? {
      ServeSane(s, e.w);
    } else {
      PoolSane(s, e);
    }
    forall v
      ensures Honest(v, WorkerOf(Next(s, e), v))
    {
      HonestStep(s, e, v);
    }
  }

  /** An event that does not touch the worker's process: its own steps and its reboot are the others. */
  ghost predicate Elsewhere(e: Event, w: WorkerId) {
    e.Tick? || e.Register? || e.RunDispatch? || e.Membership? || e.w != w
  }

  lemma SameWorker(s: Farm, e: Event, w: WorkerId)
    requires Valid(s.pool) && Enabled(s, e) && Elsewhere(e, w)
    ensures WorkerOf(Next(s, e), w) == WorkerOf(s, w)
  {
  }

  lemma SafeElsewhere(s: Farm, e: Event, w: WorkerId)
    requires Sane(s) && SoundAt(s, w) && Enabled(s, e) && Elsewhere(e, w)
    ensures SoundAt(Next(s, e), w)
  {
    SaneStep(s, e);
    SameWorker(s, e, w);
    match e
    case Serve(v) => ServeSane(s, v);
    case RunDispatch => DispatchShape(s.pool, s.now);
    case Membership(running, pending) =>
      MembershipShape(s.pool, running, pending);
      assert w in Next(s, e).pool.keys && w !in s.pool.keys ==> w in Joined(s.pool, running, pending);
    case _ =>
  }

  lemma OwnStepKeeps(s: Farm, e: Event, w: WorkerId)
    requires Sane(s) && SoundAt(s, w) && Enabled(s, e)
    requires e.EmitBeat? || e.RunTask? || e.Send? || e.Receive? || e.Reboot?
    requires e.w == w
    ensures SoundAt(Next(s, e), w)
  {
    var k := WorkerOf(s, w);
    match e
    case EmitBeat(_) => BeatKeeps(k, w);
    case RunTask(_, succeeds) => WorkKeeps(k, w, succeeds);
    case Send(_) => SendKeeps(k, w);
    case Receive(_) => ReceiveKeeps(k, w);
    case Reboot(_) =>
  }

  lemma ServedKeeps(s: Farm, w: WorkerId)
    requires Sane(s) && SoundAt(s, w) && WorkerOf(s, w).channel.Request?
    ensures SoundAt(Next(s, Serve(w)), w)
  {
    SaneStep(s, Serve(w));
    ServeShape(s, w);
    ServeReplies(s, w);
    AnswerKeeps(WorkerOf(s, w), w, OnPacket(s.pool, WorkerOf(s, w).channel.packet, s.now).1.packet);
  }

  /** A worker that is in step stays so, however the others are. */
  lemma SafeStep(s: Farm, e: Event, w: WorkerId)
    requires Sane(s) && SoundAt(s, w) && Enabled(s, e)
    ensures Sane(Next(s, e)) && SoundAt(Next(s, e), w)
  {
    SaneStep(s, e);
    if Elsewhere(e, w) {
      SafeElsewhere(s, e, w);
    } else if e.Serve? {
      ServedKeeps(s, w);
    } else {
      OwnStepKeeps(s, e, w);
    }
  }

  /** A worker whose loop has ended, with no report left to send. */
  ghost predicate Mute(k: Worker) {
    k.failed && Front(k.channel) == [] && DoneTasks(k.buffer) == [] && !k.channel.Closed?
  }

  lemma MuteServed(s: Farm, w: WorkerId)
    requires Sane(s) && Mute(WorkerOf(s, w)) && WorkerOf(s, w).channel.Request?
    ensures Mute(WorkerOf(Next(s, Serve(w)), w))
  {
    assert WorkerOf(s, w).channel.packet.HeartBeat?;
    ServeReplies(s, w);
  }

  lemma MuteSends(k: Worker)
    requires Mute(k) && k.buffer != []
    ensures Mute(k.(channel := Request(k.buffer[0]), buffer := k.buffer[1..]))
  {
    assert k.buffer == [k.buffer[0]] + k.buffer[1..];
    DoneTasksAppend([k.buffer[0]], k.buffer[1..]);
  }

  lemma MuteStep(s: Farm, e: Event, w: WorkerId)
    requires Sane(s) && Mute(WorkerOf(s, w)) && Enabled(s, e)
    ensures Mute(WorkerOf(Next(s, e), w)) || (Sane(Next(s, e)) && SoundAt(Next(s, e), w))
  {
    var k := WorkerOf(s, w);
    if Elsewhere(e, w) {
      SameWorker(s, e, w);
    } else {
      match e
      case EmitBeat(_) => DoneTasksAppend(k.buffer, [HeartBeat(w, k.taskCommandReceived)]);
      case Send(_) => MuteSends(k);
      case Serve(_) => MuteServed(s, w);
      case Reboot(_) => SaneStep(s, e);
      case _ =>
    }
  }

  lemma {:induction false} NeverCloses(s: Farm, events: seq<Event>, r: Farm, w: WorkerId)
    requires Run(s, events, r) && Sane(s) && (SoundAt(s, w) || Mute(WorkerOf(s, w)))
    ensures !WorkerOf(r, w).channel.Closed?
    decreases |events|
  {
    if events != [] {
      SaneStep(s, events[0]);
      if SoundAt(s, w) {
        SafeStep(s, events[0], w);
      } else {
        MuteStep(s, events[0], w);
      }
      NeverCloses(Next(s, events[0]), events[1..], r, w);
    }
  }

  /** The worker is the only member, and nothing is given to it. */
  ghost predicate Lonely(s: Farm, w: WorkerId) {
    && Valid(s.pool) && (forall v :: v in s.pool.keys <==> v == w)
    && s.pool.assignment[w] == [] && s.pool.processing[w] == []
    && Orderly(w, WorkerOf(s, w))
  }

  lemma CloseLater(s: Farm, e: Event, w: WorkerId)
    requires Valid(s.pool) && Enabled(s, e) && CanClose(Next(s, e), w)
    ensures CanClose(s, w)
  {
    var events, r :| Run(Next(s, e), events, r) && WorkerOf(r, w).channel.Closed?;
    assert ([e] + events)[1..] == events;
    assert Run(s, [e] + events, r);
  }

  lemma NothingToHand(p: Pool, w: WorkerId)
    requires Valid(p) && (forall v :: v in p.keys <==> v == w) && p.assignment[w] == []
    ensures NextTask(p, w) == (p, None)
  {
    RefusedExactlyWhen(p, w);
    NextTaskShape(p, w);
  }

  /** A request of a lonely worker: a heartbeat is echoed, a report meets an empty queue. */
  lemma LonelyServed(s: Farm, w: WorkerId)
    requires Lonely(s, w) && WorkerOf(s, w).channel.Request?
    ensures var k, r := WorkerOf(s, w), Next(s, Serve(w));
      if k.channel.packet.Done? then WorkerOf(r, w).channel.Closed?
      else Lonely(r, w) && WorkerOf(r, w) == k.(channel := Answer(k.channel.packet))
  {
    var k := WorkerOf(s, w);
    if k.channel.packet.Done? {
      ReportToEmptyQueue(s, w);
    } else {
      NothingToHand(s.pool, w);
      ServeReplies(s, w);
      AnswerKeeps(k, w, k.channel.packet);
    }
  }

  /** Receiving, sending and running keep a report in the making. */
  lemma OwnStepsReport(k: Worker, w: WorkerId)
    requires Orderly(w, k) && CanReport(k)
    ensures k.channel.Answer? ==> CanReport(OnMessage(k, k.channel.packet).(channel := Idle))
    ensures k.channel.Idle? && k.buffer != [] ==>
      CanReport(k.(channel := Request(k.buffer[0]), buffer := k.buffer[1..]))
    ensures k.channel.Idle? && k.buffer == [] ==> k.queue != [] && !k.failed && CanReport(Work(k, w, true))
  {
    if k.channel.Idle? && k.buffer != [] {
      assert k.buffer == [k.buffer[0]] + k.buffer[1..];
      DoneTasksAppend([k.buffer[0]], k.buffer[1..]);
    }
  }

  /** What a worker does next on its own when nobody asks it to. */
  lemma LonelyStep(s: Farm, w: WorkerId) returns (e: Event)
    requires Lonely(s, w) && CanReport(WorkerOf(s, w)) && !WorkerOf(s, w).channel.Request?
    ensures e == RunTask(w, true) || e == Send(w) || e == Receive(w)
    ensures Enabled(s, e) && Lonely(Next(s, e), w)
    ensures CanReport(WorkerOf(Next(s, e), w)) && Owed(WorkerOf(Next(s, e), w)) < Owed(WorkerOf(s, w))
  {
    var k := WorkerOf(s, w);
    OwnStepsOwe(k, w);
    OwnStepsReport(k, w);
    if k.channel.Answer? {
      e := Receive(w);
      ReceiveKeeps(k, w);
    } else if k.buffer != [] {
      e := Send(w);
      SendKeeps(k, w);
    } else {
      e := RunTask(w, true);
      WorkKeeps(k, w, true);
    }
  }

  lemma {:induction false} LonelyCloses(s: Farm, w: WorkerId)
    requires Lonely(s, w) && CanReport(WorkerOf(s, w))
    ensures CanClose(s, w)
    decreases Owed(WorkerOf(s, w))
  {
    var k := WorkerOf(s, w);
    if k.channel.Request? {
      LonelyServed(s, w);
      var r := Next(s, Serve(w));
      if k.channel.packet.Done? {
        assert Run(r, [], r);
      } else {
        LonelyCloses(r, w);
      }
      CloseLater(s, Serve(w), w);
    } else {
      var e := LonelyStep(s, w);
      LonelyCloses(Next(s, e), w);
      CloseLater(s, e, w);
    }
  }

  /** After an arbitrary change of the members, joiners in any state. */
  lemma JoinedSane(s: Farm, running: seq<WorkerId>, pending: seq<WorkerId>, w: WorkerId)
    requires Sound(s) && NoDup(running + pending)
    ensures var r := Next(s, Membership(running, pending));
      && Sane(r) && WorkerOf(r, w) == WorkerOf(s, w) && Orderly(w, WorkerOf(r, w))
      && (w !in Joined(s.pool, running, pending) || Pipeline(WorkerOf(s, w)) == [] ==> SoundAt(r, w))
      && (w in Joined(s.pool, running, pending) ==>
            w in r.pool.keys && r.pool.assignment[w] == [] == r.pool.processing[w])
  {
    MembershipParts(s, running, pending);
    MembershipShape(s.pool, running, pending);
    MembershipStamped(s.pool, running, pending, s.now);
    var r := Next(s, Membership(running, pending));
    assert forall v :: WorkerOf(r, v) == WorkerOf(s, v);
  }

  lemma NobodyNew(p: Pool, w: WorkerId)
    requires Valid(p) && w in p.keys
    ensures NoDup([w] + []) && forall v :: v !in Joined(p, [w], [])
  {
    assert [w] + [] == [w];
  }

  lemma OnlyOneLeft(p: Pool, w: WorkerId)
    requires Valid(p) && w in p.keys && p.assignment[w] == [] == p.processing[w] && NoDup([w] + [])
    ensures var r := OnMembership(p, [w], []);
      && (forall v :: v in r.keys <==> v == w)
      && r.assignment[w] == [] && r.processing[w] == []
  {
    assert [w] + [] == [w];
    MembershipShape(p, [w], []);
  }

  /** Left alone, the joiner is the only one to be given work, and there is none. */
  lemma LeftAlone(s: Farm, w: WorkerId)
    requires Valid(s.pool) && w in s.pool.keys && s.pool.assignment[w] == [] == s.pool.processing[w]
    requires Orderly(w, WorkerOf(s, w))
    ensures Enabled(s, Membership([w], []))
    ensures var r := Next(s, Membership([w], [])); Lonely(r, w) && WorkerOf(r, w) == WorkerOf(s, w)
  {
    NobodyNew(s.pool, w);
    OnlyOneLeft(s.pool, w);
    MembershipParts(s, [w], []);
  }

  lemma Silenced(w: WorkerId, k: Worker)
    requires Orderly(w, k) && Pipeline(k) != [] && !CanReport(k)
    ensures Mute(k)
  {
  }

  /** Whoever joins in whatever state: a run that closes a worker's connection exists exactly if that
      worker has joined while a report of it was in its buffer or channel, or while it was in good order
      and had work. Nobody else is ever affected. */
  lemma CrashExactlyWhen(s: Farm, running: seq<WorkerId>, pending: seq<WorkerId>, w: WorkerId)
    requires Reachable(s) && Valid(s.pool) && NoDup(running + pending)
    ensures CanClose(Next(s, Membership(running, pending)), w) <==>
      w in Joined(s.pool, running, pending) && CanReport(WorkerOf(s, w))
  {
    ReachableSafe(s);
    JoinedSane(s, running, pending, w);
    var r := Next(s, Membership(running, pending));
    if w in Joined(s.pool, running, pending) && CanReport(WorkerOf(s, w)) {
      LeftAlone(r, w);
      LonelyCloses(Next(r, Membership([w], [])), w);
      CloseLater(r, Membership([w], []), w);
    } else {
      if w in Joined(s.pool, running, pending) && Pipeline(WorkerOf(s, w)) != [] {
        Silenced(w, WorkerOf(s, w));
      }
      forall events, end | Run(r, events, end)
        ensures !WorkerOf(end, w).channel.Closed?
      {
        NeverCloses(r, events, end, w);
      }
    }
  }
}
