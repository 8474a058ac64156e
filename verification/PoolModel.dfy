/** What travels between a worker and the node manager. A server's answer is a packet too:
    `Task` hands work out, and an echoed request says that there is none. */
module Packets {
  import opened Queues

  datatype Packet =
    | HeartBeat(sender: WorkerId, noHbTask: bool)
    | Task(task: TaskId)
    | Done(sender: WorkerId, task: TaskId)

  /** What a server coroutine does with a request: answer it, or die of an exception. */
  datatype Outcome = Reply(packet: Packet) | Crash
}

/** The node manager's state as a value, and each of its handlers as a function on that value.
    The methods of class TaskPool are proved equal to these functions. */
module PoolModel {
  import opened Queues
  import opened Packets

  datatype Pool = Pool(
    tasks: seq<TaskId>,             // registered, not given to any worker
    allAssigned: int,               // the running counter all_assigned_tasks
    keys: seq<WorkerId>,            // insertion order of both dictionaries
    assignment: Queues,             // given to a worker, not handed out
    processing: Queues,             // handed out, not reported done
    running: seq<WorkerId>,
    pending: seq<WorkerId>,
    assignTime: map<TaskId, real>)

  const EmptyPool := Pool([], 0, [], map[], map[], [], [], map[])

  /** Both dictionaries have exactly the keys listed. */
  ghost predicate WellKeyed(p: Pool) {
    && NoDup(p.keys)
    && (forall w :: w in p.keys <==> w in p.assignment)
    && (forall w :: w in p.keys <==> w in p.processing)
  }

  /** The dictionaries' keys are the current members, each listed once. */
  ghost predicate Valid(p: Pool) {
    WellKeyed(p) && NoDup(p.running + p.pending) && forall w :: w in p.keys <==> w in p.running + p.pending
  }

  function Release(p: Pool, task: TaskId): Pool {
    p.(tasks := p.tasks + [task])
  }

  /** One turn of the inner loop of run_task_pool. */
  function DispatchOne(p: Pool, now: real): (r: Pool)
    requires WellKeyed(p) && p.keys != [] && p.tasks != []
    ensures WellKeyed(r) && r.keys == p.keys
  {
    var worker := Shortest(p.keys, p.assignment);
    var task := p.tasks[0];
    p.(tasks := p.tasks[1..],
       assignment := p.assignment[worker := p.assignment[worker] + [task]],
       assignTime := p.assignTime[task := now],
       allAssigned := p.allAssigned + 1)
  }

  /** The inner loop of run_task_pool: until the pool is empty, unless there are no workers. */
  function Dispatch(p: Pool, now: real): (r: Pool)
    requires Valid(p)
    ensures Valid(r) && |r.tasks| <= |p.tasks|
    decreases |p.tasks|
  {
    if p.tasks == [] || p.running + p.pending == [] then p
    else
      assert (p.running + p.pending)[0] in p.keys;
      Dispatch(DispatchOne(p, now), now)
  }

  /** Take the last task of a longest queue, if that queue has at least two. */
  function Steal(p: Pool, thief: WorkerId): (Pool, Option<TaskId>)
    requires WellKeyed(p) && thief in p.keys
  {
    var victim := Longest(p.keys, p.assignment);
    var loot := p.assignment[victim];
    if |loot| >= 2 then
      var task := loot[|loot| - 1];
      var robbed := p.assignment[victim := loot[..|loot| - 1]];
      (p.(assignment := robbed[thief := robbed[thief] + [task]]), Some(task))
    else
      (p, None)
  }

  /** The work both handlers look for: the worker's own next task, or a stolen one. */
  function NextTask(p: Pool, w: WorkerId): (Pool, Option<TaskId>)
    requires WellKeyed(p) && w in p.keys
  {
    var queue := p.assignment[w];
    var (found, task) :=
      if queue != [] then (p.(assignment := p.assignment[w := queue[1..]]), Some(queue[0])) else Steal(p, w);
    match task
    case Some(t) => (found.(processing := p.processing[w := p.processing[w] + [t]]), task)
    case None => (p, None)
  }

  function OnHeartBeat(p: Pool, w: WorkerId, noHbTask: bool): (Pool, Packet)
    requires WellKeyed(p)
  {
    if noHbTask || w !in p.assignment then (p, HeartBeat(w, noHbTask))
    else
      var (p', task) := NextTask(p, w);
      match task
      case Some(t) => (p', Task(t))
      case None => (p', HeartBeat(w, noHbTask))
  }

  function OnDone(p: Pool, w: WorkerId, task: TaskId, now: real): (Pool, Outcome)
    requires WellKeyed(p)
  {
    if w !in p.running + p.pending then (p, Reply(Done(w, task)))
    else if w !in p.processing || p.processing[w] == [] then (p, Crash)
    else
      var popped := p.(processing := p.processing[w := p.processing[w][1..]], allAssigned := p.allAssigned - 1);
      if task !in p.assignTime then (popped, Crash)
      else
        var (p', next) := NextTask(popped, w);
        match next
        case Some(t) => (p', Reply(Task(t)))
        case None => (p', Reply(Done(w, task)))
  }

  /** process_packet: requests are served by kind; a command other than `done` is sent back. */
  function OnPacket(p: Pool, packet: Packet, now: real): (Pool, Outcome)
    requires WellKeyed(p)
  {
    match packet
    case HeartBeat(w, noHbTask) => var (p', answer) := OnHeartBeat(p, w, noHbTask); (p', Reply(answer))
    case Done(w, task) => OnDone(p, w, task, now)
    case Task(_) => (p, Reply(packet))
  }

  /** One departed worker: interrupted work goes in front of the pool, unstarted work behind it. */
  function RequeueOne(p: Pool, w: WorkerId): (r: Pool)
    requires WellKeyed(p) && w in p.keys
    ensures WellKeyed(r)
  {
    NoDupWithout(p.keys, w);
    p.(allAssigned := p.allAssigned - |p.assignment[w]|,
       tasks := p.processing[w] + (p.tasks + p.assignment[w]),
       keys := Without(p.keys, w),
       assignment := p.assignment - {w},
       processing := p.processing - {w})
  }

  function RequeueAll(p: Pool, stopped: seq<WorkerId>): (r: Pool)
    requires WellKeyed(p) && NoDup(stopped) && forall w | w in stopped :: w in p.keys
    ensures WellKeyed(r)
    ensures forall w :: w in r.keys <==> w in p.keys && w !in stopped
    ensures r.running == p.running && r.pending == p.pending
    decreases |stopped|
  {
    if stopped == [] then p
    else
      NoDupTail(stopped);
      assert forall w | w in stopped[1..] :: w in stopped && w != stopped[0];
      RequeueAll(RequeueOne(p, stopped[0]), stopped[1..])
  }

  function Admit(p: Pool, w: WorkerId): (r: Pool)
    requires WellKeyed(p)
    ensures WellKeyed(r)
  {
    p.(keys := if w in p.keys then p.keys else p.keys + [w],
       assignment := p.assignment[w := []],
       processing := p.processing[w := []])
  }

  function AdmitAll(p: Pool, joined: seq<WorkerId>): (r: Pool)
    requires WellKeyed(p)
    ensures WellKeyed(r)
    ensures forall w :: w in r.keys <==> w in p.keys || w in joined
    ensures r.running == p.running && r.pending == p.pending
    decreases |joined|
  {
    if joined == [] then p else AdmitAll(Admit(p, joined[0]), joined[1..])
  }

  function Stopped(p: Pool, running: seq<WorkerId>, pending: seq<WorkerId>): seq<WorkerId> {
    KeepOut(p.running + p.pending, running + pending)
  }

  function Joined(p: Pool, running: seq<WorkerId>, pending: seq<WorkerId>): seq<WorkerId> {
    KeepOut(running + pending, p.running + p.pending)
  }

  /** worker_change followed by the two loops of the monitor's process_heartbeat. */
  function OnMembership(p: Pool, running: seq<WorkerId>, pending: seq<WorkerId>): (r: Pool)
    requires Valid(p) && NoDup(running + pending)
    ensures Valid(r) && r.running == running && r.pending == pending
  {
    NoDupKeepOut(p.running + p.pending, running + pending);
    var requeued := RequeueAll(p.(running := running, pending := pending), Stopped(p, running, pending));
    AdmitAll(requeued, Joined(p, running, pending))
  }

  /** The node manager's own heartbeat; the allocation keeps its insertion order. */
  datatype Summary = Summary(waiting: int, running: nat, order: seq<WorkerId>, load: map<WorkerId, nat>)

  function Load(p: Pool, w: WorkerId): nat
    requires WellKeyed(p) && w in p.keys
  {
    |p.assignment[w]| + |p.processing[w]|
  }

  /** Adding two Counters keeps only the keys with a positive sum. */
  function Busy(p: Pool, keys: seq<WorkerId>): (r: seq<WorkerId>)
    requires WellKeyed(p) && forall w | w in keys :: w in p.keys
    ensures forall w :: w in r <==> w in keys && w in p.keys && Load(p, w) > 0
  {
    if keys == [] then []
    else if Load(p, keys[0]) > 0 then [keys[0]] + Busy(p, keys[1..])
    else Busy(p, keys[1..])
  }

  function GenerateHeartBeat(p: Pool): Summary
    requires WellKeyed(p)
  {
    var busy := Busy(p, p.keys);
    Summary(p.allAssigned + |p.tasks|, |p.processing|, busy, map w | w in busy :: Load(p, w))
  }
}
