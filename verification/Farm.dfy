/** The whole farm as a transition system: one node manager and any number of workers. No handler
    suspends between reading and writing the shared state, so one handler is one event. */
module Farm {
  import opened Queues
  import opened Packets
  import opened PoolModel
  import opened WorkerModel

  /** What has happened so far. Nothing in the farm reads this record. */
  datatype Log = Log(
    registered: multiset<TaskId>,
    handed: multiset<TaskId>,     // put into an answer to a worker
    stolen: multiset<TaskId>,
    finished: multiset<TaskId>,   // named by a `done` of a member
    requeued: multiset<TaskId>,   // put back from a departed worker's processing queue
    returned: multiset<TaskId>,   // put back from a departed worker's assignment queue
    dispatched: nat)

  datatype Farm = Farm(pool: Pool, workers: map<WorkerId, Worker>, now: real, log: Log)

  const EmptyLog := Log(multiset{}, multiset{}, multiset{}, multiset{}, multiset{}, multiset{}, 0)
  const Start := Farm(EmptyPool, map[], 0.0, EmptyLog)

  datatype Event =
    | Tick(elapsed: real)
    | Register(task: TaskId)
    | RunDispatch
    | Membership(running: seq<WorkerId>, pending: seq<WorkerId>)
    | EmitBeat(w: WorkerId)
    | RunTask(w: WorkerId, succeeds: bool)
    | Send(w: WorkerId)
    | Serve(w: WorkerId)
    | Receive(w: WorkerId)
    | Reboot(w: WorkerId)

  function WorkerOf(s: Farm, w: WorkerId): Worker {
    if w in s.workers then s.workers[w] else Blank
  }

  function SetWorker(s: Farm, w: WorkerId, k: Worker): Farm {
    s.(workers := s.workers[w := k])
  }

  /** Every worker that joins has nothing of an earlier membership left in its pipeline. */
  ghost predicate JoinersDrained(s: Farm, running: seq<WorkerId>, pending: seq<WorkerId>) {
    forall w | w in Joined(s.pool, running, pending) :: Pipeline(WorkerOf(s, w)) == []
  }

  /** When an event can happen at all, joins apart. */
  ghost predicate Possible(s: Farm, e: Event) {
    match e
    case Tick(elapsed) => elapsed >= 0.0
    case Register(task) => task !in s.log.registered
    case Membership(running, pending) => NoDup(running + pending)
    case Send(w) => WorkerOf(s, w).channel.Idle? && WorkerOf(s, w).buffer != []
    case Serve(w) => WorkerOf(s, w).channel.Request?
    case Receive(w) => WorkerOf(s, w).channel.Answer?
    case Reboot(w) => w !in s.pool.keys
    case _ => true
  }

  ghost predicate Enabled(s: Farm, e: Event) {
    Possible(s, e) && (e.Membership? ==> JoinersDrained(s, e.running, e.pending))
  }

  function Count(condition: bool, task: TaskId): multiset<TaskId> {
    if condition then multiset{task} else multiset{}
  }

  /** What one served request adds to the record. */
  function Served(log: Log, p: Pool, request: Packet, outcome: Outcome): Log {
    if outcome.Crash? || request.Task? then log
    else
      var w := request.sender;
      var member := w in p.running + p.pending;
      var finished := if request.Done? then Count(member, request.task) else multiset{};
      if outcome.packet.Task? then
        var task := outcome.packet.task;
        var theft := w in p.assignment && p.assignment[w] == [];
        log.(finished := log.finished + finished, handed := log.handed + multiset{task},
             stolen := log.stolen + Count(theft, task))
      else
        log.(finished := log.finished + finished)
  }

  function Dispatched(log: Log, p: Pool, now: real): Log
    requires Valid(p)
  {
    log.(dispatched := log.dispatched + |p.tasks| - |Dispatch(p, now).tasks|)
  }

  function Requeued(log: Log, p: Pool, gone: seq<WorkerId>): Log
    requires WellKeyed(p) && forall w | w in gone :: w in p.keys
  {
    log.(requeued := log.requeued + Collect(Whole, gone, p.processing),
         returned := log.returned + Collect(Whole, gone, p.assignment))
  }

  function Next(s: Farm, e: Event): Farm
    requires Valid(s.pool) && Possible(s, e)
  {
    match e
    case Tick(elapsed) => s.(now := s.now + elapsed)
    case Register(task) =>
      s.(pool := Release(s.pool, task), log := s.log.(registered := s.log.registered + multiset{task}))
    case RunDispatch =>
      s.(pool := Dispatch(s.pool, s.now), log := Dispatched(s.log, s.pool, s.now))
    case Membership(running, pending) =>
      var gone := Stopped(s.pool, running, pending);
      s.(pool := OnMembership(s.pool, running, pending), log := Requeued(s.log, s.pool, gone))
    case EmitBeat(w) => SetWorker(s, w, Beat(WorkerOf(s, w), w))
    case RunTask(w, succeeds) => SetWorker(s, w, Work(WorkerOf(s, w), w, succeeds))
    case Send(w) =>
      var k := WorkerOf(s, w);
      SetWorker(s, w, k.(channel := Request(k.buffer[0]), buffer := k.buffer[1..]))
    case Serve(w) =>
      var k := WorkerOf(s, w);
      var (pool, outcome) := OnPacket(s.pool, k.channel.packet, s.now);
      SetWorker(s, w, k.(channel := if outcome.Crash? then Closed else Answer(outcome.packet)))
        .(pool := pool, log := Served(s.log, s.pool, k.channel.packet, outcome))
    case Receive(w) =>
      var k := WorkerOf(s, w);
      SetWorker(s, w, OnMessage(k, k.channel.packet).(channel := Idle))
    case Reboot(w) => SetWorker(s, w, Blank)
  }
}
