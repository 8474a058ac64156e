/** A worker process: its task queue, its outgoing buffer and its connection to the node manager. */
module WorkerModel {
  import opened Queues
  import opened Packets

  /** The client writes one request and waits for its answer before it writes the next one. */
  datatype Channel = Idle | Request(packet: Packet) | Answer(packet: Packet) | Closed

  datatype Worker = Worker(
    queue: seq<TaskId>,
    current: Option<TaskId>,
    taskCommandReceived: bool,
    failed: bool,               // program state ERROR: the processing loop has ended
    buffer: seq<Packet>,
    channel: Channel)

  const Blank := Worker([], None, false, false, [], Idle)

  /** process_message: commands change the worker, an acknowledged heartbeat does not. */
  function OnMessage(k: Worker, packet: Packet): Worker {
    match packet
    case Task(task) => k.(queue := k.queue + [task], taskCommandReceived := true)
    case Done(_, _) => k.(taskCommandReceived := false)
    case HeartBeat(_, _) => k
  }

  function Beat(k: Worker, id: WorkerId): Worker {
    k.(buffer := k.buffer + [HeartBeat(id, k.taskCommandReceived)])
  }

  /** One turn of the processing loop: there is no await between taking a task and reporting it,
      so it either ends in a `done` or in an exception that ends the loop. */
  function Work(k: Worker, id: WorkerId, succeeds: bool): Worker {
    if k.failed || k.current.Some? || k.queue == [] then k
    else if succeeds then k.(queue := k.queue[1..], buffer := k.buffer + [Done(id, k.queue[0])])
    else k.(queue := k.queue[1..], current := Some(k.queue[0]), failed := true)
  }

  /** The tasks that packets report done, oldest first. */
  function DoneTasks(packets: seq<Packet>): seq<TaskId> {
    if packets == [] then []
    else (if packets[0].Done? then [packets[0].task] else []) + DoneTasks(packets[1..])
  }

  /** The task reported by a request on its way, and the task carried by an answer on its way. */
  function Front(c: Channel): seq<TaskId> {
    if c.Request? && c.packet.Done? then [c.packet.task] else []
  }

  function Rear(c: Channel): seq<TaskId> {
    if c.Answer? && c.packet.Task? then [c.packet.task] else []
  }

  /** The tasks inside the worker: in buffered reports, the one being run, the queue. */
  function Backlog(k: Worker): seq<TaskId> {
    DoneTasks(k.buffer) + (if k.current.Some? then [k.current.value] else []) + k.queue
  }

  /** Everything handed to a worker whose `done` the node manager has not handled, oldest first. */
  function Pipeline(k: Worker): seq<TaskId> {
    Front(k.channel) + Backlog(k) + Rear(k.channel)
  }

  /** A worker that asks for no more work has work, or is about to be told that there is none. */
  ghost predicate NotIdle(k: Worker) {
    k.taskCommandReceived ==> Pipeline(k) != [] || (k.channel.Answer? && k.channel.packet.Done?)
  }

  /** A worker sends only heartbeats and reports, under its own id. */
  ghost predicate Own(id: WorkerId, packet: Packet) {
    !packet.Task? && packet.sender == id
  }

  ghost predicate Orderly(id: WorkerId, k: Worker) {
    && !k.channel.Closed?
    && (k.channel.Request? ==> Own(id, k.channel.packet))
    && (forall i | 0 <= i < |k.buffer| :: Own(id, k.buffer[i]))
    && NotIdle(k)
    && (k.current.Some? <==> k.failed)
  }

  lemma {:induction false} DoneTasksAppend(a: seq<Packet>, b: seq<Packet>)
    ensures DoneTasks(a + b) == DoneTasks(a) + DoneTasks(b)
  {
    if a == [] {
      assert a + b == b;
    } else {
      var first := if a[0].Done? then [a[0].task] else [];
      assert (a + b)[0] == a[0] && (a + b)[1..] == a[1..] + b;
      DoneTasksAppend(a[1..], b);
      assert DoneTasks(a + b) == first + DoneTasks(a[1..] + b);
      assert DoneTasks(a) == first + DoneTasks(a[1..]);
    }
  }

  lemma BeatKeeps(k: Worker, id: WorkerId)
    requires Orderly(id, k)
    ensures Orderly(id, Beat(k, id)) && Pipeline(Beat(k, id)) == Pipeline(k)
  {
    DoneTasksAppend(k.buffer, [HeartBeat(id, k.taskCommandReceived)]);
  }

  /** Running a task moves it from the queue's head to the reports' end. */
  lemma WorkKeeps(k: Worker, id: WorkerId, succeeds: bool)
    requires Orderly(id, k)
    ensures Orderly(id, Work(k, id, succeeds)) && Pipeline(Work(k, id, succeeds)) == Pipeline(k)
  {
    var k' := Work(k, id, succeeds);
    if k' != k {
      DoneTasksAppend(k.buffer, [Done(id, k.queue[0])]);
      assert k.queue == [k.queue[0]] + k.queue[1..];
      assert Backlog(k') == Backlog(k);
    }
  }

  lemma SendKeeps(k: Worker, id: WorkerId)
    requires Orderly(id, k) && k.channel.Idle? && k.buffer != []
    ensures var k' := k.(channel := Request(k.buffer[0]), buffer := k.buffer[1..]);
            Orderly(id, k') && Pipeline(k') == Pipeline(k)
  {
    assert k.buffer == [k.buffer[0]] + k.buffer[1..];
    DoneTasksAppend([k.buffer[0]], k.buffer[1..]);
    var k' := k.(channel := Request(k.buffer[0]), buffer := k.buffer[1..]);
    assert DoneTasks(k.buffer) == Front(k'.channel) + DoneTasks(k'.buffer);
    assert Backlog(k) == Front(k'.channel) + Backlog(k');
  }

  lemma ReceiveKeeps(k: Worker, id: WorkerId)
    requires Orderly(id, k) && k.channel.Answer?
    ensures var k' := OnMessage(k, k.channel.packet).(channel := Idle);
            Orderly(id, k') && Pipeline(k') == Pipeline(k)
  {
  }

  /** Answering a request drops the task it reported and adds the task the answer carries. */
  lemma AnswerKeeps(k: Worker, id: WorkerId, answer: Packet)
    requires Orderly(id, k) && k.channel.Request?
    requires answer.Task? || answer == k.channel.packet
    ensures var request := k.channel.packet; var k' := k.(channel := Answer(answer));
      && Orderly(id, k')
      && Pipeline(k) == (if request.Done? then [request.task] else []) + Backlog(k)
      && Pipeline(k') == Backlog(k) + (if answer.Task? then [answer.task] else [])
  {
    var k' := k.(channel := Answer(answer));
    assert Backlog(k') == Backlog(k);
    assert Pipeline(k) == Front(k.channel) + Backlog(k);
    assert Pipeline(k') == Backlog(k) + Rear(k'.channel);
  }
}
