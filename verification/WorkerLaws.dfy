/** What a worker makes of the messages it gets and the tasks it runs, in the order they come. */
module WorkerLaws {
  import opened Queues
  import opened Packets
  import opened PoolModel
  import opened WorkerModel
  import opened Farm

  /** The worker after several messages. */
  function AfterMessages(k: Worker, packets: seq<Packet>): Worker
    decreases |packets|
  {
    if packets == [] then k else AfterMessages(OnMessage(k, packets[0]), packets[1..])
  }

  /** The tasks that messages bring, oldest first. */
  function TasksIn(packets: seq<Packet>): seq<TaskId> {
    if packets == [] then []
    else TasksIn(packets[..|packets| - 1]) + Brought(packets[|packets| - 1])
  }

  function Brought(packet: Packet): seq<TaskId> {
    if packet.Task? then [packet.task] else []
  }

  /** Whether the last message that was not an acknowledged heartbeat brought a task. */
  function LastWasTask(packets: seq<Packet>, before: bool): bool {
    if packets == [] then before
    else
      var last := packets[|packets| - 1];
      if last.HeartBeat? then LastWasTask(packets[..|packets| - 1], before) else last.Task?
  }

  lemma {:induction false} AfterOneMore(k: Worker, packets: seq<Packet>, last: Packet)
    ensures AfterMessages(k, packets + [last]) == OnMessage(AfterMessages(k, packets), last)
    decreases |packets|
  {
    if packets == [] {
      assert packets + [last] == [last] && [last][1..] == [];
    } else {
      assert (packets + [last])[1..] == packets[1..] + [last];
      AfterOneMore(OnMessage(k, packets[0]), packets[1..], last);
    }
  }

  /** After any messages: the tasks they brought are queued in order, and the worker asks for no more work
      exactly if the last of them that was a task or an echoed report was a task. Nothing else changes. */
  lemma {:induction false} MessagesExactly(k: Worker, packets: seq<Packet>)
    ensures AfterMessages(k, packets) ==
      k.(queue := k.queue + TasksIn(packets), taskCommandReceived := LastWasTask(packets, k.taskCommandReceived))
    decreases |packets|
  {
    if packets == [] {
      assert k.queue + [] == k.queue;
    } else {
      var front, last := packets[..|packets| - 1], packets[|packets| - 1];
      assert packets == front + [last];
      MessagesExactly(k, front);
      AfterOneMore(k, front, last);
      assert (k.queue + TasksIn(front)) + Brought(last) == k.queue + TasksIn(packets);
    }
  }

  /** A turn of the processing loop takes the oldest task, if the loop is alive and there is one, and
      either reports it after everything else in the buffer or fails with it in hand. */
  lemma WorkExactly(k: Worker, w: WorkerId, succeeds: bool)
    ensures var r := Work(k, w, succeeds);
      if k.failed || k.current.Some? || k.queue == [] then r == k
      else
        && k.queue == [k.queue[0]] + r.queue
        && r.taskCommandReceived == k.taskCommandReceived && r.channel == k.channel
        && (if succeeds then r.buffer == k.buffer + [Done(w, k.queue[0])] && r.current.None? && !r.failed
            else r.buffer == k.buffer && r.current == Some(k.queue[0]) && r.failed)
  {
    if k.queue != [] {
      assert k.queue == [k.queue[0]] + k.queue[1..];
    }
  }

  /** Sending takes the oldest packet of the buffer, and changes nothing else. */
  lemma SendExactly(s: Farm, w: WorkerId)
    requires Valid(s.pool) && WorkerOf(s, w).channel.Idle? && WorkerOf(s, w).buffer != []
    ensures var k, r := WorkerOf(s, w), WorkerOf(Next(s, Send(w)), w);
      && r.channel.Request? && [r.channel.packet] + r.buffer == k.buffer
      && r == k.(channel := r.channel, buffer := r.buffer)
      && Next(s, Send(w)).pool == s.pool && forall v | v != w :: WorkerOf(Next(s, Send(w)), v) == WorkerOf(s, v)
  {
  }

  /** Receiving processes the answer and frees the line, and changes nothing else. */
  lemma ReceiveExactly(s: Farm, w: WorkerId)
    requires Valid(s.pool) && WorkerOf(s, w).channel.Answer?
    ensures var k, r := WorkerOf(s, w), Next(s, Receive(w));
      && WorkerOf(r, w) == AfterMessages(k, [k.channel.packet]).(channel := Idle)
      && r.pool == s.pool && forall v | v != w :: WorkerOf(r, v) == WorkerOf(s, v)
  {
    assert [WorkerOf(s, w).channel.packet][1..] == [];
  }
}
