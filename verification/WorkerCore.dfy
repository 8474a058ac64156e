/** The worker program's fields, updated in place by its command handler, its processing loop, its
    heartbeat and the client loop of its connection. */
module WorkerCores {
  import opened Queues
  import opened Packets
  import opened WorkerModel

  class WorkerCore {
    const id: WorkerId
    var taskQueue: seq<TaskId>
    var currentTask: Option<TaskId>
    var taskCommandReceived: bool
    var failed: bool
    var sendBuffer: seq<Packet>
    var channel: Channel

    function View(): Worker
      reads this
    {
      Worker(taskQueue, currentTask, taskCommandReceived, failed, sendBuffer, channel)
    }

    constructor (id: WorkerId)
      ensures View() == Blank && this.id == id
    {
      this.id := id;
      taskQueue, currentTask, taskCommandReceived, failed := [], None, false, false;
      sendBuffer, channel := [], Idle;
    }

    /** process_message, and for commands process_command. */
    method ProcessMessage(packet: Packet)
      modifies this`taskQueue, this`taskCommandReceived
      ensures View() == OnMessage(old(View()), packet)
    {
      if packet.Task? {
        taskQueue := taskQueue + [packet.task];
        taskCommandReceived := true;
      }
      if packet.Done? {
        taskCommandReceived := false;
      }
    }

    method SendMessage(packet: Packet)
      modifies this`sendBuffer
      ensures sendBuffer == old(sendBuffer) + [packet]
    {
      sendBuffer := sendBuffer + [packet];
    }

    /** One turn of the processing loop; an exception leaves the task current and ends the loop. */
    method Process(succeeds: bool)
      modifies this
      ensures View() == Work(old(View()), id, succeeds)
    {
      if !failed && currentTask.None? && taskQueue != [] {
        var task := taskQueue[0];
        currentTask := Some(task);
        taskQueue := taskQueue[1..];
        if !succeeds {
          failed := true;
          return;
        }
        SendMessage(Done(id, task));
        currentTask := None;
      }
    }

    method GenerateHeartBeat()
      modifies this`sendBuffer
      ensures View() == Beat(old(View()), id)
    {
      SendMessage(HeartBeat(id, taskCommandReceived));
    }

    /** The client loop up to its await: the oldest buffered packet is written. */
    method WriteNext()
      requires channel.Idle? && sendBuffer != []
      modifies this`sendBuffer, this`channel
      ensures channel == Request(old(sendBuffer)[0]) && sendBuffer == old(sendBuffer)[1..]
    {
      channel := Request(sendBuffer[0]);
      sendBuffer := sendBuffer[1..];
    }

    /** The client loop after its await: the answer is processed and the line is free again. */
    method ReadAnswer()
      requires channel.Answer?
      modifies this
      ensures View() == OnMessage(old(View()), old(channel).packet).(channel := Idle)
    {
      ProcessMessage(channel.packet);
      channel := Idle;
    }
  }
}
