/** The node manager's task pool as the program keeps it: fields that the handlers update in place.
    Every method is proved equal to the handler's function on the pool as a value. */
module TaskPools {
  import opened Queues
  import opened Packets
  import opened PoolModel

  lemma RequeueStep(p: Pool, stopped: seq<WorkerId>)
    requires WellKeyed(p) && stopped != [] && NoDup(stopped) && forall w | w in stopped :: w in p.keys
    ensures var r := RequeueOne(p, stopped[0]);
      && NoDup(stopped[1..]) && (forall w | w in stopped[1..] :: w in r.keys)
      && RequeueAll(r, stopped[1..]) == RequeueAll(p, stopped)
  {
    NoDupTail(stopped);
  }

  class TaskPool {
    var tasks: seq<TaskId>
    var allAssignedTasks: int
    var workers: seq<WorkerId>  // key order of the two dictionaries
    var taskAssignment: map<WorkerId, seq<TaskId>>
    var taskProcessing: map<WorkerId, seq<TaskId>>
    var workersRunning: seq<WorkerId>
    var workersPending: seq<WorkerId>
    var assignTime: map<TaskId, real>

    function View(): Pool
      reads this
    {
      Pool(tasks, allAssignedTasks, workers, taskAssignment, taskProcessing, workersRunning, workersPending, assignTime)
    }

    constructor ()
      ensures View() == EmptyPool && Valid(View())
    {
      tasks, allAssignedTasks := [], 0;
      workers, taskAssignment, taskProcessing := [], map[], map[];
      workersRunning, workersPending := [], [];
      assignTime := map[];
    }

    /** The inner loop of run_task_pool. */
    method RunTaskPool(now: real)
      requires Valid(View())
      modifies this
      ensures View() == Dispatch(old(View()), now)
    {
      while tasks != []
        invariant Valid(View())
        invariant Dispatch(View(), now) == Dispatch(old(View()), now)
        decreases |tasks|
      {
        if workersRunning + workersPending == [] {
          break;
        }
        assert (workersRunning + workersPending)[0] in workers;
        AssignFirstTask(now);
      }
    }

    /** The body of that loop. */
    method AssignFirstTask(now: real)
      requires WellKeyed(View()) && workers != [] && tasks != []
      modifies this
      ensures View() == DispatchOne(old(View()), now)
    {
      var task := tasks[0];
      tasks := tasks[1..];
      var worker := Shortest(workers, taskAssignment);
      taskAssignment := taskAssignment[worker := taskAssignment[worker] + [task]];
      assignTime := assignTime[task := now];
      allAssignedTasks := allAssignedTasks + 1;
    }

    method StealTask(worker: WorkerId) returns (stolen: Option<TaskId>)
      requires WellKeyed(View()) && worker in workers
      modifies this`taskAssignment
      ensures (View(), stolen) == Steal(old(View()), worker)
    {
      var victim := Longest(workers, taskAssignment);
      stolen := None;
      if |taskAssignment[victim]| >= 2 {
        var task := taskAssignment[victim][|taskAssignment[victim]| - 1];
        taskAssignment := taskAssignment[victim := taskAssignment[victim][..|taskAssignment[victim]| - 1]];
        taskAssignment := taskAssignment[worker := taskAssignment[worker] + [task]];
        stolen := Some(task);
      }
    }

    method ProcessHeartBeat(worker: WorkerId, noHbTask: bool) returns (answer: Packet)
      requires WellKeyed(View())
      modifies this`taskAssignment, this`taskProcessing
      ensures (View(), answer) == OnHeartBeat(old(View()), worker, noHbTask)
    {
      if !noHbTask && worker in taskAssignment {
        var task;
        if taskAssignment[worker] != [] {
          task := taskAssignment[worker][0];
          taskAssignment := taskAssignment[worker := taskAssignment[worker][1..]];
        } else {
          var stolen := StealTask(worker);
          if stolen.None? {
            return HeartBeat(worker, noHbTask);
          }
          task := stolen.value;
        }
        taskProcessing := taskProcessing[worker := taskProcessing[worker] + [task]];
        return Task(task);
      }
      return HeartBeat(worker, noHbTask);
    }

    /** The report of a finished task; the response time is what the metric log gets. */
    method ProcessDone(worker: WorkerId, task: TaskId, now: real) returns (outcome: Outcome, responseTime: Option<real>)
      requires WellKeyed(View())
      modifies this`taskAssignment, this`taskProcessing, this`allAssignedTasks
      ensures (View(), outcome) == OnDone(old(View()), worker, task, now)
      ensures responseTime.Some? <==> old(worker in workersRunning + workersPending) && outcome.Reply?
      ensures responseTime.Some? ==> task in assignTime && responseTime.value == now - assignTime[task]
    {
      responseTime := None;
      if worker !in workersRunning + workersPending {
        return Reply(Done(worker, task)), None;
      }
      if worker !in taskProcessing || taskProcessing[worker] == [] {
        return Crash, None;
      }
      taskProcessing := taskProcessing[worker := taskProcessing[worker][1..]];
      allAssignedTasks := allAssignedTasks - 1;
      if task !in assignTime {
        return Crash, None;
      }
      responseTime := Some(now - assignTime[task]);
      if |taskAssignment[worker]| > 0 {
        var next := taskAssignment[worker][0];
        taskAssignment := taskAssignment[worker := taskAssignment[worker][1..]];
        taskProcessing := taskProcessing[worker := taskProcessing[worker] + [next]];
        outcome := Reply(Task(next));
      } else {
        var stolen := StealTask(worker);
        if stolen.Some? {
          taskProcessing := taskProcessing[worker := taskProcessing[worker] + [stolen.value]];
          outcome := Reply(Task(stolen.value));
        } else {
          outcome := Reply(Done(worker, task));
        }
      }
    }

    /** The server's dispatch on the kind of request. */
    method ProcessPacket(packet: Packet, now: real) returns (outcome: Outcome)
      requires WellKeyed(View())
      modifies this`taskAssignment, this`taskProcessing, this`allAssignedTasks
      ensures (View(), outcome) == OnPacket(old(View()), packet, now)
    {
      match packet
      case HeartBeat(worker, noHbTask) =>
        var answer := ProcessHeartBeat(worker, noHbTask);
        outcome := Reply(answer);
      case Done(worker, task) =>
        var responseTime;
        outcome, responseTime := ProcessDone(worker, task, now);
      case Task(_) =>
        outcome := Reply(packet);
    }

    method GenerateHeartBeat() returns (summary: Summary)
      requires WellKeyed(View())
      ensures summary == PoolModel.GenerateHeartBeat(View())
    {
      var busy := Busy(View(), workers);
      var allocation := map w | w in busy :: Load(View(), w);
      summary := Summary(allAssignedTasks + |tasks|, |taskProcessing|, busy, allocation);
    }

    method WorkerChange(running: seq<WorkerId>, pending: seq<WorkerId>)
      returns (stopped: seq<WorkerId>, joined: seq<WorkerId>)
      modifies this`workersRunning, this`workersPending
      ensures workersRunning == running && workersPending == pending
      ensures stopped == Stopped(old(View()), running, pending)
      ensures joined == Joined(old(View()), running, pending)
    {
      var previous, current := workersRunning + workersPending, running + pending;
      stopped, joined := KeepOut(previous, current), KeepOut(current, previous);
      workersRunning, workersPending := running, pending;
    }

    /** The instance manager's answer: requeue what departed workers had, make room for new ones. */
    method ProcessMembership(running: seq<WorkerId>, pending: seq<WorkerId>)
      requires Valid(View()) && NoDup(running + pending)
      modifies this
      ensures View() == OnMembership(old(View()), running, pending)
    {
      NoDupKeepOut(workersRunning + workersPending, running + pending);
      var stopped, joined := WorkerChange(running, pending);
      RequeueStopped(stopped);
      AdmitJoined(joined);
    }

    method RequeueStopped(stopped: seq<WorkerId>)
      requires WellKeyed(View()) && NoDup(stopped) && forall w | w in stopped :: w in workers
      modifies this
      ensures View() == RequeueAll(old(View()), stopped)
    {
      ghost var goal := RequeueAll(View(), stopped);
      assert stopped[0..] == stopped;
      var i := 0;
      while i < |stopped|
        invariant 0 <= i <= |stopped| && WellKeyed(View())
        invariant NoDup(stopped[i..]) && forall w | w in stopped[i..] :: w in workers
        invariant RequeueAll(View(), stopped[i..]) == goal
      {
        RequeueStep(View(), stopped[i..]);
        assert stopped[i..][1..] == stopped[i + 1..];
        RequeueWorker(stopped[i]);
        i := i + 1;
      }
    }

    /** The body of the first loop. */
    method RequeueWorker(worker: WorkerId)
      requires WellKeyed(View()) && worker in workers
      modifies this
      ensures View() == RequeueOne(old(View()), worker)
    {
      allAssignedTasks := allAssignedTasks - |taskAssignment[worker]|;
      tasks := tasks + taskAssignment[worker];
      tasks := taskProcessing[worker] + tasks;
      workers := Without(workers, worker);
      taskAssignment := taskAssignment - {worker};
      taskProcessing := taskProcessing - {worker};
    }

    method AdmitJoined(joined: seq<WorkerId>)
      requires WellKeyed(View())
      modifies this
      ensures View() == AdmitAll(old(View()), joined)
    {
      var i := 0;
      while i < |joined|
        invariant 0 <= i <= |joined| && WellKeyed(View())
        invariant AdmitAll(View(), joined[i..]) == AdmitAll(old(View()), joined)
      {
        assert joined[i..][1..] == joined[i + 1..];
        AdmitWorker(joined[i]);
        i := i + 1;
      }
    }

    /** The body of the second loop. */
    method AdmitWorker(worker: WorkerId)
      requires WellKeyed(View())
      modifies this
      ensures View() == Admit(old(View()), worker)
    {
      if worker !in taskAssignment {
        workers := workers + [worker];
      }
      taskAssignment := taskAssignment[worker := []];
      taskProcessing := taskProcessing[worker := []];
    }
  }
}
