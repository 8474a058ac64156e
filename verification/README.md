# A model of the SentiCloud task farm

The system is a small task farm on cloud machines. An *instance manager* starts and stops machines, a
*node manager* keeps the task pool, *workers* run the tasks. Workers ask for work with heartbeats and
report finished tasks; a worker without work steals from the one with most. This project models the
three roles and proves what holds in every run of them.

The node manager's handlers never suspend between reading and writing the pool, so one handler is one
atomic step, and the farm is a transition system (`Farm.dfy`): registering, dispatching, membership
changes, and for each worker emitting a heartbeat, running a task, sending a request, having it served,
receiving the answer, rebooting. A run is any sequence of such events, with any number of workers.

## Layout

| files | content |
|---|---|
| `Queues.dfy` | identifiers, dictionaries of queues in insertion order, counting lemmas |
| `PoolModel.dfy`, `TaskPool.dfy` | the pool's handlers as functions on a value; the class that updates fields in place, each method proved equal to its function |
| `WorkerModel.dfy`, `WorkerCore.dfy` | the same for the worker and its end of the connection |
| `HandlerLaws.dfy`, `WorkerLaws.dfy`, `ManagerLaws.dfy` | what each operation does, case by case and exactly: the answer or action, the new state of what it is about, and that the rest is left alone |
| `PoolLaws.dfy`, `Balance.dfy` | what each pool handler does: multisets, order, balance, optimality |
| `Farm.dfy`, `Protocol.dfy`, `Bookkeeping.dfy`, `Runs.dfy` | the transition system, its invariants, the theorems over all runs |
| `Completion.dfy`, `Effort.dfy` | no deadlock: when the work at hand can still be finished; how much any run can do about it |
| `Rejoining.dfy` | what taking back a worker with unfinished business can lead to |
| `Witness.dfy` | concrete reachable states that refute the obvious but false claims |
| `TimedRelease.dfy` | the timed release of benchmark tasks |
| `LoadWindow.dfy`, `Instances.dfy`, `NodeScheduler.dfy` | the load window, the instance manager's state, its class |
| `Liveness.dfy`, `Scheduling.dfy` | when looking after the machines fails; what the scheduler's turns do |
| `Intervals.dfy` | how many workers can be on by the node manager's next heartbeat |
| `Charging.dfy`, `Billing.dfy` | the charge ledger over all runs, and over the scheduler's own |
| `EndToEnd.dfy`, `Growth.dfy` | theorems that span the node manager and the instance manager; how an idle farm grows |

## What the code does that its comments and names do not say

- Exactly-once hand-out is false. A theft puts the task into the thief's assignment queue and into its
  processing queue, so it is handed out once more (`HandedOutTwice`). The true laws are `AtMostTwice`
  and `HandOutsExact`.
- `all_assigned_tasks` is not "assigned but not running". Its exact value is `CounterMeaning`. Each
  theft lowers the reported backlog for good: after all the work is done it is minus one in
  `NegativeBacklog`, and zero exactly under the condition of `DrainedBacklog`.
- `tasks_running` is the number of members, busy or not. So an idle farm reports load and nobody
  busy, and the scheduler takes this for work without a worker. In that branch it looks neither at the
  workers that are on nor at `max_workers` (`CreatesUnlimited`); `UnservedExactlyWhen` says when an idle
  farm gets there. Then, and only then, one machine more can be turned on in each turn until the next
  heartbeat (`IntervalBounds`, `IdleBoundExactlyWhen`): any that the cloud offers, and if it offers only
  workers that the manager knows, all of those that are stopped (`KnownStart`, `KnownBounds`). A farm
  without any task can grow by two workers from each heartbeat to the next (`IdleFarmKeepsGrowing`). Because thefts lower the reported backlog, a task can also wait in a pool
  without workers while none is asked for (`Starvation`).
- `config.py` says that a load "equal or below" the minimum is an underload. The code compares
  strictly, after rounding: the exact mean must be below 0.995 (`RoundedTests`).
- A worker whose heartbeat times out is charged but left on, because restarting refuses any worker that
  is not stopped. The next look at it finds no charge entry, raises KeyError and ends the scheduler's
  loop (`SilentWorkerEndsScheduler`; `SilentWorkerReachable` is a run that gets there). `CheckAllFails`
  says exactly when a round fails.
- A worker that rejoins before its earlier work has drained breaks the agreement between the two ends
  (`MembershipInStep` says exactly when). A late report of it can then close its connection with an
  exception; `CrashExactlyWhen` says for which joiners such a run exists, `CrashedConnection` is one.
- A worker whose task raises an exception keeps sending heartbeats but runs nothing more; as long as it
  is a member its work cannot be finished, whatever the others do (`FinishesExactlyWhen`, and a run in
  `StuckFarm`).

## Assumptions

- Registering yields a fresh task id, and ids are non-empty, so the truth tests on them are tests for None.
- The connection delivers whole messages in order, one request and its answer at a time.
- In the theorems over runs, a worker joins (again) only when nothing of an earlier membership is on
  its way (`JoinersDrained`). A machine that is not a member may reboot at any time.
- In the theorems about intervals, the scheduler sleeps at least its second between two turns, and the
  node manager's own heartbeats are the only ones heard from it.
- The clock never goes back, all readings of it within one handler agree, and times and loads are real numbers.
- A machine is not listed as node manager and worker at once, and the cloud offers worker machines only.

## Model

| member | source | states |
|---|---|---|
| TaskPools.TaskPool.RunTaskPool | src/aws/nodemanager/nodemanager.py:87-98 | the dispatch loop in place computes `Dispatch`, whose optimality, order and conservation are proved below |
| TaskPools.TaskPool.AssignFirstTask | src/aws/nodemanager/nodemanager.py:91-98 | one turn of the loop: the oldest waiting task goes to the first shortest queue, is stamped and counted |
| TaskPools.TaskPool.StealTask | src/aws/nodemanager/nodemanager.py:104-114 | the theft in place is the function `Steal` of the old state; nothing else changes |
| TaskPools.TaskPool.ProcessHeartBeat | src/aws/nodemanager/nodemanager.py:151-167 | answer and new state of a worker heartbeat |
| TaskPools.TaskPool.ProcessDone | src/aws/nodemanager/nodemanager.py:169-197 | answer, new state and both exceptions of a report; the response time is the time since the task was stamped |
| TaskPools.TaskPool.ProcessPacket | src/aws/utils/connection.py:60-72 | requests are served by kind |
| TaskPools.TaskPool.GenerateHeartBeat | src/aws/nodemanager/nodemanager.py:131-143 | the summary sent to the instance manager |
| TaskPools.TaskPool.WorkerChange | src/aws/nodemanager/nodemanager.py:116-129 | who stopped and who is new, relative to the lists before |
| TaskPools.TaskPool.ProcessMembership | src/aws/nodemanager/nodemanager.py:218-233 | both loops together compute `OnMembership` |
| TaskPools.TaskPool.RequeueStopped | src/aws/nodemanager/nodemanager.py:225-230 | the requeue loop computes `RequeueAll` |
| TaskPools.TaskPool.AdmitJoined | src/aws/nodemanager/nodemanager.py:231-233 | the admission loop computes `AdmitAll` |
| Queues.Shortest | src/aws/nodemanager/nodemanager.py:95 | a shortest queue, the first one in insertion order |
| Queues.Longest | src/aws/nodemanager/nodemanager.py:109 | a longest queue, the first one in insertion order |
| HandlerLaws.HeartBeatExactly | src/aws/nodemanager/nodemanager.py:151-167 | a heartbeat is answered with a task if and only if it asks, comes from a member, and the member has a task queued or somebody has two; which task, and all that changes; otherwise nothing changes and it is echoed |
| HandlerLaws.DoneExactly | src/aws/nodemanager/nodemanager.py:171-197 | an accepted report takes the head off what the member has in hand, and is answered with a task if and only if there is work for the member, by the same rule; which task, and all that changes |
| HandlerLaws.DoneRefused | src/aws/nodemanager/nodemanager.py:171-177 | exactly which reports fail or are ignored, and what they leave behind |
| HandlerLaws.StealExactly | src/aws/nodemanager/nodemanager.py:104-114 | a theft takes the last task of the first longest queue, or leaves all as it is if no queue has two |
| HandlerLaws.CommandEchoed | src/aws/nodemanager/nodemanager.py:169-197 | a command other than a report changes nothing and comes back |
| HandlerLaws.DispatchOneExactly | src/aws/nodemanager/nodemanager.py:91-98 | the oldest waiting task goes to the end of the first shortest queue, stamped anew, and the counter rises by one |
| HandlerLaws.MembershipOrder | src/aws/nodemanager/nodemanager.py:225-233 | the order of keys that breaks ties: those who stay as they were, then those who join in the order of the lists |
| HandlerLaws.BusyIsKeepOut | src/aws/nodemanager/nodemanager.py:136-143 | the allocation lists the members in their order, those without work left out |
| HandlerLaws.BeatAsksExactly | src/aws/nodeworker/nodeworker.py:124-136 | a heartbeat, once served, brings work exactly if no task was noted when it was made and there is work for its member |
| WorkerLaws.MessagesExactly | src/aws/nodeworker/nodeworker.py:45-51 | after any messages the tasks they brought are queued in order, and the note stands exactly if the last that was a task or an echoed report was a task |
| WorkerLaws.WorkExactly | src/aws/nodeworker/nodeworker.py:74-121 | a turn takes the oldest task if the loop is alive, and reports it last in the buffer or fails with it in hand |
| WorkerLaws.SendExactly | src/aws/utils/connection.py:147-151 | the oldest packet of the buffer is sent, nothing else changes |
| WorkerLaws.ReceiveExactly | src/aws/utils/connection.py:153-159 | the answer is processed and the line is free, nothing else changes |
| PoolLaws.StealShape | src/aws/nodemanager/nodemanager.py:104-114 | a theft succeeds only from another worker with a longest queue of at least two, and takes its last task |
| PoolLaws.NextTaskCounts | src/aws/nodemanager/nodemanager.py:155-165 | an own task leaves the assignment queues when handed out, a stolen one stays and stops being stealable |
| PoolLaws.RefusedExactlyWhen | src/aws/nodemanager/nodemanager.py:155-163 | a request for work is refused if and only if the own queue is empty and no queue has two tasks |
| PoolLaws.WorkStartsInOrder | src/aws/nodemanager/nodemanager.py:153-165 | own work starts in the order of assignment; a theft shortens one line at its end and adds the task to the thief's line twice |
| PoolLaws.DispatchCounts | src/aws/nodemanager/nodemanager.py:87-98 | dispatching loses and duplicates nothing |
| PoolLaws.DispatchShape | src/aws/nodemanager/nodemanager.py:87-90 | the loop ends with the pool empty unless there are no workers; the counter rises by the tasks moved |
| PoolLaws.DispatchStamps | src/aws/nodemanager/nodemanager.py:97 | every dispatched task is stamped with the present time, whatever stamp it had; every other task keeps exactly the stamp it had, or has none |
| PoolLaws.MembershipCounts | src/aws/nodemanager/nodemanager.py:225-233 | requeueing moves exactly the departed workers' queues into the pool; the counter falls by their assignment queues alone |
| PoolLaws.MembershipShape | src/aws/nodemanager/nodemanager.py:220-233 | workers that stay keep their queues, new ones start empty |
| Balance.DispatchIsOptimal | src/aws/nodemanager/nodemanager.py:87-98 | no other way of adding as many tasks has a lower longest or a higher shortest queue |
| Balance.DispatchSpread | src/aws/nodemanager/nodemanager.py:87-98 | queue lengths end within one, or no further apart than they began |
| Balance.DispatchInOrder | src/aws/nodemanager/nodemanager.py:94-96 | what each queue gains is a subsequence of the waiting tasks in their order |
| Balance.StealBalances | src/aws/nodemanager/nodemanager.py:104-114 | a theft never empties its victim nor robs the thief, stays within the old extremes, and lowers the sum of squared lengths by twice one less than the peak |
| Balance.RequeueOrder | src/aws/nodemanager/nodemanager.py:225-230 | interrupted work goes ahead of the pool, last departed first; unstarted work behind it, first departed first |
| WorkerCores.WorkerCore.ProcessMessage | src/aws/nodeworker/nodeworker.py:45-51 | a task is queued and noted, an echoed report clears the note |
| WorkerCores.WorkerCore.Process | src/aws/nodeworker/nodeworker.py:74-121 | one turn of the processing loop, completed or ended by an exception |
| WorkerCores.WorkerCore.GenerateHeartBeat | src/aws/nodeworker/nodeworker.py:124-136 | the heartbeat carries the flag as it is when it is made |
| WorkerCores.WorkerCore.SendMessage | src/aws/utils/connection.py:122-123 | messages are buffered in order |
| WorkerCores.WorkerCore.WriteNext | src/aws/utils/connection.py:147-153 | the oldest buffered message is written and its answer awaited |
| WorkerCores.WorkerCore.ReadAnswer | src/aws/utils/connection.py:153-159 | the answer is processed before anything else is sent |
| WorkerModel.WorkKeeps | src/aws/nodeworker/nodeworker.py:74-121 | running a task, or failing at it, leaves the worker's pipeline unchanged |
| WorkerModel.SendKeeps | src/aws/utils/connection.py:147-151 | sending leaves the pipeline unchanged |
| WorkerModel.ReceiveKeeps | src/aws/utils/connection.py:125-132 | receiving leaves the pipeline unchanged |
| WorkerModel.AnswerKeeps | src/aws/utils/connection.py:90-97 | an answer takes the reported task off the pipeline's front and adds the new one at its end |
| Protocol.PacketShape | src/aws/nodemanager/nodemanager.py:151-197 | serving a request changes the manager's queue of the sender exactly as the sender's pipeline changes |
| Protocol.SoundStep | src/aws/nodemanager/nodemanager.py:87-233 | every event keeps the agreement of both ends, the stamps, the key sets and the workers' order |
| Protocol.MembershipInStep | src/aws/nodemanager/nodemanager.py:225-233 | after a membership change both ends agree if and only if every joining worker was drained |
| Bookkeeping.ServeAccount | src/aws/nodemanager/nodemanager.py:151-197 | every served request is one of two movements of the multisets and the counter |
| Bookkeeping.BalancedStep | src/aws/nodemanager/nodemanager.py:71-233 | every event keeps the hand-out, outcome, theft, drain and counter laws |
| Runs.FifoAgreement | src/aws/nodemanager/nodemanager.py:164-174 | in every run, the processing queue of a member is its unhandled reports, current task, queue and the task on its way, in this order |
| Runs.DoneIsTheHead | src/aws/nodemanager/nodemanager.py:174-177 | in every run, a member's report names the head of its processing queue, and its assign time exists and is not in the future |
| Runs.ServerNeverFails | src/aws/utils/connection.py:82-107 | in every run, no request ends in an exception and no connection is closed by one |
| Rejoining.CrashExactlyWhen | src/aws/nodemanager/nodemanager.py:171-177 | after any membership change, joiners in any state: a run that closes a worker's connection exists if and only if that worker has joined with a report in its buffer or channel, or in good order with work |
| Rejoining.SafeStep | src/aws/nodemanager/nodemanager.py:87-233 | a worker that agrees with the manager keeps doing so whatever state the others are in |
| Runs.UndrainedJoinCrashes | src/aws/nodemanager/nodemanager.py:174 | without the assumption on joins, a late report of a joined worker always closes its connection |
| Runs.NoSilentIdling | src/aws/nodeworker/nodeworker.py:45-51 | in every run, a worker that suppresses requests has work or an echo coming, and a step to take unless its loop has died |
| Runs.MembershipAgreement | src/aws/nodemanager/nodemanager.py:116-129 | in every run, both dictionaries' keys are exactly the running and pending workers, listed once |
| Runs.Conservation | src/aws/nodemanager/nodemanager.py:71-230 | in every run, pool, assigned, processing and finished tasks are the registered ones plus one copy per theft |
| Runs.ResponseLookupTotal | src/aws/nodemanager/nodemanager.py:97-177 | in every run, every task in a worker's queues has an assign time |
| Runs.CounterMeaning | src/aws/nodemanager/nodemanager.py:98-228 | in every run, the exact value of the counter and of the reported waiting tasks |
| Runs.DrainedBacklog | src/aws/nodemanager/nodemanager.py:141 | with all queues empty the reported backlog is requeued minus stolen, and zero exactly when these are equally many |
| Runs.HandOutsExact | src/aws/nodemanager/nodemanager.py:104-230 | in every run, each registration, theft and requeueing accounts for one hand-out, made or to come; thefts are bounded likewise |
| Runs.AtMostTwice | src/aws/nodemanager/nodemanager.py:104-196 | a task that no departure put back is stolen at most once and handed out at most twice, and twice exactly when stolen |
| Runs.HandOutsBounded | src/aws/nodemanager/nodemanager.py:151-197 | in every run, the answers with work are at most twice the tasks that entered the pool and left it |
| Runs.PotentialStep | src/aws/nodemanager/nodemanager.py:151-197 | each answer with work strictly lowers the potential, and only dispatching raises it |
| Runs.Draining | src/aws/nodemanager/nodemanager.py:104-197 | without dispatching, at most two answers with work follow per assigned task, less one per non-empty queue |
| Completion.FinishesExactlyWhen | src/aws/nodeworker/nodeworker.py:74-121 | in every run, the present members can still finish all work if and only if none of them has failed, and there is one if a task waits |
| Completion.CanAlwaysFinish | src/aws/nodemanager/nodemanager.py:87-197 | from every reachable state with members none of whom has failed, some run with the same members and nothing new registered empties the pool and all queues; then every task was reported done, once more for each theft |
| Completion.BusyWorker | src/aws/utils/connection.py:146-161 | a member that is not quiet always has an enabled event that lowers the farm's measure |
| Completion.AskForWork | src/aws/nodemanager/nodemanager.py:151-165 | a quiet member with assigned work asks by heartbeat and is given a task, and the measure falls |
| Effort.EffortBounded | src/aws/nodemanager/nodemanager.py:87-197 | in any run with the same members, the effective events number at most the measure of the work at the start, less what is left, plus a constant for each heartbeat made and each task registered |
| Effort.HaltedFarm | src/aws/nodemanager/nodemanager.py:151-165 | when no effective event can happen and no member has failed, all work is finished or a quiet member's next heartbeat is answered with a task |
| Completion.ReplacingFailedWorkers | src/aws/nodemanager/nodemanager.py:225-233 | once failed workers are dropped and anyone is left or has joined, everything can be finished |
| Witness.HandedOutTwice | src/aws/nodemanager/nodemanager.py:111-113 | a reachable state in which a task was handed out twice though nobody left |
| Witness.NegativeBacklog | src/aws/nodemanager/nodemanager.py:141 | a reachable finished farm that reports minus one waiting task |
| Witness.UndrainedOutsider | src/aws/nodemanager/nodemanager.py:171-174 | a reachable state in which a departed worker's report is on its way |
| Witness.CrashedConnection | src/aws/nodemanager/nodemanager.py:171-174 | from there, taking the worker back makes its report close its connection |
| Witness.StuckFarm | src/aws/nodeworker/nodeworker.py:116-121 | a reachable farm with a failed member and one in good order, whose work cannot be finished |
| TimedRelease.ReleaseDue | src/aws/nodemanager/nodemanager.py:69-72 | one tick moves exactly the due head of the list into the pool, in order |
| TimedRelease.ReleaseFor | src/aws/nodemanager/nodemanager.py:65-74 | in n ticks the pool gains exactly the tasks released by then, in the order of times |
| TimedRelease.ReleasedInRun | src/aws/nodemanager/nodemanager.py:67-74 | whatever else happens at the awaits, the tasks released by then and one copy per theft are what waits, is queued, is in hand or is finished |
| TimedRelease.SortIsStable | src/aws/nodemanager/nodemanager.py:65 | sorting keeps the tasks, orders them by time and keeps the order of equal times |
| TimedRelease.ReleasedOnTime | src/aws/nodemanager/nodemanager.py:67-74 | after n ticks exactly the tasks with times below n are out, or the loop is stuck at one with a negative or fractional time |
| TimedRelease.ReleasedAtTick | src/aws/nodemanager/nodemanager.py:69-73 | tick n releases exactly the tasks with time n, in their original order, and none if an earlier one blocks the loop |
| TimedRelease.ReleaseEnds | src/aws/nodemanager/nodemanager.py:67-74 | the loop is done after n ticks if and only if all times are whole numbers in [0, n) |
| LoadWindow.TimeWindow.UpdateNodeManager | src/aws/instancemanager/instancemanager.py:485-498 | the window after a heartbeat |
| LoadWindow.WindowIsLast | src/aws/instancemanager/instancemanager.py:492-498 | after any heartbeats the window is the last WINDOW_SIZE samples |
| LoadWindow.RoundedTests | src/aws/instancemanager/instancemanager.py:508-537 | the rounded tests hold exactly for means below 0.995 and above 5.005 |
| LoadWindow.LeastLoaded | src/aws/instancemanager/instancemanager.py:521 | the first, in the allocation's order, of the workers with the least reported load |
| LoadWindow.ActionMeaning | src/aws/instancemanager/instancemanager.py:500-533 | exactly when a create and a kill are decided, and whom the kill names; nothing before the first heartbeat |
| InstanceModel.ResponseIsTheOnSet | src/aws/instancemanager/instancemanager.py:459-468 | the lists sent to the node manager hold the running and the pending workers, each exactly once |
| ManagerLaws.TurnDecidesExactly | src/aws/instancemanager/instancemanager.py:500-533 | of a turn that returns: exactly when it creates and when it kills, in terms of the window and of the workers on when it began, and whom |
| ManagerLaws.TurnActsExactly | src/aws/instancemanager/instancemanager.py:341-350 | what such a turn does after its checks: the offered machine is pending and charged unless it is refused, the killed worker is stopping and cleared, how many are on, and that no other machine changes |
| ManagerLaws.KilledAreOff | src/aws/instancemanager/instancemanager.py:277-281 | every machine killed with a type is stopping, so no longer on, with no heartbeat, start signal or open charge noted |
| ManagerLaws.KillCloses | src/aws/instancemanager/instancemanager.py:285-291 | the charges that were open are closed and logged up to now, each exactly once |
| ManagerLaws.KillSpares | src/aws/instancemanager/instancemanager.py:266-295 | a machine not among those killed is as it was |
| ManagerLaws.KillUntyped | src/aws/instancemanager/instancemanager.py:282-291 | killed without a type, a machine only loses its open charge |
| ManagerLaws.CheckExactly | src/aws/instancemanager/instancemanager.py:376-401 | the check of a machine that is on: running if heard of in time, signalled if due, else its charge closed, or KeyError without one |
| ManagerLaws.CheckAllExactly | src/aws/instancemanager/instancemanager.py:362-368 | a round that returns does to every machine what its own check does, node managers first |
| ManagerLaws.CheckEachStops | src/aws/instancemanager/instancemanager.py:362-368 | a round that fails stops at the first machine whose check fails, in the state reached by then |
| ManagerLaws.InitExactly | src/aws/instancemanager/instancemanager.py:243-264 | a known worker that is not stopped is refused; any other machine is running or pending as it was waited for or not, and charged from now on |
| ManagerLaws.NoteExactly | src/aws/instancemanager/instancemanager.py:439-441 | a heartbeat is noted with its sending time, and opens a charge if none is open |
| ManagerLaws.DescribeExactly | src/aws/instancemanager/instancemanager.py:100-104 | every machine has the state the cloud reported last, or the one it had |
| ManagerLaws.UpdateExactly | src/aws/instancemanager/instancemanager.py:307-315 | with the check a report is taken over if and only if some machine is pending or stopping |
| ManagerLaws.UpdateEverySixty | src/aws/instancemanager/instancemanager.py:320-352 | the states are updated from the cloud in every sixtieth turn but the first of all |
| ManagerLaws.InitializeExactly | src/aws/instancemanager/instancemanager.py:178-192 | when a node manager is started, which, and what is noted; when initialising fails |
| ManagerLaws.SampleExactly | src/aws/instancemanager/instancemanager.py:490-495 | waiting and running tasks, shared evenly among the workers reported busy |
| ManagerLaws.MeanExactly | src/aws/instancemanager/instancemanager.py:535-537 | the mean times the number of samples is their total |
| NodeSchedulers.NodeScheduler.SetInstanceState | src/aws/instancemanager/instancemanager.py:60-66 | the state change in place, keeping the key order |
| NodeSchedulers.NodeScheduler.Init | src/aws/instancemanager/instancemanager.py:243-264 | starting a machine, waiting for it or not, including the refusal for any worker not stopped |
| NodeSchedulers.NodeScheduler.Kill | src/aws/instancemanager/instancemanager.py:266-295 | stopping a list of machines: one pass over the states, one over the charges |
| InstanceModel.TwoPassesKillEach | src/aws/instancemanager/instancemanager.py:277-295 | the two passes have the same effect as stopping the machines one after the other, repeated ids included |
| NodeSchedulers.NodeScheduler.Update | src/aws/instancemanager/instancemanager.py:307-315 | the states reported by the cloud are taken over, with the check only while some machine is on its way up or down |
| NodeSchedulers.NodeScheduler.Initialize | src/aws/instancemanager/instancemanager.py:178-192 | the first update, then the start of a stopped node manager if none is running, or an exception if there is none |
| NodeSchedulers.NodeScheduler.ProcessHeartBeat | src/aws/instancemanager/instancemanager.py:439-441 | a heartbeat reopens a closed charge |
| NodeSchedulers.NodeScheduler.CheckOne | src/aws/instancemanager/instancemanager.py:370-401 | the liveness check of one machine, including its KeyError |
| NodeSchedulers.NodeScheduler.CheckAll | src/aws/instancemanager/instancemanager.py:362-368 | checking in turn stops at the first KeyError, and leaves the state reached by then |
| NodeSchedulers.NodeScheduler.RunTurn | src/aws/instancemanager/instancemanager.py:330-353 | one turn of the scheduler's loop: update when the counter has run out, look after everybody, decide, act |
| Scheduling.NoThrashing | src/aws/instancemanager/instancemanager.py:330-350 | between two node manager heartbeats, whatever the cloud reports, never both a create and a kill, and all kills name the least loaded worker |
| Intervals.IntervalBounds | src/aws/instancemanager/instancemanager.py:500-533 | in all that can happen until the next node manager heartbeat the workers on stay within the larger of their start and one more than those reported busy, if and only if the last heartbeat did not report load with nobody busy |
| Intervals.UnservedStarts | src/aws/instancemanager/instancemanager.py:504-506 | in that case, one turn a second, any machines that are stopped or unknown can be turned on, everybody on being heard of in time |
| Intervals.KnownStart | src/aws/instancemanager/instancemanager.py:234-241 | in that case every known stopped worker can be turned on until the next heartbeat |
| Intervals.KnownBounds | src/aws/instancemanager/instancemanager.py:500-533 | with known workers offered only, the bound holds if and only if that case does not, or no worker is stopped, or at most one is on or stopped |
| Intervals.IntervalCeiling | src/aws/instancemanager/instancemanager.py:341-346 | with known workers offered only, never more are on than were on or stopped at the start, and so not more than `max_workers` |
| Intervals.RunsAreWellRun | src/aws/instancemanager/instancemanager.py:362-441 | every run of the instance manager up to its shutdown leads to a manager of the kind these theorems start from |
| Scheduling.CreatesUnlimited | src/aws/instancemanager/instancemanager.py:504-506 | in the unlimited branch every turn that returns creates; in any other a create needs a known worker that is off |
| Scheduling.IntervalSpares | src/aws/instancemanager/instancemanager.py:520-521 | while some workers are reported busy, only the least loaded of them is ever turned off |
| Liveness.CheckAllFails | src/aws/instancemanager/instancemanager.py:376-397 | a round of checks raises KeyError if and only if some machine has lapsed |
| Liveness.CheckAllEffect | src/aws/instancemanager/instancemanager.py:362-401 | otherwise it turns nothing on or off, and closes the charge of every silent worker |
| Liveness.HeardMeansRunning | src/aws/instancemanager/instancemanager.py:379-384 | a worker counts as running afterwards if and only if it did before or was heard of in time |
| Scheduling.SilentWorkerEndsScheduler | src/aws/instancemanager/instancemanager.py:389-401 | after a timeout the next turn ends the loop unless the worker is heard of, was killed or is reported off by the cloud, whatever else is reported |
| Charging.BilledOnce | src/aws/instancemanager/instancemanager.py:285-290 | in every run, the intervals billed to a machine are in order and never overlap, nor the one open |
| Charging.NeverDoubleBilled | src/aws/instancemanager/instancemanager.py:389-397 | in every run, what was billed and is open is at most the time since the first billed interval began |
| Charging.BilledExactly | src/aws/instancemanager/instancemanager.py:260-440 | in every run, billed and open time grow by exactly the time the charge was open, less what restarts lost |
| Charging.StaysTidy | src/aws/instancemanager/instancemanager.py:60-66 | in every run of the instance manager each machine is listed once |
| Charging.StaysCharged | src/aws/instancemanager/instancemanager.py:389-401 | in every run up to the shutdown, only a worker's charge can be closed while its last heartbeat is still noted |
| Charging.SilentWorkerReachable | src/aws/instancemanager/instancemanager.py:389-401 | a run to a worker that is on, silent and without a charge entry, on which every later round of checks fails |
| Billing.SchedulerNeverDoubleBills | src/aws/instancemanager/instancemanager.py:330-401 | in every run of the scheduler, from its initialisation on, with the cloud's reports, ended by a KeyError or not, what was billed and is open is at most the time since the first billed interval began |
| EndToEnd.FaithfulSummary | src/aws/nodemanager/nodemanager.py:136-143 | the heartbeat lists exactly the members with work, once each, with how much; running tasks are the members |
| EndToEnd.KilledWorkerIsBusy | src/aws/instancemanager/instancemanager.py:520-521 | in every run, while someone has work the killed worker is a member with work, and the least of it |
| EndToEnd.IdlePoolDecision | src/aws/instancemanager/instancemanager.py:500-533 | in every run, a heartbeat with nobody busy makes the scheduler create if and only if waiting tasks, members and requeued tasks outnumber thefts, or nobody is on and the earlier heartbeat still tells of overload |
| EndToEnd.IdlePoolSettles | src/aws/instancemanager/instancemanager.py:500-533 | after two or more equal such heartbeats, if and only if they outnumber thefts |
| EndToEnd.Starvation | src/aws/instancemanager/instancemanager.py:504-506 | a reachable pool with a waiting task and no worker, for which none is asked after any number of equal heartbeats |
| EndToEnd.MembersAreOn | src/aws/nodemanager/nodemanager.py:220-233 | after any runs of both, once the answer is handled the pool's keys are exactly the workers that the instance manager has running or pending |
| Growth.UnservedExactlyWhen | src/aws/instancemanager/instancemanager.py:504-506 | in every run, when the heartbeat of an idle pool reports load with nobody busy |
| Growth.IdleBoundExactlyWhen | src/aws/instancemanager/instancemanager.py:500-533 | in every run, the workers on are bounded after an idle pool's heartbeat if and only if thefts make up for waiting tasks, members and requeued tasks |
| Growth.IdleFarmKeepsGrowing | src/aws/instancemanager/instancemanager.py:330-353 | from any resting system, for any heartbeats at least two seconds apart, a run of both managers by one clock turns on two more workers from each to the next though there is no task at all |
| Growth.RestingSystem | src/aws/instancemanager/instancemanager.py:234-241 | such a system is reachable: one worker has joined, no task was ever registered |

## Left out

- Cloud calls (EC2, SSM, S3) and what they return: starting and stopping a machine is a state change, and the machine the cloud offers is a parameter.
- Intervals.IntervalBounds: no update of machine states from the cloud falls into the interval, since one can turn on any machine; updates are modelled in `Follow`, `RunTurn` and `Charging`.
- NodeSchedulers.NodeScheduler.Update: IP addresses.
- NodeSchedulers.NodeScheduler.Initialize: the debug mode that waits for a node manager started by hand.
- NodeSchedulers.NodeScheduler.Kill: a single id or type given as a string, which no caller gives; the types are as many as the ids, or none.
- Sockets, JSON, the 1024-byte reads, lost connections: replaced by the lock-step connection stated above.
- A member worker process that restarts while it is a member: its connection is lost, which is not modelled.
- The neural network, the tokenizer, downloads: running a task either yields a report or an exception.
- Logging and metrics, except the charges and the response time.
- `NodeScheduler.workers`, which starts at 0 whatever is running and also falls when nothing is stopped: no useful invariant holds of it.
- The user interface, plots, log analysis, command-line parsing.
- LoadWindow.RoundedTests: `round` is modelled on real numbers with halves to even, not on binary floats.
- TimedRelease.ReleaseFor: nothing else happens to the pool at the loop's awaits; `ReleasedInRun` covers that.
