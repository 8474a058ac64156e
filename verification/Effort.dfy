/** Work ends by itself: how many effective events any run can hold, and where a farm without any stands. */
module Effort {
  import opened Queues
  import opened PoolModel
  import opened PoolLaws
  import opened WorkerModel
  import opened Farm
  import opened Protocol
  import opened Bookkeeping
  import opened Runs
  import opened Completion

  /** An event by which the farm gets on with its work: a dispatch that moves something, or a step of a
      member's other than making a heartbeat. */
  ghost predicate Effective(s: Farm, e: Event) {
    match e
    case RunDispatch => s.pool.tasks != [] && s.pool.keys != []
    case RunTask(w, succeeds) => w in s.pool.keys && Work(WorkerOf(s, w), w, succeeds) != WorkerOf(s, w)
    case Send(w) => w in s.pool.keys
    case Serve(w) => w in s.pool.keys
    case Receive(w) => w in s.pool.keys
    case _ => false
  }

  /** How many events of a run are effective. */
  ghost function Efforts(s: Farm, events: seq<Event>): nat
    decreases |events|
  {
    if events == [] || !Valid(s.pool) || !Enabled(s, events[0]) then 0
    else (if Effective(s, events[0]) then 1 else 0) + Efforts(Next(s, events[0]), events[1..])
  }

  /** What an event can add to the work ahead: a member's heartbeat has to travel, a new task to be run. */
  function Supply(keys: seq<WorkerId>, e: Event): nat {
    if e.EmitBeat? && e.w in keys then 4 else if e.Register? then 21 else 0
  }

  function Supplies(keys: seq<WorkerId>, events: seq<Event>): nat {
    if events == [] then 0 else Supply(keys, events[0]) + Supplies(keys, events[1..])
  }

  ghost predicate Costs(s: Farm, e: Event, r: Farm) {
    && Valid(s.pool) && Valid(r.pool)
    && Measure(r) + (if Effective(s, e) then 1 else 0) <= Measure(s) + Supply(s.pool.keys, e)
  }

  lemma MeasureSame(s: Farm, r: Farm)
    requires Valid(s.pool) && r.pool == s.pool && forall w | w in s.pool.keys :: WorkerOf(r, w) == WorkerOf(s, w)
    ensures Measure(r) == Measure(s)
  {
    TotalOwedSame(s, r, s.pool.keys);
  }

  lemma MeasureChange(s: Farm, r: Farm, w: WorkerId)
    requires Valid(s.pool) && r.pool == s.pool && w in s.pool.keys
    requires forall v | v != w :: WorkerOf(r, v) == WorkerOf(s, v)
    ensures Measure(r) - Measure(s) == Owed(WorkerOf(r, w)) - Owed(WorkerOf(s, w))
  {
    TotalOwedChange(s, r, s.pool.keys, w);
  }

  lemma FailingOwes(k: Worker, w: WorkerId)
    ensures Work(k, w, false) != k ==> Owed(Work(k, w, false)) < Owed(k)
    ensures Owed(Beat(k, w)) == Owed(k) + 4
  {
  }

  lemma OnlyThisWorker(s: Farm, e: Event, w: WorkerId)
    requires Valid(s.pool) && Enabled(s, e) && (e.EmitBeat? || e.RunTask? || e.Send? || e.Receive? || e.Reboot?)
    requires e.w == w
    ensures var r := Next(s, e); r.pool == s.pool && forall v | v != w :: WorkerOf(r, v) == WorkerOf(s, v)
  {
  }

  lemma WorkerCosts(s: Farm, e: Event, w: WorkerId)
    requires Valid(s.pool) && Enabled(s, e) && (e.EmitBeat? || e.RunTask? || e.Send? || e.Receive?) && e.w == w
    ensures Costs(s, e, Next(s, e))
  {
    OnlyThisWorker(s, e, w);
    if w in s.pool.keys {
      MeasureChange(s, Next(s, e), w);
      WorkerOwes(s, e, w);
    } else {
      MeasureSame(s, Next(s, e));
    }
  }

  lemma WorkerOwes(s: Farm, e: Event, w: WorkerId)
    requires Valid(s.pool) && Enabled(s, e) && (e.EmitBeat? || e.RunTask? || e.Send? || e.Receive?) && e.w == w
    requires w in s.pool.keys
    ensures Owed(WorkerOf(Next(s, e), w)) + (if Effective(s, e) then 1 else 0)
         <= Owed(WorkerOf(s, w)) + Supply(s.pool.keys, e)
  {
    OwnStepsOwe(WorkerOf(s, w), w);
    FailingOwes(WorkerOf(s, w), w);
  }

  lemma ServeCosts(s: Farm, w: WorkerId)
    requires Sound(s) && InBalance(s) && WorkerOf(s, w).channel.Request?
    ensures Costs(s, Serve(w), Next(s, Serve(w)))
  {
    var r := Next(s, Serve(w));
    if w in s.pool.keys {
      ServeAnswers(s, w);
      AnsweredNearer(s, r, w);
    } else {
      ServeShape(s, w);
      ServeParts(s, w);
      ServeWorkers(s, w);
      MeasureSame(s, r);
    }
  }

  lemma DispatchCosts(s: Farm)
    requires Valid(s.pool)
    ensures Costs(s, RunDispatch, Next(s, RunDispatch))
  {
    var r := Next(s, RunDispatch);
    if s.pool.tasks != [] && s.pool.keys != [] {
      DispatchNearer(s, r);
    } else {
      DispatchShape(s.pool, s.now);
      assert r.pool == s.pool;
      assert forall w :: WorkerOf(r, w) == WorkerOf(s, w);
      MeasureSame(s, r);
    }
  }

  lemma RegisterCosts(s: Farm, task: TaskId)
    requires Valid(s.pool) && task !in s.log.registered
    ensures Costs(s, Register(task), Next(s, Register(task)))
  {
    var r := Next(s, Register(task));
    assert forall w :: WorkerOf(r, w) == WorkerOf(s, w);
    TotalOwedSame(s, r, s.pool.keys);
  }

  lemma TickCosts(s: Farm, elapsed: real)
    requires Valid(s.pool) && elapsed >= 0.0
    ensures Costs(s, Tick(elapsed), Next(s, Tick(elapsed)))
  {
    var r := Next(s, Tick(elapsed));
    assert r.pool == s.pool && forall w :: WorkerOf(r, w) == WorkerOf(s, w);
    MeasureSame(s, r);
  }

  lemma RebootCosts(s: Farm, w: WorkerId)
    requires Valid(s.pool) && w !in s.pool.keys
    ensures Costs(s, Reboot(w), Next(s, Reboot(w)))
  {
    OnlyThisWorker(s, Reboot(w), w);
    MeasureSame(s, Next(s, Reboot(w)));
  }

  lemma QuietCosts(s: Farm, e: Event)
    requires Valid(s.pool) && Enabled(s, e)
    requires e.Tick? || e.EmitBeat? || e.RunTask? || e.Send? || e.Receive? || e.Reboot?
    ensures Costs(s, e, Next(s, e))
  {
    if e.Tick? {
      TickCosts(s, e.elapsed);
    } else if e.Reboot? {
      RebootCosts(s, e.w);
    } else {
      WorkerCosts(s, e, e.w);
    }
  }

  lemma EventCosts(s: Farm, e: Event)
    requires Sound(s) && InBalance(s) && Enabled(s, e) && !e.Membership?
    ensures Costs(s, e, Next(s, e))
  {
    if e.Serve? {
      ServeCosts(s, e.w);
    } else if e.RunDispatch? {
      DispatchCosts(s);
    } else if e.Register? {
      RegisterCosts(s, e.task);
    } else {
      QuietCosts(s, e);
    }
  }

  /** Work ends by itself: in any run without a change of the members, whatever the order of events, the
      effective ones number at most the measure of the work at the start, less what is left of it, plus
      four for each heartbeat that a member makes and twenty-one for each task that is registered. */
  lemma {:induction false} EffortBounded(s: Farm, events: seq<Event>, r: Farm)
    requires Sound(s) && InBalance(s) && Run(s, events, r) && MembersStay(events)
    ensures Valid(r.pool) && Efforts(s, events) + Measure(r) <= Measure(s) + Supplies(s.pool.keys, events)
    decreases |events|
  {
    if events != [] {
      var next := Next(s, events[0]);
      EventCosts(s, events[0]);
      KeysStay(s, events[0]);
      BalancedStep(s, events[0]);
      EffortBounded(next, events[1..], r);
    }
  }

  /** No effective event can happen. */
  ghost predicate Halted(s: Farm)
    requires Valid(s.pool)
  {
    forall e | Enabled(s, e) :: !Effective(s, e)
  }

  lemma HealthyMember(s: Farm, w: WorkerId)
    requires Healthy(s) && w in s.pool.keys
    ensures Orderly(w, WorkerOf(s, w)) && !WorkerOf(s, w).failed
  {
    ReachableSafe(s);
  }

  lemma BusyIsEffective(s: Farm, w: WorkerId) returns (e: Event)
    requires Valid(s.pool) && w in s.pool.keys && Orderly(w, WorkerOf(s, w))
    requires !WorkerOf(s, w).failed && !Quiet(WorkerOf(s, w))
    ensures Enabled(s, e) && Effective(s, e)
  {
    if WorkerOf(s, w).channel.Request? {
      e := Serve(w);
    } else {
      e := OwnEvent(s, w);
    }
  }

  lemma HaltedMeansQuiet(s: Farm, w: WorkerId)
    requires Valid(s.pool) && Halted(s) && w in s.pool.keys && Orderly(w, WorkerOf(s, w)) && !WorkerOf(s, w).failed
    ensures Quiet(WorkerOf(s, w)) && !WorkerOf(s, w).taskCommandReceived
  {
    if !Quiet(WorkerOf(s, w)) {
      var e := BusyIsEffective(s, w);
      assert false;
    }
    QuietAsks(WorkerOf(s, w), w);
  }

  lemma HaltedMeansDispatched(s: Farm)
    requires Valid(s.pool) && Halted(s) && s.pool.keys != []
    ensures s.pool.tasks == []
  {
    assert Enabled(s, RunDispatch) ==> !Effective(s, RunDispatch);
  }

  lemma WouldBeHandedWork(p: Pool, w: WorkerId)
    requires Valid(p) && w in p.keys && p.assignment[w] != []
    ensures OnHeartBeat(p, w, false).1.Task?
  {
    NextTaskShape(p, w);
  }

  lemma QuietFarm(s: Farm)
    requires Healthy(s) && s.pool.tasks == []
    requires forall w | w in s.pool.keys :: Quiet(WorkerOf(s, w)) && s.pool.assignment[w] == []
    ensures Finished(s)
  {
    ReachableSafe(s);
    NothingHeld(s);
  }

  /** A halted farm with members none of whom has failed is finished, or waits for the heartbeat of a
      quiet member with assigned work, which will then be handed a task. */
  lemma HaltedFarm(s: Farm)
    requires Healthy(s) && Halted(s)
    ensures Finished(s) || exists w | w in s.pool.keys ::
      && Quiet(WorkerOf(s, w)) && s.pool.assignment[w] != []
      && OnHeartBeat(s.pool, w, WorkerOf(s, w).taskCommandReceived).1.Task?
  {
    HaltedMeansDispatched(s);
    forall w | w in s.pool.keys
      ensures Quiet(WorkerOf(s, w)) && !WorkerOf(s, w).taskCommandReceived
    {
      HealthyMember(s, w);
      HaltedMeansQuiet(s, w);
    }
    if w :| w in s.pool.keys && s.pool.assignment[w] != [] {
      WouldBeHandedWork(s.pool, w);
    } else {
      QuietFarm(s);
    }
  }
}
