/** An idle farm keeps turning on machines, in one interval and over any number of them. */
module Growth {
  import opened Queues
  import opened PoolModel
  import opened PoolLaws
  import opened WorkerModel
  import opened Farm
  import opened Runs
  import opened LoadWindow
  import opened InstanceModel
  import opened Scheduling
  import opened Intervals
  import opened EndToEnd
  import Charging
  import Witness

  /** A heartbeat of an idle pool puts the scheduler into its unlimited branch exactly if the waiting
      tasks, the members and the tasks requeued from processing outnumber the thefts. */
  lemma UnservedExactlyWhen(s: Farm, w: Window)
    requires Reachable(s) && WellKeyed(s.pool) && Workless(s.pool)
    ensures var after := Update(w, GenerateHeartBeat(s.pool));
      && Listed(after.order, after.load) && after.order == []
      && (Unserved(after) <==> |s.pool.tasks| + |s.pool.keys| + |s.log.requeued| > |s.log.stolen|)
  {
    IdleSummary(s);
    EmptyAllocationDecision(w, GenerateHeartBeat(s.pool), [], 0);
  }

  /** So after the heartbeat of an idle pool the workers on are bounded, in all that can happen until
      the next one, exactly if there are as many thefts as waiting tasks, members and requeued tasks. */
  lemma IdleBoundExactlyWhen(s: Farm, m: Manager, w: Window, from: real)
    requires Reachable(s) && WellKeyed(s.pool) && Workless(s.pool) && WellRun(m)
    ensures var after := Update(w, GenerateHeartBeat(s.pool));
      && Listed(after.order, after.load)
      && ((forall steps | Plausible(m, steps, from) :: Bounded(m, after, steps)) <==>
            |s.pool.tasks| + |s.pool.keys| + |s.log.requeued| <= |s.log.stolen|)
  {
    UnservedExactlyWhen(s, w);
    IntervalBounds(m, Update(w, GenerateHeartBeat(s.pool)), from);
  }

  /** The node manager's pool, the instance manager, and the window between them. */
  datatype System = System(farm: Farm, manager: Manager, window: Window)

  const HEART_BEAT_INTERVAL_NODE_MANAGER: real := 2.0

  /** The node manager's part of a round: waiting tasks are dispatched right after the heartbeat, and
      the answer to it changes the members. */
  ghost predicate FarmRound(s: Farm, m: Manager, from: real, r: Farm) {
    var answer := Membership(WorkersRunning(m), WorkersPending(m));
    && Valid(s.pool) && s.now <= from
    && var dispatched := Next(Next(s, Tick(from - s.now)), RunDispatch);
    Enabled(dispatched, answer) && r == Next(dispatched, answer)
  }

  /** The instance manager's part: the scheduler goes its steps, and the sleep after its last turn is
      over by the next heartbeat. */
  ghost predicate ManagerRound(m: Manager, w: Window, from: real, until: real, steps: seq<Step>, r: Manager) {
    && Listed(w.order, w.load) && Plausible(m, steps, from) && Follow(m, w, steps).0 == Ok(r)
    && forall i | 0 <= i < |steps| :: steps[i].now + (if steps[i].Scheduled? then TURN else 0.0) <= until
  }

  /** From one heartbeat of the node manager to the next, by one clock: the heartbeat renews the window,
      and both sides act on it. */
  ghost predicate Round(a: System, node: InstanceId, from: real, until: real, steps: seq<Step>, b: System) {
    var noted := NoteHeartBeat(a.manager, node, from, from);
    && node !in a.manager.workers.keys && FarmRound(a.farm, noted, from, b.farm)
    && b.window == Update(a.window, GenerateHeartBeat(a.farm.pool))
    && ManagerRound(noted, b.window, from, until, steps, b.manager)
  }

  /** No task waits, and nothing is queued, in hand or on its way at any member; nothing was stolen that
      requeueing does not make up for. */
  ghost predicate FarmAtRest(s: Farm) {
    && Reachable(s) && Valid(s.pool) && s.pool.keys != [] && s.pool.tasks == [] && Workless(s.pool)
    && (forall w :: Pipeline(WorkerOf(s, w)) == [])
    && |s.log.requeued| >= |s.log.stolen|
  }

  ghost predicate AtRest(a: System, node: InstanceId) {
    FarmAtRest(a.farm) && WellRun(a.manager) && OnSet(a.manager) != [] && node !in a.manager.workers.keys
  }

  /** A membership change moves nothing in a pool whose members have no work. */
  lemma WorklessMoves(p: Pool, running: seq<WorkerId>, pending: seq<WorkerId>)
    requires Valid(p) && Workless(p) && NoDup(running + pending)
    ensures |OnMembership(p, running, pending).tasks| == |p.tasks|
    ensures Collect(Whole, PoolModel.Stopped(p, running, pending), p.processing) == multiset{}
  {
    var gone := PoolModel.Stopped(p, running, pending);
    EmptyQueues(gone, p.assignment);
    EmptyQueues(gone, p.processing);
    MembershipCounts(p, running, pending);
    assert |multiset(OnMembership(p, running, pending).tasks)| == |multiset(p.tasks)|;
  }

  lemma WorklessStays(p: Pool, running: seq<WorkerId>, pending: seq<WorkerId>)
    requires Valid(p) && Workless(p) && NoDup(running + pending) && running + pending != []
    ensures var r := OnMembership(p, running, pending); Workless(r) && r.keys != []
  {
    MembershipShape(p, running, pending);
    assert (running + pending)[0] in OnMembership(p, running, pending).keys;
  }

  /** Time passes, and there is nothing to dispatch. */
  lemma RestingDispatch(s: Farm, from: real)
    requires FarmAtRest(s) && s.now <= from
    ensures var r := Next(Next(s, Tick(from - s.now)), RunDispatch);
      FarmAtRest(r) && r.pool == s.pool && r.log == s.log && r.now == from
  {
    var ticked := Next(s, Tick(from - s.now));
    Extend(s, Tick(from - s.now));
    assert Next(ticked, RunDispatch) == ticked;
    assert forall w :: WorkerOf(ticked, w) == WorkerOf(s, w);
  }

  lemma RestingExchange(s: Farm, running: seq<WorkerId>, pending: seq<WorkerId>)
    requires FarmAtRest(s) && NoDup(running + pending) && running + pending != []
    ensures Enabled(s, Membership(running, pending))
    ensures var r := Next(s, Membership(running, pending));
      FarmAtRest(r) && r.log.registered == s.log.registered && r.now == s.now
  {
    Extend(s, Membership(running, pending));
    WorklessMoves(s.pool, running, pending);
    WorklessStays(s.pool, running, pending);
    RestingLog(s, running, pending);
  }

  lemma RestingLog(s: Farm, running: seq<WorkerId>, pending: seq<WorkerId>)
    requires Valid(s.pool) && NoDup(running + pending)
    requires Collect(Whole, PoolModel.Stopped(s.pool, running, pending), s.pool.processing) == multiset{}
    ensures var r := Next(s, Membership(running, pending));
      && r.pool == OnMembership(s.pool, running, pending) && r.now == s.now
      && r.log.registered == s.log.registered && r.log.stolen == s.log.stolen && r.log.requeued == s.log.requeued
      && forall w :: WorkerOf(r, w) == WorkerOf(s, w)
  {
    MembershipParts(s, running, pending);
  }

  lemma SomebodyOn(m: Manager)
    requires Tidy(m) && OnSet(m) != []
    ensures NoDup(WorkersRunning(m) + WorkersPending(m)) && WorkersRunning(m) + WorkersPending(m) != []
  {
    ResponseIsTheOnSet(m);
    assert OnSet(m)[0] in OnSet(m);
    assert OnSet(m)[0] in WorkersRunning(m) + WorkersPending(m);
  }

  lemma NotedWellRun(m: Manager, node: InstanceId, from: real)
    requires WellRun(m)
    ensures var r := NoteHeartBeat(m, node, from, from);
      WellRun(r) && OnSet(r) == OnSet(m) && r.workers == m.workers && r.nodeManagers == m.nodeManagers
  {
  }

  /** Two machines the manager does not know yet, neither of them the node manager that reports. */
  lemma TwoNewMachines(m: Manager, node: InstanceId) returns (picks: seq<InstanceId>)
    ensures |picks| == 2 && AllStartable(m, picks) && node !in picks
  {
    var three := NewMachines(m, 3);
    picks := if three[0] == node then three[1..] else if three[1] == node then [three[0], three[2]] else three[..2];
  }

  lemma FarmStaysAtRest(s: Farm, m: Manager, from: real) returns (r: Farm)
    requires FarmAtRest(s) && Tidy(m) && OnSet(m) != [] && s.now <= from
    ensures FarmRound(s, m, from, r) && FarmAtRest(r) && r.now == from && r.log.registered == s.log.registered
  {
    SomebodyOn(m);
    RestingDispatch(s, from);
    var dispatched := Next(Next(s, Tick(from - s.now)), RunDispatch);
    RestingExchange(dispatched, WorkersRunning(m), WorkersPending(m));
    r := Next(dispatched, Membership(WorkersRunning(m), WorkersPending(m)));
  }

  /** Between two heartbeats an unserved scheduler has time for two turns. */
  lemma ManagerGrows(m: Manager, w: Window, node: InstanceId, from: real, until: real)
    returns (steps: seq<Step>, r: Manager)
    requires WellRun(m) && Listed(w.order, w.load) && Unserved(w) && node !in m.workers.keys
    requires from + HEART_BEAT_INTERVAL_NODE_MANAGER <= until
    ensures ManagerRound(m, w, from, until, steps, r)
    ensures WellRun(r) && |OnSet(r)| == |OnSet(m)| + 2 && node !in r.workers.keys
  {
    var picks := TwoNewMachines(m, node);
    steps := UnservedStarts(m, w, from, picks);
    r := Follow(m, w, steps).0.m;
  }

  lemma GrowOnce(a: System, node: InstanceId, from: real, until: real) returns (steps: seq<Step>, b: System)
    requires AtRest(a, node) && a.farm.now <= from && from + HEART_BEAT_INTERVAL_NODE_MANAGER <= until
    ensures Round(a, node, from, until, steps, b) && AtRest(b, node) && b.farm.now == from
    ensures |OnSet(b.manager)| == |OnSet(a.manager)| + 2 && b.farm.log.registered == a.farm.log.registered
  {
    var noted := NoteHeartBeat(a.manager, node, from, from);
    var window := Update(a.window, GenerateHeartBeat(a.farm.pool));
    NotedWellRun(a.manager, node, from);
    UnservedExactlyWhen(a.farm, a.window);
    var farm := FarmStaysAtRest(a.farm, noted, from);
    var manager;
    steps, manager := ManagerGrows(noted, window, node, from, until);
    b := System(farm, manager, window);
    assert OnSet(b.manager) != [];
  }

  /** Heartbeats at the given times, the first of them not before a given one, lead from a to b. */
  ghost predicate Rounds(a: System, node: InstanceId, times: seq<real>, b: System)
    decreases |times|
  {
    if |times| <= 1 then a == b
    else exists steps, c :: Round(a, node, times[0], times[1], steps, c) && Rounds(c, node, times[1..], b)
  }

  /** The node manager sleeps between its heartbeats. */
  ghost predicate Beating(times: seq<real>) {
    forall i | 0 <= i < |times| - 1 :: times[i] + HEART_BEAT_INTERVAL_NODE_MANAGER <= times[i + 1]
  }

  /** An idle farm keeps growing: for any times of the node manager's heartbeats that its sleep admits,
      there is a run of the whole system in which there is no task at all and two more workers are
      turned on from each heartbeat to the next. */
  lemma {:induction false} IdleFarmKeepsGrowing(a: System, node: InstanceId, times: seq<real>) returns (b: System)
    requires AtRest(a, node) && times != [] && a.farm.now <= times[0] && Beating(times)
    ensures Rounds(a, node, times, b) && AtRest(b, node)
    ensures |OnSet(b.manager)| == |OnSet(a.manager)| + 2 * (|times| - 1)
    ensures b.farm.log.registered == a.farm.log.registered
    decreases |times|
  {
    if |times| == 1 {
      b := a;
    } else {
      assert Beating(times[1..]) by {
        assert forall i | 0 <= i < |times| - 1 :: times[1..][i] == times[i + 1];
      }
      var steps, c := GrowOnce(a, node, times[0], times[1]);
      b := IdleFarmKeepsGrowing(c, node, times[1..]);
    }
  }

  lemma FirstWorkerStarted(self: InstanceId, id: InstanceId)
    ensures var r := InitInstance(NewManager(self, 0.0), id, WorkerNode, false, 0.0);
      && Charging.Run(NewManager(self, 0.0), 0.0, [Charging.Event.Initialised(id, WorkerNode, false)], r, 0.0)
      && WellRun(r) && On(r.workers, id) && OnSet(r) != [] && r.workers.keys == [id]
  {
    var r := InitInstance(NewManager(self, 0.0), id, WorkerNode, false, 0.0);
    assert Charging.Run(r, 0.0, [], r, 0.0);
    assert id in OnSet(r);
  }

  lemma AloneAtRest()
    ensures FarmAtRest(Farm(Witness.Alone, map[], 0.0, EmptyLog))
  {
    Witness.ReachAlone();
  }

  /** Such a system is reachable: one worker was started and has joined; no task was ever registered. */
  lemma RestingSystem(self: InstanceId, node: InstanceId, window: Window)
    returns (events: seq<Charging.Event>, a: System)
    requires node != Witness.A
    ensures Charging.Run(NewManager(self, 0.0), 0.0, events, a.manager, 0.0)
    ensures AtRest(a, node) && a.window == window && a.farm.pool.tasks == [] && a.farm.log == EmptyLog
    ensures a.farm.pool.keys == [Witness.A] && On(a.manager.workers, Witness.A)
  {
    AloneAtRest();
    FirstWorkerStarted(self, Witness.A);
    events := [Charging.Event.Initialised(Witness.A, WorkerNode, false)];
    var manager := InitInstance(NewManager(self, 0.0), Witness.A, WorkerNode, false, 0.0);
    a := System(Farm(Witness.Alone, map[], 0.0, EmptyLog), manager, window);
  }
}
