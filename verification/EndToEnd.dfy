/** What the node manager's bookkeeping makes the instance manager do, and the other way round. */
module EndToEnd {
  import opened Queues
  import opened PoolModel
  import opened Farm
  import opened Runs
  import opened LoadWindow
  import opened InstanceModel
  import Charging
  import Witness

  lemma {:induction false} BusyNoDup(p: Pool, keys: seq<WorkerId>)
    requires WellKeyed(p) && NoDup(keys) && forall w | w in keys :: w in p.keys
    ensures NoDup(Busy(p, keys))
  {
    if keys != [] {
      NoDupTail(keys);
      BusyNoDup(p, keys[1..]);
      if Load(p, keys[0]) > 0 {
        NoDupCons(keys[0], Busy(p, keys[1..]));
      }
    }
  }

  /** The heartbeat is a faithful summary: it lists, once each, exactly the members with tasks queued
      or in hand, with how many; and its number of running tasks is the number of members. */
  lemma FaithfulSummary(p: Pool)
    requires WellKeyed(p)
    ensures var h := GenerateHeartBeat(p);
      && Listed(h.order, h.load) && h.running == |p.keys|
      && (forall w :: w in h.load <==> w in p.keys && |p.assignment[w]| + |p.processing[w]| > 0)
      && (forall w | w in h.load :: h.load[w] == |p.assignment[w]| + |p.processing[w]|)
  {
    BusyNoDup(p, p.keys);
    KeyCount(p.keys, p.processing.Keys);
  }

  /** While somebody has work, a worker chosen to be killed is a member with work, and none that has
      work has less: an idle member is never chosen. */
  lemma KilledWorkerIsBusy(s: Farm, w: Window, current: seq<WorkerId>, maxWorkers: nat)
    requires Reachable(s)
    ensures WellKeyed(s.pool)
    ensures var h := GenerateHeartBeat(s.pool); var after := Update(w, h);
      && Listed(after.order, after.load)
      && var action := GetAction(after, current, maxWorkers);
      h.order != [] && action.Kill? ==>
        && action.w in s.pool.keys && Load(s.pool, action.w) > 0
        && (forall v | v in s.pool.keys && Load(s.pool, v) > 0 :: Load(s.pool, action.w) <= Load(s.pool, v))
  {
    ReachableSafe(s);
    FaithfulSummary(s.pool);
    var after := Update(w, GenerateHeartBeat(s.pool));
    if GetAction(after, current, maxWorkers).Kill? {
      ActionMeaning(after, current, maxWorkers);
    }
  }

  /** The decision after one heartbeat that reports nobody busy. */
  lemma EmptyAllocationDecision(w: Window, h: Summary, current: seq<WorkerId>, maxWorkers: nat)
    requires h.order == [] && h.load == map[]
    ensures var after := Update(w, h);
      && Listed(after.order, after.load) && after.samples != []
      && after.samples[|after.samples| - 1] == (h.waiting + h.running) as real
      && (GetAction(after, current, maxWorkers).Create? <==>
            h.waiting + h.running > 0 || (ExactMean(after.samples) > 5.005 && current == [] && maxWorkers > 0))
  {
    ActionMeaning(Update(w, h), current, maxWorkers);
  }

  ghost predicate Workless(p: Pool)
    requires WellKeyed(p)
  {
    forall k | k in p.keys :: p.assignment[k] == [] && p.processing[k] == []
  }

  lemma IdleSummary(s: Farm)
    requires Reachable(s) && WellKeyed(s.pool) && Workless(s.pool)
    ensures var h := GenerateHeartBeat(s.pool);
      && h.order == [] && h.load == map[]
      && h.waiting + h.running == |s.pool.tasks| + |s.pool.keys| + |s.log.requeued| - |s.log.stolen|
  {
    CounterMeaning(s);
    FaithfulSummary(s.pool);
    EmptyQueues(s.pool.keys, s.pool.assignment);
    EmptyQueues(s.pool.keys, s.pool.processing);
    var h := GenerateHeartBeat(s.pool);
    KeyCount(h.order, {});
    assert h.load == map[];
  }

  /** When no member has any work, a heartbeat makes the scheduler ask for another worker exactly if the
      waiting tasks and the members, idle as they are, with the tasks ever requeued while being
      processed, outnumber the thefts; or if nobody is on, and an earlier heartbeat still tells of overload. */
  lemma IdlePoolDecision(s: Farm, w: Window, current: seq<WorkerId>, maxWorkers: nat)
    requires Reachable(s) && WellKeyed(s.pool) && Workless(s.pool)
    ensures var after := Update(w, GenerateHeartBeat(s.pool));
      && Listed(after.order, after.load) && after.samples != []
      && (GetAction(after, current, maxWorkers).Create? <==>
            || |s.pool.tasks| + |s.pool.keys| + |s.log.requeued| > |s.log.stolen|
            || (ExactMean(after.samples) > 5.005 && current == [] && maxWorkers > 0))
  {
    IdleSummary(s);
    EmptyAllocationDecision(w, GenerateHeartBeat(s.pool), current, maxWorkers);
  }

  function Repeat(h: Summary, n: nat): seq<Summary> {
    seq(n, _ => h)
  }

  lemma RepeatedUpdates(w: Window, h: Summary, n: nat)
    requires n > 0
    ensures Updates(w, Repeat(h, n)) == Update(Updates(w, Repeat(h, n - 1)), h)
  {
    assert Repeat(h, n)[..n - 1] == Repeat(h, n - 1);
  }

  lemma TwiceTheSame(x: real)
    ensures ExactMean([x, x]) == x
  {
    assert [x, x][..1] == [x] && [x][..0] == [];
    assert Sum([x]) == Sum([]) + x;
    assert Sum([x, x]) == x + x;
  }

  lemma TwoHeartBeats(w: Window, h: Summary)
    requires |w.samples| <= WINDOW_SIZE
    ensures Update(Update(w, h), h).samples == [Sample(h), Sample(h)]
  {
    var once := Update(w, h).samples;
    assert once[|once| - 1] == Sample(h);
  }

  lemma ShortWindow(w: Window, hs: seq<Summary>)
    requires |w.samples| <= WINDOW_SIZE
    ensures |Updates(w, hs).samples| <= WINDOW_SIZE
  {
    WindowIsLast(w, hs);
  }

  /** Two or more heartbeats of a pool that does not change in between fill the window. */
  lemma FilledWindow(w: Window, h: Summary, n: nat)
    requires |w.samples| <= WINDOW_SIZE && n >= 2
    ensures Updates(w, Repeat(h, n)) == Update(Updates(w, Repeat(h, n - 1)), h)
    ensures Updates(w, Repeat(h, n)).samples == [Sample(h), Sample(h)]
  {
    RepeatedUpdates(w, h, n);
    RepeatedUpdates(w, h, n - 1);
    ShortWindow(w, Repeat(h, n - 2));
    TwoHeartBeats(Updates(w, Repeat(h, n - 2)), h);
  }

  /** After two or more equal heartbeats of an idle pool, the earlier load is forgotten: the scheduler
      asks for another worker exactly if the count above is positive. */
  lemma IdlePoolSettles(s: Farm, w: Window, n: nat, current: seq<WorkerId>, maxWorkers: nat)
    requires Reachable(s) && |w.samples| <= WINDOW_SIZE && WellKeyed(s.pool) && Workless(s.pool) && n >= 2
    ensures var after := Updates(w, Repeat(GenerateHeartBeat(s.pool), n));
      && Listed(after.order, after.load)
      && (GetAction(after, current, maxWorkers).Create? <==>
            |s.pool.tasks| + |s.pool.keys| + |s.log.requeued| > |s.log.stolen|)
  {
    var h := GenerateHeartBeat(s.pool);
    IdleSummary(s);
    FilledWindow(w, h, n);
    TwiceTheSame(Sample(h));
    EmptyAllocationDecision(Updates(w, Repeat(h, n - 1)), h, current, maxWorkers);
  }

  /** A pool that starves is reachable: one task waits, there is no worker, and however long nothing
      changes, none is asked for. */
  lemma Starvation(w: Window, current: seq<WorkerId>, maxWorkers: nat) returns (s: Farm)
    requires |w.samples| <= WINDOW_SIZE
    ensures Reachable(s) && WellKeyed(s.pool) && |s.pool.tasks| == 1 && s.pool.keys == []
    ensures forall n: nat | n >= 2 ::
      var after := Updates(w, Repeat(GenerateHeartBeat(s.pool), n));
      Listed(after.order, after.load) && !GetAction(after, current, maxWorkers).Create?
  {
    s := Witness.AbandonedTask();
    forall n: nat | n >= 2
      ensures var after := Updates(w, Repeat(GenerateHeartBeat(s.pool), n));
        Listed(after.order, after.load) && !GetAction(after, current, maxWorkers).Create?
    {
      IdlePoolSettles(s, w, n, current, maxWorkers);
    }
  }

  lemma ListsBecomeKeys(m: Manager, p: Pool)
    requires Tidy(m) && Valid(p)
    ensures NoDup(WorkersRunning(m) + WorkersPending(m))
    ensures var r := OnMembership(p, WorkersRunning(m), WorkersPending(m));
      && (forall w :: w in r.assignment <==> On(m.workers, w))
      && (forall w :: w in r.processing <==> On(m.workers, w))
  {
    ResponseIsTheOnSet(m);
  }

  /** Membership end to end, after any run of the instance manager and any run of the farm: once the
      node manager has handled the answer to its heartbeat, its dictionaries' keys are exactly the
      workers that the instance manager has running or pending. */
  lemma MembersAreOn(
    self: InstanceId, start: real, events: seq<Charging.Event>, m: Manager, end: real, s: Farm)
    requires Charging.Run(NewManager(self, start), start, events, m, end) && Reachable(s)
    ensures Valid(s.pool) && NoDup(WorkersRunning(m) + WorkersPending(m))
    ensures var r := Next(s, Membership(WorkersRunning(m), WorkersPending(m))).pool;
      && (forall w :: w in r.assignment <==> On(m.workers, w))
      && (forall w :: w in r.processing <==> On(m.workers, w))
  {
    Charging.StaysTidy(NewManager(self, start), start, events, m, end);
    ReachableSafe(s);
    ListsBecomeKeys(m, s.pool);
    MembershipParts(s, WorkersRunning(m), WorkersPending(m));
  }
}
