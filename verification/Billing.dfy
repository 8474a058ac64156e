/** The scheduler's own runs are runs of the charge ledger, so what holds of the ledger holds of them. */
module Billing {
  import opened Queues
  import opened LoadWindow
  import opened InstanceModel
  import opened Scheduling
  import Charging

  /** The ledger can go from m at one time to r at a later one. */
  ghost predicate Charged(m: Manager, now: real, r: Manager, end: real) {
    exists events :: Charging.Run(m, now, events, r, end)
  }

  lemma ChargedStays(m: Manager, now: real)
    ensures Charged(m, now, m, now)
  {
    assert Charging.Run(m, now, [], m, now);
  }

  lemma {:induction false} RunOn(
    m: Manager, now: real, events: seq<Charging.Event>, r: Manager, end: real, e: Charging.Event)
    requires Charging.Run(m, now, events, r, end) && (e.Elapse? ==> e.duration >= 0.0)
    ensures Charging.Run(m, now, events + [e], Charging.Step(r, end, e).0, Charging.Step(r, end, e).1)
    decreases |events|
  {
    if events == [] {
      var (r', end') := Charging.Step(r, end, e);
      assert events + [e] == [e];
      assert Charging.Run(r', end', [e][1..], r', end');
    } else {
      assert (events + [e])[1..] == events[1..] + [e];
      var (m', now') := Charging.Step(m, now, events[0]);
      RunOn(m', now', events[1..], r, end, e);
    }
  }

  lemma ChargedOn(m: Manager, now: real, r: Manager, end: real, e: Charging.Event)
    requires Charged(m, now, r, end) && (e.Elapse? ==> e.duration >= 0.0)
    ensures Charged(m, now, Charging.Step(r, end, e).0, Charging.Step(r, end, e).1)
  {
    var events :| Charging.Run(m, now, events, r, end);
    RunOn(m, now, events, r, end, e);
  }

  lemma {:induction false} CheckEachCharged(
    m: Manager, start: real, r: Manager, ids: seq<InstanceId>, kind: Kind, now: real)
    requires Charged(m, start, r, now)
    ensures Charged(m, start, CheckEach(r, ids, kind, now).m, now)
    decreases |ids|
  {
    if ids != [] {
      ChargedOn(m, start, r, now, Charging.Event.Checked(ids[0], kind));
      CheckEachCharged(m, start, CheckLiving(r, ids[0], kind, now).m, ids[1..], kind, now);
    }
  }

  lemma {:induction false} ReportCharged(m: Manager, start: real, r: Manager, report: seq<Description>, now: real)
    requires Charged(m, start, r, now)
    ensures Charged(m, start, DescribeAll(r, report), now)
    decreases |report|
  {
    if report != [] {
      ChargedOn(m, start, r, now, Charging.Event.Reported(report[0].id, report[0].kind, report[0].state));
      ReportCharged(m, start, SetState(r, report[0].id, report[0].kind, report[0].state), report[1..], now);
    }
  }

  lemma InitializeCharged(m: Manager, start: real, report: seq<Description>, ready: real)
    requires start <= ready && InitializeNodes(m, report, ready).Some?
    ensures Charged(m, start, InitializeNodes(m, report, ready).value, ready)
  {
    ChargedStays(m, start);
    ReportCharged(m, start, m, report, start);
    var reported := UpdateInstances(m, false, report);
    ChargedUntil(m, start, reported, start, ready);
    if InitializeNodes(m, report, ready) != Some(reported) {
      var node := GetAll(reported.nodeManagers, {Stopped})[0];
      ChargedOn(m, start, reported, ready, Charging.Event.Initialised(node, NodeManager, true));
      ChargedOn(m, start, InitInstance(reported, node, NodeManager, true, ready), ready,
                Charging.Event.Signalled(node, NodeManager));
    }
  }

  lemma TurnCharged(m: Manager, start: real, r: Manager, w: Window, pick: Option<InstanceId>, now: real)
    requires Charged(m, start, r, now) && Listed(w.order, w.load)
    ensures Charged(m, start, Turn(r, w, pick, now).0.m, now)
  {
    CheckEachCharged(m, start, r, r.nodeManagers.keys, NodeManager, now);
    var first := CheckEach(r, r.nodeManagers.keys, NodeManager, now);
    CheckEachCharged(m, start, first.m, first.m.workers.keys, WorkerNode, now);
    if CheckAllLiving(r, now).Ok? {
      var checked := CheckAllLiving(r, now).m;
      match Decide(checked, w)
      case Create =>
        if pick.Some? {
          ChargedOn(m, start, checked, now, Charging.Event.Initialised(pick.value, WorkerNode, false));
        }
      case Kill(v) => ChargedOn(m, start, checked, now, Charging.Event.Killed(v, Some(WorkerNode)));
      case Nothing =>
    }
  }

  lemma ChargedUntil(m: Manager, start: real, r: Manager, now: real, later: real)
    requires Charged(m, start, r, now) && now <= later
    ensures Charged(m, start, r, later)
  {
    ChargedOn(m, start, r, now, Charging.Event.Elapse(later - now));
  }

  lemma {:induction false} FollowCharged(
    m: Manager, start: real, r: Manager, now: real, w: Window, steps: seq<Step>, end: real)
    requires Charged(m, start, r, now) && Listed(w.order, w.load) && ListedSteps(steps)
    requires Timed(steps, now) && now <= end && forall i | 0 <= i < |steps| :: steps[i].now <= end
    ensures Charged(m, start, Follow(r, w, steps).0.m, end)
    decreases |steps|
  {
    if steps == [] {
      ChargedUntil(m, start, r, now, end);
    } else {
      var time, rest := steps[0].now, steps[1..];
      ListedTail(steps);
      assert forall i | 0 <= i < |rest| :: rest[i] == steps[i + 1];
      ChargedUntil(m, start, r, now, time);
      match steps[0]
      case Heard(id, sent, _) =>
        ChargedOn(m, start, r, time, Charging.Event.Heard(id, sent));
        FollowCharged(m, start, NoteHeartBeat(r, id, sent, time), time, w, rest, end);
      case Summarised(id, sent, h, _) =>
        ChargedOn(m, start, r, time, Charging.Event.Heard(id, sent));
        FollowCharged(m, start, NoteHeartBeat(r, id, sent, time), time, Update(w, h), rest, end);
      case Updated(report, _) =>
        ReportCharged(m, start, r, report, time);
        FollowCharged(m, start, UpdateInstances(r, true, report), time, w, rest, end);
      case Scheduled(pick, _) =>
        TurnCharged(m, start, r, w, pick, time);
        var outcome := Turn(r, w, pick, time).0;
        if outcome.Ok? {
          FollowCharged(m, start, outcome.m, time, w, rest, end);
        } else {
          ChargedUntil(m, start, outcome.m, time, end);
        }
    }
  }

  /** From the start on, whatever the cloud reports, whatever heartbeats arrive and whatever turns the
      scheduler takes, also when a KeyError ends it: what a machine was billed for, with the interval
      still open, is at most the time since the first of those intervals began. */
  lemma SchedulerNeverDoubleBills(
    self: InstanceId, start: real, report: seq<Description>, ready: real,
    w: Window, steps: seq<Step>, end: real, id: InstanceId)
    requires start <= ready && InitializeNodes(NewManager(self, start), report, ready).Some?
    requires Listed(w.order, w.load) && ListedSteps(steps)
    requires Timed(steps, ready) && ready <= end && forall i | 0 <= i < |steps| :: steps[i].now <= end
    ensures var begun := InitializeNodes(NewManager(self, start), report, ready).value;
      var r := Follow(begun, w, steps).0.m;
      match Charging.FirstBilled(r.charges, id)
      case None => Charging.Billed(r.charges, id) == 0.0
      case Some(first) => Charging.Billed(r.charges, id) + Charging.Open(r, end, id) <= end - first
  {
    var m := NewManager(self, start);
    var begun := InitializeNodes(m, report, ready).value;
    InitializeCharged(m, start, report, ready);
    FollowCharged(m, start, begun, ready, w, steps, end);
    var r := Follow(begun, w, steps).0.m;
    var events :| Charging.Run(m, start, events, r, end);
    Charging.NeverDoubleBilled(m, start, events, r, end, id);
  }
}
