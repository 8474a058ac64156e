/** The instance manager's dictionaries as the program keeps them, updated in place. Every method is
    proved equal to the handler's function on the state as a value. */
module NodeSchedulers {
  import opened Queues
  import opened LoadWindow
  import opened InstanceModel

  class NodeScheduler {
    var nodeManagers: Nodes
    var workers: Nodes
    var chargeTime: map<InstanceId, real>
    var lastHeartBeat: map<InstanceId, real>
    var startSignal: map<InstanceId, real>
    var charges: seq<Charge>

    function View(): Manager
      reads this
    {
      Manager(nodeManagers, workers, chargeTime, lastHeartBeat, startSignal, charges)
    }

    constructor (self: InstanceId, now: real)
      ensures View() == NewManager(self, now)
    {
      nodeManagers, workers := NoNodes, NoNodes;
      chargeTime, lastHeartBeat, startSignal, charges := map[self := now], map[], map[], [];
    }

    method SetInstanceState(id: InstanceId, kind: Kind, state: InstanceState)
      modifies this`nodeManagers, this`workers
      ensures View() == SetState(old(View()), id, kind, state)
    {
      var nodes := if kind.NodeManager? then nodeManagers else workers;
      if id !in nodes.states || nodes.states[id] != state {
        var keys := if id in nodes.states then nodes.keys else nodes.keys + [id];
        nodes := Nodes(keys, nodes.states[id := state]);
      } else {
        assert nodes.states[id := state] == nodes.states;
      }
      if kind.NodeManager? {
        nodeManagers := nodes;
      } else {
        workers := nodes;
      }
    }

    method Init(id: InstanceId, kind: Kind, wait: bool, now: real)
      modifies this`nodeManagers, this`workers, this`chargeTime
      ensures View() == InitInstance(old(View()), id, kind, wait, now)
    {
      if id in workers.states && !workers.states[id].Stopped? {
        return;
      }
      if wait {
        SetInstanceState(id, kind, Running);
      } else {
        SetInstanceState(id, kind, Pending);
      }
      chargeTime := chargeTime[id := now];
    }

    method LogCharge(id: InstanceId, now: real)
      requires id in chargeTime
      modifies this`charges, this`chargeTime
      ensures View() == CloseCharge(old(View()), id, now)
    {
      charges := charges + [Charge(id, chargeTime[id], now)];
      chargeTime := chargeTime - {id};
    }

    /** _kill_instance: one pass over the states, one over the charges. */
    method Kill(ids: seq<InstanceId>, kinds: seq<Kind>, now: real)
      requires kinds == [] || |kinds| == |ids|
      modifies this
      ensures View() == KillEach(old(View()), ids, kinds, now)
    {
      TwoPassesKillEach(View(), ids, kinds, now);
      if kinds != [] {
        MarkAll(ids, kinds);
      }
      SettleAll(ids, now);
    }

    method MarkAll(ids: seq<InstanceId>, kinds: seq<Kind>)
      requires |kinds| == |ids|
      modifies this`nodeManagers, this`workers, this`lastHeartBeat, this`startSignal
      ensures View() == MarkEach(old(View()), ids, kinds)
    {
      var i := 0;
      while i < |ids|
        invariant 0 <= i <= |ids|
        invariant MarkEach(View(), ids[i..], kinds[i..]) == MarkEach(old(View()), ids, kinds)
      {
        assert ids[i..][0] == ids[i] && ids[i..][1..] == ids[i + 1..];
        assert kinds[i..][0] == kinds[i] && kinds[i..][1..] == kinds[i + 1..];
        SetInstanceState(ids[i], kinds[i], Stopping);
        lastHeartBeat := lastHeartBeat - {ids[i]};
        startSignal := startSignal - {ids[i]};
        i := i + 1;
      }
    }

    method SettleAll(ids: seq<InstanceId>, now: real)
      modifies this`charges, this`chargeTime
      ensures View() == SettleEach(old(View()), ids, now)
    {
      var i := 0;
      while i < |ids|
        invariant 0 <= i <= |ids|
        invariant SettleEach(View(), ids[i..], now) == SettleEach(old(View()), ids, now)
      {
        assert ids[i..][0] == ids[i] && ids[i..][1..] == ids[i + 1..];
        if ids[i] in chargeTime {
          LogCharge(ids[i], now);
        }
        i := i + 1;
      }
    }

    method ProcessHeartBeat(id: InstanceId, sent: real, now: real)
      modifies this`chargeTime, this`lastHeartBeat
      ensures View() == NoteHeartBeat(old(View()), id, sent, now)
    {
      if id !in chargeTime {
        chargeTime := chargeTime[id := now];
      }
      lastHeartBeat := lastHeartBeat[id := sent];
    }

    /** Whether the check returned; it raises KeyError otherwise. */
    method CheckOne(id: InstanceId, kind: Kind, now: real) returns (returned: bool)
      modifies this
      ensures returned == CheckLiving(old(View()), id, kind, now).Ok?
      ensures View() == CheckLiving(old(View()), id, kind, now).m
    {
      var nodes := if kind.NodeManager? then nodeManagers else workers;
      if !(IsState(nodes, id, Running) || IsState(nodes, id, Pending)) {
        return true;
      }
      if id in lastHeartBeat && now - lastHeartBeat[id] < HEART_BEAT_TIMEOUT {
        SetInstanceState(id, kind, Running);
        return true;
      }
      if id !in lastHeartBeat {
        if SignalTimedOut(View(), id, now) && !(kind.WorkerNode? && GetAll(nodeManagers, {Running}) == []) {
          startSignal := startSignal[id := now];
        }
        return true;
      }
      if id !in chargeTime {
        return false;
      }
      LogCharge(id, now);
      Init(id, kind, false, now);
      return true;
    }

    method CheckAll(ids: seq<InstanceId>, kind: Kind, now: real) returns (returned: bool)
      modifies this
      ensures returned == CheckEach(old(View()), ids, kind, now).Ok?
      ensures View() == CheckEach(old(View()), ids, kind, now).m
    {
      ghost var goal := CheckEach(View(), ids, kind, now);
      assert ids[0..] == ids;
      var i := 0;
      while i < |ids|
        invariant 0 <= i <= |ids|
        invariant CheckEach(View(), ids[i..], kind, now) == goal
      {
        assert ids[i..][0] == ids[i] && ids[i..][1..] == ids[i + 1..];
        var fine := CheckOne(ids[i], kind, now);
        if !fine {
          return false;
        }
        i := i + 1;
      }
      return true;
    }

    /** update_instances, given what the cloud would answer. */
    method Update(check: bool, report: seq<Description>)
      modifies this`nodeManagers, this`workers
      ensures View() == UpdateInstances(old(View()), check, report)
    {
      if check && GetAll(workers, {Pending, Stopping}) == [] && GetAll(nodeManagers, {Pending, Stopping}) == [] {
        return;
      }
      var i := 0;
      while i < |report|
        invariant 0 <= i <= |report|
        invariant DescribeAll(View(), report[i..]) == DescribeAll(old(View()), report)
      {
        assert report[i..][0] == report[i] && report[i..][1..] == report[i + 1..];
        SetInstanceState(report[i].id, report[i].kind, report[i].state);
        i := i + 1;
      }
    }

    /** Whether it returned; it raises ConnectionError when there is no node manager to start. */
    method Initialize(report: seq<Description>, now: real) returns (returned: bool)
      modifies this
      ensures returned <==> InitializeNodes(old(View()), report, now).Some?
      ensures returned ==> InitializeNodes(old(View()), report, now) == Some(View())
    {
      Update(false, report);
      if GetAll(nodeManagers, {Pending, Stopping, Stopped}) == [] {
        return true;
      }
      if GetAll(nodeManagers, {Running, Pending}) != [] {
        return true;
      }
      var stopped := GetAll(nodeManagers, {Stopped});
      if stopped == [] {
        return false;
      }
      Init(stopped[0], NodeManager, true, now);
      startSignal := startSignal[stopped[0] := now];
      return true;
    }

    /** One turn of run: update if it is time to, look after everybody, decide, act. */
    method RunTurn(window: TimeWindow, counter: int, report: seq<Description>, pick: Option<InstanceId>, now: real)
      returns (returned: bool, action: Action, next: int)
      requires Listed(window.order, window.workerAllocation)
      modifies this
      ensures var m := if counter <= 0 then UpdateInstances(old(View()), true, report) else old(View());
        (if returned then Ok(View()) else KeyError(View()), action) == Turn(m, window.View(), pick, now)
      ensures next == NextCounter(counter)
    {
      action := Nothing;
      next := counter;
      if next <= 0 {
        Update(true, report);
        next := BOTO_UPDATE_SEC;
      }
      next := next - SERVER_SLEEP_TIME;
      returned := CheckAll(nodeManagers.keys, NodeManager, now);
      if !returned {
        return;
      }
      returned := CheckAll(workers.keys, WorkerNode, now);
      if !returned {
        return;
      }
      action := GetAction(window.View(), GetAll(workers, {Pending, Running}), |workers.keys|);
      match action
      case Create =>
        if pick.Some? {
          Init(pick.value, WorkerNode, false, now);
        }
      case Kill(id) =>
        assert KillEach(View(), [id], [WorkerNode], now) == KillInstance(View(), id, Some(WorkerNode), now);
        Kill([id], [WorkerNode], now);
      case Nothing =>
    }
  }
}
