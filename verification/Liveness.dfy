/** Looking after the machines: when check_all_living fails, and what it does when it does not. */
module Liveness {
  import opened Queues
  import opened InstanceModel

  /** Nodes with the same keys, on in the same places, and otherwise in the same states. */
  ghost predicate SameOn(a: Nodes, b: Nodes) {
    && a.keys == b.keys && (forall k :: k in a.states <==> k in b.states) && (forall k :: On(a, k) <==> On(b, k))
    && forall k | k in a.states && k in b.states && !On(a, k) :: b.states[k] == a.states[k]
  }

  lemma {:induction false} SameFilter(
    keys: seq<InstanceId>, a: States, b: States, wanted: set<InstanceState>)
    requires forall k | k in keys :: (k in a && a[k] in wanted) <==> (k in b && b[k] in wanted)
    ensures Filter(keys, a, wanted) == Filter(keys, b, wanted)
  {
    if keys != [] {
      SameFilter(keys[1..], a, b, wanted);
    }
  }

  lemma SameOnSet(m: Manager, r: Manager)
    requires SameOn(m.workers, r.workers)
    ensures OnSet(m) == OnSet(r)
  {
    assert forall k :: (k in m.workers.states && m.workers.states[k] in {Pending, Running}) <==> On(m.workers, k);
    assert forall k :: (k in r.workers.states && r.workers.states[k] in {Pending, Running}) <==> On(r.workers, k);
    SameFilter(m.workers.keys, m.workers.states, r.workers.states, {Pending, Running});
  }

  lemma NodesFrame(n: Nodes, id: InstanceId, state: InstanceState)
    requires On(n, id) && state in {Pending, Running}
    ensures SameOn(n, Nodes(n.keys, n.states[id := state]))
  {
  }

  lemma SetStateFrame(m: Manager, id: InstanceId, kind: Kind, state: InstanceState)
    requires Tidy(m) && On(NodesOf(m, kind), id) && state in {Pending, Running}
    ensures var r := SetState(m, id, kind, state);
      Tidy(r) && SameOn(m.workers, r.workers) && SameOn(m.nodeManagers, r.nodeManagers)
  {
    NodesFrame(NodesOf(m, kind), id, state);
    SetStateTidy(m, id, kind, state);
  }

  /** Looking after an instance turns no machine on or off, and opens or closes nobody else's charge. */
  lemma CheckFrame(m: Manager, id: InstanceId, kind: Kind, now: real)
    requires Tidy(m) && CheckLiving(m, id, kind, now).Ok?
    ensures var r := CheckLiving(m, id, kind, now).m;
      && Tidy(r) && SameOn(m.workers, r.workers) && SameOn(m.nodeManagers, r.nodeManagers)
      && r.lastHeartBeat == m.lastHeartBeat
      && (forall k | k != id :: k in r.chargeTime <==> k in m.chargeTime)
  {
    if On(NodesOf(m, kind), id) {
      if id in m.lastHeartBeat && now - m.lastHeartBeat[id] < HEART_BEAT_TIMEOUT {
        SetStateFrame(m, id, kind, Running);
      } else if id in m.lastHeartBeat {
        InitFrame(CloseCharge(m, id, now), id, kind, now);
      }
    }
  }

  lemma InitFrame(m: Manager, id: InstanceId, kind: Kind, now: real)
    requires Tidy(m) && On(NodesOf(m, kind), id)
    ensures var r := InitInstance(m, id, kind, false, now);
      && Tidy(r) && SameOn(m.workers, r.workers) && SameOn(m.nodeManagers, r.nodeManagers)
      && r.lastHeartBeat == m.lastHeartBeat
      && (forall k | k != id :: k in r.chargeTime <==> k in m.chargeTime)
  {
    SetStateFrame(m, id, kind, Pending);
  }

  /** A worker that is on and whose last heartbeat is too old. */
  ghost predicate Overdue(m: Manager, id: InstanceId, now: real) {
    On(m.workers, id) && id in m.lastHeartBeat && now - m.lastHeartBeat[id] >= HEART_BEAT_TIMEOUT
  }

  ghost predicate Lapsed(m: Manager, id: InstanceId, kind: Kind, now: real) {
    && On(NodesOf(m, kind), id)
    && id in m.lastHeartBeat && now - m.lastHeartBeat[id] >= HEART_BEAT_TIMEOUT
    && id !in m.chargeTime
  }

  lemma {:induction false} CheckEachFrame(m: Manager, ids: seq<InstanceId>, kind: Kind, now: real)
    requires Tidy(m) && CheckEach(m, ids, kind, now).Ok?
    ensures var r := CheckEach(m, ids, kind, now).m;
      && Tidy(r) && SameOn(m.workers, r.workers) && SameOn(m.nodeManagers, r.nodeManagers)
      && r.lastHeartBeat == m.lastHeartBeat
      && (forall k | k !in ids :: k in r.chargeTime <==> k in m.chargeTime)
    decreases |ids|
  {
    if ids != [] {
      CheckFrame(m, ids[0], kind, now);
      CheckEachFrame(CheckLiving(m, ids[0], kind, now).m, ids[1..], kind, now);
    }
  }

  /** Looking after instances in turn fails exactly when one of them has lapsed. */
  lemma {:induction false} CheckEachFails(m: Manager, ids: seq<InstanceId>, kind: Kind, now: real)
    requires Tidy(m) && NoDup(ids)
    ensures CheckEach(m, ids, kind, now).KeyError? <==> exists id | id in ids :: Lapsed(m, id, kind, now)
    decreases |ids|
  {
    if ids != [] {
      NoDupTail(ids);
      var first := CheckLiving(m, ids[0], kind, now);
      assert first.KeyError? <==> Lapsed(m, ids[0], kind, now);
      if first.Ok? {
        CheckFrame(m, ids[0], kind, now);
        CheckEachFails(first.m, ids[1..], kind, now);
        assert forall k | k in ids[1..] :: Lapsed(first.m, k, kind, now) <==> Lapsed(m, k, kind, now);
      }
    }
  }

  lemma {:induction false} CheckEachSettles(m: Manager, ids: seq<InstanceId>, now: real, k: InstanceId)
    requires Tidy(m) && NoDup(ids) && CheckEach(m, ids, WorkerNode, now).Ok? && k in ids && Overdue(m, k, now)
    ensures k !in CheckEach(m, ids, WorkerNode, now).m.chargeTime
    decreases |ids|
  {
    NoDupTail(ids);
    var first := CheckLiving(m, ids[0], WorkerNode, now).m;
    CheckFrame(m, ids[0], WorkerNode, now);
    if k == ids[0] {
      CheckEachFrame(first, ids[1..], WorkerNode, now);
    } else {
      CheckEachSettles(first, ids[1..], now, k);
    }
  }

  lemma CheckEachEffect(m: Manager, ids: seq<InstanceId>, kind: Kind, now: real)
    requires Tidy(m) && NoDup(ids)
    ensures CheckEach(m, ids, kind, now).KeyError? <==> exists id | id in ids :: Lapsed(m, id, kind, now)
    ensures CheckEach(m, ids, kind, now).Ok? ==>
      var r := CheckEach(m, ids, kind, now).m;
      && Tidy(r) && SameOn(m.workers, r.workers) && SameOn(m.nodeManagers, r.nodeManagers)
      && r.lastHeartBeat == m.lastHeartBeat
      && (forall k | k !in ids :: k in r.chargeTime <==> k in m.chargeTime)
      && (kind.WorkerNode? ==> forall k | k in ids && Overdue(m, k, now) :: k !in r.chargeTime)
  {
    CheckEachFails(m, ids, kind, now);
    if CheckEach(m, ids, kind, now).Ok? {
      CheckEachFrame(m, ids, kind, now);
      if kind.WorkerNode? {
        forall k | k in ids && Overdue(m, k, now)
          ensures k !in CheckEach(m, ids, kind, now).m.chargeTime
        {
          CheckEachSettles(m, ids, now, k);
        }
      }
    }
  }

  /** No machine is listed under both types. */
  ghost predicate Disjoint(m: Manager) {
    forall k | k in m.nodeManagers.keys :: k !in m.workers.keys
  }

  /** A round of check_all_living raises KeyError exactly when an instance has lapsed: it is on, its
      last heartbeat is too old, and its charge was closed and not opened again. */
  lemma CheckAllFails(m: Manager, now: real)
    requires Tidy(m) && Disjoint(m)
    ensures CheckAllLiving(m, now).KeyError? <==> exists id, kind :: Lapsed(m, id, kind, now)
  {
    CheckEachEffect(m, m.nodeManagers.keys, NodeManager, now);
    assert forall id, kind :: Lapsed(m, id, kind, now) ==> id in NodesOf(m, kind).keys;
    var first := CheckEach(m, m.nodeManagers.keys, NodeManager, now);
    if first.Ok? {
      CheckEachEffect(first.m, m.workers.keys, WorkerNode, now);
      LapsedStill(m, first.m, now);
    }
  }

  /** The round over the node managers settles nothing for a worker. */
  lemma LapsedStill(m: Manager, r: Manager, now: real)
    requires Disjoint(m) && SameOn(m.workers, r.workers) && r.lastHeartBeat == m.lastHeartBeat
    requires forall k | k !in m.nodeManagers.keys :: k in r.chargeTime <==> k in m.chargeTime
    ensures forall id | id in m.workers.keys :: Lapsed(r, id, WorkerNode, now) <==> Lapsed(m, id, WorkerNode, now)
  {
  }

  /** Otherwise it turns no machine on or off, and leaves no charge open on a silent worker. */
  lemma CheckAllEffect(m: Manager, now: real)
    requires Tidy(m) && Disjoint(m) && CheckAllLiving(m, now).Ok?
    ensures var r := CheckAllLiving(m, now).m;
      && Tidy(r) && Disjoint(r) && SameOn(m.workers, r.workers) && SameOn(m.nodeManagers, r.nodeManagers)
      && r.lastHeartBeat == m.lastHeartBeat
      && (forall k | Overdue(m, k, now) :: k !in r.chargeTime)
  {
    CheckEachEffect(m, m.nodeManagers.keys, NodeManager, now);
    var first := CheckEach(m, m.nodeManagers.keys, NodeManager, now).m;
    CheckEachEffect(first, m.workers.keys, WorkerNode, now);
    assert forall k | Overdue(m, k, now) :: Overdue(first, k, now) && k in m.workers.keys;
  }

  ghost predicate Fresh(m: Manager, id: InstanceId, now: real) {
    id in m.lastHeartBeat && now - m.lastHeartBeat[id] < HEART_BEAT_TIMEOUT
  }

  lemma {:induction false} CheckEachPromotes(m: Manager, ids: seq<InstanceId>, now: real, k: InstanceId)
    requires Tidy(m) && NoDup(ids) && CheckEach(m, ids, WorkerNode, now).Ok? && On(m.workers, k)
    ensures var r := CheckEach(m, ids, WorkerNode, now).m;
      IsState(r.workers, k, Running) <==> IsState(m.workers, k, Running) || (k in ids && Fresh(m, k, now))
    decreases |ids|
  {
    if ids != [] {
      NoDupTail(ids);
      CheckFrame(m, ids[0], WorkerNode, now);
      CheckEachPromotes(CheckLiving(m, ids[0], WorkerNode, now).m, ids[1..], now, k);
    }
  }

  lemma {:induction false} ManagersApart(m: Manager, ids: seq<InstanceId>, now: real)
    requires Tidy(m) && CheckEach(m, ids, NodeManager, now).Ok?
    ensures CheckEach(m, ids, NodeManager, now).m.workers == m.workers
    ensures CheckEach(m, ids, NodeManager, now).m.lastHeartBeat == m.lastHeartBeat
    decreases |ids|
  {
    if ids != [] {
      CheckFrame(m, ids[0], NodeManager, now);
      ManagersApart(CheckLiving(m, ids[0], NodeManager, now).m, ids[1..], now);
    }
  }

  /** After a round of check_all_living a worker that is on counts as running exactly if it did before
      or has been heard of in time. */
  lemma HeardMeansRunning(m: Manager, now: real, k: InstanceId)
    requires Tidy(m) && Disjoint(m) && CheckAllLiving(m, now).Ok? && On(m.workers, k)
    ensures IsState(CheckAllLiving(m, now).m.workers, k, Running) <==>
      IsState(m.workers, k, Running) || Fresh(m, k, now)
  {
    CheckEachEffect(m, m.nodeManagers.keys, NodeManager, now);
    ManagersApart(m, m.nodeManagers.keys, now);
    var first := CheckEach(m, m.nodeManagers.keys, NodeManager, now).m;
    CheckEachPromotes(first, first.workers.keys, now, k);
  }

  /** A node manager that times out is charged anew, so looking after node managers neither opens nor
      closes any charge. */
  lemma ManagerKeepsCharges(m: Manager, id: InstanceId, now: real)
    requires Tidy(m) && id !in m.workers.keys && CheckLiving(m, id, NodeManager, now).Ok?
    ensures CheckLiving(m, id, NodeManager, now).m.chargeTime.Keys == m.chargeTime.Keys
  {
  }

  lemma {:induction false} ManagersKeepCharges(m: Manager, ids: seq<InstanceId>, now: real)
    requires Tidy(m) && CheckEach(m, ids, NodeManager, now).Ok? && forall k | k in ids :: k !in m.workers.keys
    ensures CheckEach(m, ids, NodeManager, now).m.chargeTime.Keys == m.chargeTime.Keys
    decreases |ids|
  {
    if ids != [] {
      CheckFrame(m, ids[0], NodeManager, now);
      ManagerKeepsCharges(m, ids[0], now);
      ManagersKeepCharges(CheckLiving(m, ids[0], NodeManager, now).m, ids[1..], now);
    }
  }

  /** Every node manager that is on and has been heard of has its charge open. */
  ghost predicate NodesCharged(m: Manager) {
    forall id :: On(m.nodeManagers, id) && id in m.lastHeartBeat ==> id in m.chargeTime
  }

  lemma CheckAllKeepsNodes(m: Manager, now: real)
    requires Tidy(m) && Disjoint(m) && NodesCharged(m) && CheckAllLiving(m, now).Ok?
    ensures NodesCharged(CheckAllLiving(m, now).m)
  {
    ManagersKeepCharges(m, m.nodeManagers.keys, now);
    CheckEachEffect(m, m.nodeManagers.keys, NodeManager, now);
    var first := CheckEach(m, m.nodeManagers.keys, NodeManager, now).m;
    CheckEachEffect(first, first.workers.keys, WorkerNode, now);
    CheckAllEffect(m, now);
  }

  /** A worker that has lapsed makes a round fail, whatever else is listed where. */
  lemma LapsedFails(m: Manager, id: InstanceId, now: real)
    requires Tidy(m) && Lapsed(m, id, WorkerNode, now)
    ensures CheckAllLiving(m, now).KeyError?
  {
    LapsedThrough(m, m.nodeManagers.keys, NodeManager, id, now);
    var first := CheckEach(m, m.nodeManagers.keys, NodeManager, now);
    if first.Ok? {
      LapsedThrough(first.m, first.m.workers.keys, WorkerNode, id, now);
    }
  }

  lemma {:induction false} LapsedThrough(m: Manager, ids: seq<InstanceId>, kind: Kind, id: InstanceId, now: real)
    requires Tidy(m) && Lapsed(m, id, WorkerNode, now)
    ensures var r := CheckEach(m, ids, kind, now);
      r.Ok? ==> Tidy(r.m) && Lapsed(r.m, id, WorkerNode, now) && (kind.WorkerNode? ==> id !in ids)
    decreases |ids|
  {
    if ids != [] {
      var first := CheckLiving(m, ids[0], kind, now);
      if first.Ok? {
        CheckFrame(m, ids[0], kind, now);
        LapsedThrough(first.m, ids[1..], kind, id, now);
      }
    }
  }

  /** The cloud does not report the worker off. */
  ghost predicate LeavesOn(report: seq<Description>, id: InstanceId) {
    forall i | 0 <= i < |report| && report[i].id == id && report[i].kind.WorkerNode? ::
      report[i].state in {Pending, Running}
  }

  lemma {:induction false} DescribedLapsed(m: Manager, report: seq<Description>, id: InstanceId, now: real)
    requires Tidy(m) && Lapsed(m, id, WorkerNode, now) && LeavesOn(report, id)
    ensures Tidy(DescribeAll(m, report)) && Lapsed(DescribeAll(m, report), id, WorkerNode, now)
    decreases |report|
  {
    if report != [] {
      SetStateTidy(m, report[0].id, report[0].kind, report[0].state);
      assert forall i | 0 <= i < |report[1..]| :: report[1..][i] == report[i + 1];
      DescribedLapsed(SetState(m, report[0].id, report[0].kind, report[0].state), report[1..], id, now);
    }
  }

  lemma {:induction false} DescribedTidy(m: Manager, report: seq<Description>)
    requires Tidy(m)
    ensures Tidy(DescribeAll(m, report))
    decreases |report|
  {
    if report != [] {
      SetStateTidy(m, report[0].id, report[0].kind, report[0].state);
      DescribedTidy(SetState(m, report[0].id, report[0].kind, report[0].state), report[1..]);
    }
  }
}
