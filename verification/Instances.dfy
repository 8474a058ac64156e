/** The instance manager's view of its machines: their states, their last signs of life and what
    they are charged for. */
module InstanceModel {
  import opened Queues
  import opened LoadWindow

  type InstanceId = WorkerId

  datatype InstanceState = Pending | Running | Stopping | Stopped | ShuttingDown | Terminated
  datatype Kind = NodeManager | WorkerNode

  /** One logged charge: the instance was on from since to until. */
  datatype Charge = Charge(instance: InstanceId, since: real, until: real)

  type States = map<InstanceId, InstanceState>

  /** A dictionary of states in insertion order. */
  datatype Nodes = Nodes(keys: seq<InstanceId>, states: States)

  datatype Manager = Manager(
    nodeManagers: Nodes,
    workers: Nodes,
    chargeTime: map<InstanceId, real>,
    lastHeartBeat: map<InstanceId, real>,
    startSignal: map<InstanceId, real>,
    charges: seq<Charge>)

  /** A handler either returns or raises KeyError; the state it leaves behind. */
  datatype Outcome = Ok(m: Manager) | KeyError(m: Manager)

  const HEART_BEAT_TIMEOUT: real := 10.0
  const START_SIGNAL_TIMEOUT: real := 10.0
  const BOTO_UPDATE_SEC: int := 60
  const SERVER_SLEEP_TIME: int := 1

  const NoNodes := Nodes([], map[])

  /** The instance manager itself is charged from the start. */
  function NewManager(self: InstanceId, now: real): Manager {
    Manager(NoNodes, NoNodes, map[self := now], map[], map[], [])
  }

  ghost predicate Keyed(n: Nodes) {
    NoDup(n.keys) && forall k :: k in n.keys <==> k in n.states
  }

  ghost predicate Tidy(m: Manager) {
    Keyed(m.nodeManagers) && Keyed(m.workers)
  }

  function NodesOf(m: Manager, kind: Kind): Nodes {
    match kind
    case NodeManager => m.nodeManagers
    case WorkerNode => m.workers
  }

  function SetState(m: Manager, id: InstanceId, kind: Kind, state: InstanceState): Manager {
    var n := NodesOf(m, kind);
    var n' := Nodes(if id in n.states then n.keys else n.keys + [id], n.states[id := state]);
    match kind
    case NodeManager => m.(nodeManagers := n')
    case WorkerNode => m.(workers := n')
  }

  lemma SetStateTidy(m: Manager, id: InstanceId, kind: Kind, state: InstanceState)
    requires Tidy(m)
    ensures Tidy(SetState(m, id, kind, state))
  {
    if id !in NodesOf(m, kind).states {
      NoDupAppend(NodesOf(m, kind).keys, [id]);
    }
  }

  function IsState(n: Nodes, id: InstanceId, state: InstanceState): bool {
    id in n.states && n.states[id] == state
  }

  /** get_all with a state filter: the keys in one of the states, in insertion order. */
  function GetAll(n: Nodes, wanted: set<InstanceState>): seq<InstanceId> {
    Filter(n.keys, n.states, wanted)
  }

  function Filter(keys: seq<InstanceId>, states: States, wanted: set<InstanceState>)
    : (r: seq<InstanceId>)
    ensures forall k :: k in r <==> k in keys && k in states && states[k] in wanted
  {
    if keys == [] then []
    else if keys[0] in states && states[keys[0]] in wanted then [keys[0]] + Filter(keys[1..], states, wanted)
    else Filter(keys[1..], states, wanted)
  }

  /** _init_instance; with `wait` it returns when the machine runs. The guard looks the instance up
      among the workers, whatever its type. */
  function InitInstance(m: Manager, id: InstanceId, kind: Kind, wait: bool, now: real): Manager {
    if id in m.workers.states && !m.workers.states[id].Stopped? then m
    else
      var m' := SetState(m, id, kind, if wait then Running else Pending);
      m'.(chargeTime := m'.chargeTime[id := now])
  }

  /** Log the open interval and close it. */
  function CloseCharge(m: Manager, id: InstanceId, now: real): Manager
    requires id in m.chargeTime
  {
    m.(charges := m.charges + [Charge(id, m.chargeTime[id], now)], chargeTime := m.chargeTime - {id})
  }

  /** The first half of stopping an instance: its state, and the times it was last heard of. */
  function MarkStopping(m: Manager, id: InstanceId, kind: Kind): Manager {
    SetState(m, id, kind, Stopping).(lastHeartBeat := m.lastHeartBeat - {id}, startSignal := m.startSignal - {id})
  }

  /** The second half: its charge, if one is open. */
  function Settle(m: Manager, id: InstanceId, now: real): Manager {
    if id in m.chargeTime then CloseCharge(m, id, now) else m
  }

  /** _kill_instance for one instance; without a type only the charge is closed. */
  function KillInstance(m: Manager, id: InstanceId, kind: Option<Kind>, now: real): Manager {
    Settle(match kind case Some(k) => MarkStopping(m, id, k) case None => m, id, now)
  }

  function KindAt(kinds: seq<Kind>, i: nat): Option<Kind> {
    if i < |kinds| then Some(kinds[i]) else None
  }

  /** Killing instances one after the other; no types at all means that none is given. */
  function KillEach(m: Manager, ids: seq<InstanceId>, kinds: seq<Kind>, now: real): Manager
    requires kinds == [] || |kinds| == |ids|
    decreases |ids|
  {
    if ids == [] then m
    else KillEach(KillInstance(m, ids[0], KindAt(kinds, 0), now), ids[1..], if kinds == [] then [] else kinds[1..], now)
  }

  function MarkEach(m: Manager, ids: seq<InstanceId>, kinds: seq<Kind>): Manager
    requires |kinds| == |ids|
    decreases |ids|
  {
    if ids == [] then m else MarkEach(MarkStopping(m, ids[0], kinds[0]), ids[1..], kinds[1..])
  }

  function SettleEach(m: Manager, ids: seq<InstanceId>, now: real): Manager
    decreases |ids|
  {
    if ids == [] then m else SettleEach(Settle(m, ids[0], now), ids[1..], now)
  }

  lemma SettleMark(m: Manager, id: InstanceId, kind: Kind, other: InstanceId, now: real)
    ensures Settle(MarkStopping(m, id, kind), other, now) == MarkStopping(Settle(m, other, now), id, kind)
  {
  }

  lemma {:induction false} SettleMarkEach(
    m: Manager, ids: seq<InstanceId>, kinds: seq<Kind>, other: InstanceId, now: real)
    requires |kinds| == |ids|
    ensures Settle(MarkEach(m, ids, kinds), other, now) == MarkEach(Settle(m, other, now), ids, kinds)
    decreases |ids|
  {
    if ids != [] {
      SettleMark(m, ids[0], kinds[0], other, now);
      SettleMarkEach(MarkStopping(m, ids[0], kinds[0]), ids[1..], kinds[1..], other, now);
    }
  }

  /** _kill_instance marks all instances first and then closes all charges: the same as killing them
      one after the other, repeated ids included. */
  lemma {:induction false} TwoPassesKillEach(m: Manager, ids: seq<InstanceId>, kinds: seq<Kind>, now: real)
    requires kinds == [] || |kinds| == |ids|
    ensures KillEach(m, ids, kinds, now) == SettleEach(if kinds == [] then m else MarkEach(m, ids, kinds), ids, now)
    decreases |ids|
  {
    if ids != [] {
      if kinds == [] {
        TwoPassesKillEach(Settle(m, ids[0], now), ids[1..], [], now);
      } else {
        var marked := MarkStopping(m, ids[0], kinds[0]);
        TwoPassesKillEach(Settle(marked, ids[0], now), ids[1..], kinds[1..], now);
        SettleMarkEach(marked, ids[1..], kinds[1..], ids[0], now);
        assert kinds[1..] == [] ==> ids[1..] == [];
      }
    }
  }

  /** The monitor's process_heartbeat, as far as it concerns the instance itself. */
  function NoteHeartBeat(m: Manager, id: InstanceId, sent: real, now: real): Manager {
    m.(chargeTime := if id in m.chargeTime then m.chargeTime else m.chargeTime[id := now],
       lastHeartBeat := m.lastHeartBeat[id := sent])
  }

  function SignalTimedOut(m: Manager, id: InstanceId, now: real): bool {
    id !in m.startSignal || now - m.startSignal[id] >= START_SIGNAL_TIMEOUT
  }

  /** _send_start_command: for a worker it needs a running node manager's address, and without one
      it gives up before it notes the signal. */
  function SendStart(m: Manager, id: InstanceId, kind: Kind, now: real): Manager {
    if kind.WorkerNode? && GetAll(m.nodeManagers, {Running}) == [] then m
    else m.(startSignal := m.startSignal[id := now])
  }

  ghost predicate On(n: Nodes, id: InstanceId) {
    IsState(n, id, Running) || IsState(n, id, Pending)
  }

  /** _check_living. */
  function CheckLiving(m: Manager, id: InstanceId, kind: Kind, now: real): Outcome {
    var n := NodesOf(m, kind);
    if !(IsState(n, id, Running) || IsState(n, id, Pending)) then Ok(m)
    else if id in m.lastHeartBeat && now - m.lastHeartBeat[id] < HEART_BEAT_TIMEOUT then
      Ok(SetState(m, id, kind, Running))
    else if id !in m.lastHeartBeat then
      Ok(if SignalTimedOut(m, id, now) then SendStart(m, id, kind, now) else m)
    else if id !in m.chargeTime then KeyError(m)
    else Ok(InitInstance(CloseCharge(m, id, now), id, kind, false, now))
  }

  function CheckEach(m: Manager, ids: seq<InstanceId>, kind: Kind, now: real): Outcome
    decreases |ids|
  {
    if ids == [] then Ok(m)
    else
      match CheckLiving(m, ids[0], kind, now)
      case Ok(m') => CheckEach(m', ids[1..], kind, now)
      case KeyError(m') => KeyError(m')
  }

  function CheckAllLiving(m: Manager, now: real): Outcome {
    match CheckEach(m, m.nodeManagers.keys, NodeManager, now)
    case Ok(m') => CheckEach(m', m'.workers.keys, WorkerNode, now)
    case KeyError(m') => KeyError(m')
  }

  /** start_worker, given the stopped worker machine that the cloud lists first, if any. */
  function StartWorker(m: Manager, pick: Option<InstanceId>, now: real): Manager {
    match pick
    case Some(id) => InitInstance(m, id, WorkerNode, false, now)
    case None => m
  }

  /** One machine as the cloud describes it. */
  datatype Description = Description(id: InstanceId, kind: Kind, state: InstanceState)

  function DescribeAll(m: Manager, report: seq<Description>): Manager
    decreases |report|
  {
    if report == [] then m
    else DescribeAll(SetState(m, report[0].id, report[0].kind, report[0].state), report[1..])
  }

  /** update_instances; with its check the cloud is asked only while some machine is on its way up or down. */
  function UpdateInstances(m: Manager, check: bool, report: seq<Description>): Manager {
    if check && GetAll(m.workers, {Pending, Stopping}) == [] && GetAll(m.nodeManagers, {Pending, Stopping}) == [] then m
    else DescribeAll(m, report)
  }

  /** start_node_manager; None when it raises ConnectionError because no node manager is stopped. */
  function StartNodeManager(m: Manager, now: real): Option<Manager> {
    var stopped := GetAll(m.nodeManagers, {Stopped});
    if GetAll(m.nodeManagers, {Running, Pending}) != [] then Some(m)
    else if stopped == [] then None
    else Some(SendStart(InitInstance(m, stopped[0], NodeManager, true, now), stopped[0], NodeManager, now))
  }

  /** initialize_nodes: take over what the cloud reports, then start a node manager if one is not running. */
  function InitializeNodes(m: Manager, report: seq<Description>, now: real): Option<Manager> {
    var reported := UpdateInstances(m, false, report);
    if GetAll(reported.nodeManagers, {Pending, Stopping, Stopped}) == [] then Some(reported)
    else StartNodeManager(reported, now)
  }

  /** The lists sent to the node manager. */
  function WorkersRunning(m: Manager): seq<InstanceId> {
    GetAll(m.workers, {Running})
  }

  function WorkersPending(m: Manager): seq<InstanceId> {
    GetAll(m.workers, {Pending})
  }

  function OnSet(m: Manager): seq<InstanceId> {
    GetAll(m.workers, {Pending, Running})
  }

  function Decide(m: Manager, w: Window): Action
    requires Listed(w.order, w.load)
  {
    GetAction(w, OnSet(m), |m.workers.keys|)
  }

  function Apply(m: Manager, action: Action, pick: Option<InstanceId>, now: real): Manager {
    match action
    case Create => StartWorker(m, pick, now)
    case Kill(w) => KillInstance(m, w, Some(WorkerNode), now)
    case Nothing => m
  }

  /** The counter of a turn: it runs down, and starts again in the turn that finds it run out. */
  function NextCounter(counter: int): int {
    (if counter <= 0 then BOTO_UPDATE_SEC else counter) - SERVER_SLEEP_TIME
  }

  /** What a turn of the scheduler's loop does when no update from the cloud is due. */
  function Turn(m: Manager, w: Window, pick: Option<InstanceId>, now: real): (Outcome, Action)
    requires Listed(w.order, w.load)
  {
    match CheckAllLiving(m, now)
    case Ok(m') =>
      var action := Decide(m', w);
      (Ok(Apply(m', action, pick, now)), action)
    case KeyError(m') => (KeyError(m'), Nothing)
  }

  lemma {:induction false} FilterNoDup(
    keys: seq<InstanceId>, states: States, wanted: set<InstanceState>)
    requires NoDup(keys)
    ensures NoDup(Filter(keys, states, wanted))
  {
    if keys != [] {
      FilterNoDup(keys[1..], states, wanted);
      NoDupTail(keys);
      if keys[0] in states && states[keys[0]] in wanted {
        NoDupCons(keys[0], Filter(keys[1..], states, wanted));
      }
    }
  }

  /** The two lists sent to the node manager hold each worker that is on exactly once. */
  lemma ResponseIsTheOnSet(m: Manager)
    requires Tidy(m)
    ensures NoDup(WorkersRunning(m) + WorkersPending(m))
    ensures forall id :: id in WorkersRunning(m) + WorkersPending(m) <==> On(m.workers, id)
    ensures forall id :: id in WorkersRunning(m) <==> IsState(m.workers, id, Running)
    ensures forall id :: id in WorkersPending(m) <==> IsState(m.workers, id, Pending)
  {
    FilterNoDup(m.workers.keys, m.workers.states, {Running});
    FilterNoDup(m.workers.keys, m.workers.states, {Pending});
    NoDupAppend(WorkersRunning(m), WorkersPending(m));
  }
}
