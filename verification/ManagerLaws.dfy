/** What each operation of the instance manager does to the machine it is about, case by case, and that
    it leaves every other machine alone. */
module ManagerLaws {
  import opened Queues
  import opened PoolModel
  import opened LoadWindow
  import opened InstanceModel
  import opened Liveness
  import opened Scheduling

  /** Everything the manager notes about a machine. */
  datatype Record = Record(
    node: Option<InstanceState>, worker: Option<InstanceState>,
    heard: Option<real>, signalled: Option<real>, charged: Option<real>)

  function Lookup<V>(entries: map<InstanceId, V>, id: InstanceId): Option<V> {
    if id in entries then Some(entries[id]) else None
  }

  function RecordOf(m: Manager, id: InstanceId): Record {
    Record(Lookup(m.nodeManagers.states, id), Lookup(m.workers.states, id),
           Lookup(m.lastHeartBeat, id), Lookup(m.startSignal, id), Lookup(m.chargeTime, id))
  }

  function StateOf(r: Record, kind: Kind): Option<InstanceState> {
    match kind
    case NodeManager => r.node
    case WorkerNode => r.worker
  }

  /** The record with another state. */
  function WithState(r: Record, kind: Kind, state: InstanceState): Record {
    match kind
    case NodeManager => r.(node := Some(state))
    case WorkerNode => r.(worker := Some(state))
  }

  /** Only the one machine's record may differ. */
  ghost predicate OthersKept(m: Manager, r: Manager, id: InstanceId) {
    forall k | k != id :: RecordOf(r, k) == RecordOf(m, k)
  }

  /** A machine that is not listed yet is listed last. */
  ghost predicate ListedLast(m: Manager, r: Manager, id: InstanceId, kind: Kind) {
    && NodesOf(r, kind).keys == NodesOf(m, kind).keys + (if id in NodesOf(m, kind).states then [] else [id])
    && match kind
       case NodeManager => r.workers == m.workers
       case WorkerNode => r.nodeManagers == m.nodeManagers
  }

  lemma SetStateExactly(m: Manager, id: InstanceId, kind: Kind, state: InstanceState)
    ensures var r := SetState(m, id, kind, state);
      && RecordOf(r, id) == WithState(RecordOf(m, id), kind, state) && OthersKept(m, r, id)
      && ListedLast(m, r, id, kind) && r.charges == m.charges
  {
    assert NodesOf(m, kind).keys + [] == NodesOf(m, kind).keys;
  }

  /** Starting is refused for a machine that is known as a worker and not stopped. Any other is running if
      it was waited for, pending otherwise, and charged from now on. */
  lemma InitExactly(m: Manager, id: InstanceId, kind: Kind, wait: bool, now: real)
    ensures var r, was := InitInstance(m, id, kind, wait, now), RecordOf(m, id);
      if was.worker.Some? && !was.worker.value.Stopped? then r == m
      else
        && RecordOf(r, id) == WithState(was, kind, if wait then Running else Pending).(charged := Some(now))
        && OthersKept(m, r, id) && ListedLast(m, r, id, kind) && r.charges == m.charges
  {
    SetStateExactly(m, id, kind, if wait then Running else Pending);
  }

  /** A heartbeat is noted with the time it was sent, and opens a charge if none is open. */
  lemma NoteExactly(m: Manager, id: InstanceId, sent: real, now: real)
    ensures var r, was := NoteHeartBeat(m, id, sent, now), RecordOf(m, id);
      && RecordOf(r, id) == was.(heard := Some(sent), charged := if was.charged.Some? then was.charged else Some(now))
      && OthersKept(m, r, id) && r.charges == m.charges
      && r.workers == m.workers && r.nodeManagers == m.nodeManagers
  {
  }

  /** Some node manager is in one of the states. */
  ghost predicate SomeManager(m: Manager, states: set<InstanceState>) {
    exists k | k in m.nodeManagers.keys && k in m.nodeManagers.states :: m.nodeManagers.states[k] in states
  }

  lemma ManagersIn(m: Manager, states: set<InstanceState>)
    ensures SomeManager(m, states) <==> GetAll(m.nodeManagers, states) != []
  {
    var found := GetAll(m.nodeManagers, states);
    if found != [] {
      assert found[0] in found;
    }
    if SomeManager(m, states) {
      var k :| k in m.nodeManagers.keys && k in m.nodeManagers.states && m.nodeManagers.states[k] in states;
      assert k in found;
    }
  }

  ghost predicate IsOn(state: Option<InstanceState>) {
    state == Some(Running) || state == Some(Pending)
  }

  /** A machine never heard of: a start command is noted if the last one is ten seconds old or there was
      none, for a worker only while some node manager runs. */
  ghost predicate Awaited(m: Manager, r: Manager, id: InstanceId, kind: Kind, now: real) {
    var was := RecordOf(m, id);
    var late := was.signalled.None? || now - was.signalled.value >= 10.0;
    && r.charges == m.charges
    && RecordOf(r, id) ==
       (if late && (kind.NodeManager? || SomeManager(m, {Running})) then was.(signalled := Some(now)) else was)
  }

  lemma CheckUnheard(m: Manager, id: InstanceId, kind: Kind, now: real)
    requires IsOn(StateOf(RecordOf(m, id), kind)) && id !in m.lastHeartBeat
    ensures var outcome := CheckLiving(m, id, kind, now);
      outcome.Ok? && OthersKept(m, outcome.m, id) && Awaited(m, outcome.m, id, kind, now)
  {
    ManagersIn(m, {Running});
  }

  lemma CheckFresh(m: Manager, id: InstanceId, kind: Kind, now: real)
    requires IsOn(StateOf(RecordOf(m, id), kind))
    requires id in m.lastHeartBeat && now - m.lastHeartBeat[id] < HEART_BEAT_TIMEOUT
    ensures var outcome := CheckLiving(m, id, kind, now);
      && outcome.Ok? && OthersKept(m, outcome.m, id) && outcome.m.charges == m.charges
      && RecordOf(outcome.m, id) == WithState(RecordOf(m, id), kind, Running)
  {
    SetStateExactly(m, id, kind, Running);
  }

  /** A machine silent for too long, with a charge open: it is logged; a worker is left as it is without a
      charge, a node manager is pending and charged anew. */
  ghost predicate Recharged(m: Manager, r: Manager, id: InstanceId, kind: Kind, now: real) {
    var was := RecordOf(m, id);
    && was.charged.Some? && r.charges == m.charges + [Charge(id, was.charged.value, now)]
    && RecordOf(r, id) ==
       (if kind.WorkerNode? then was.(charged := None) else was.(node := Some(Pending), charged := Some(now)))
  }

  lemma CloseExactly(m: Manager, id: InstanceId, now: real)
    requires id in m.chargeTime
    ensures var r := CloseCharge(m, id, now);
      && RecordOf(r, id) == RecordOf(m, id).(charged := None) && OthersKept(m, r, id)
      && r.charges == m.charges + [Charge(id, m.chargeTime[id], now)]
  {
  }

  lemma CheckOverdue(m: Manager, id: InstanceId, kind: Kind, now: real)
    requires Tidy(m) && Disjoint(m) && IsOn(StateOf(RecordOf(m, id), kind)) && id in m.chargeTime
    requires id in m.lastHeartBeat && now - m.lastHeartBeat[id] >= HEART_BEAT_TIMEOUT
    ensures var outcome := CheckLiving(m, id, kind, now);
      outcome.Ok? && OthersKept(m, outcome.m, id) && Recharged(m, outcome.m, id, kind, now)
  {
    CloseExactly(m, id, now);
    var closed := CloseCharge(m, id, now);
    InitExactly(closed, id, kind, false, now);
    assert CheckLiving(m, id, kind, now) == Ok(InitInstance(closed, id, kind, false, now));
    assert kind.NodeManager? ==> id in m.nodeManagers.keys;
    OthersTwice(m, closed, InitInstance(closed, id, kind, false, now), id);
  }

  lemma OthersTwice(a: Manager, b: Manager, c: Manager, id: InstanceId)
    requires OthersKept(a, b, id) && OthersKept(b, c, id)
    ensures OthersKept(a, c, id)
  {
    forall k | k != id
      ensures RecordOf(c, k) == RecordOf(a, k)
    {
      assert RecordOf(b, k) == RecordOf(a, k);
    }
  }

  /** The check of a machine that is on. Heard of less than ten seconds ago, it counts as running; never
      heard of, a start command may be due; silent for longer, its charge is closed, or KeyError is raised
      if none is open. */
  lemma CheckExactly(m: Manager, id: InstanceId, kind: Kind, now: real)
    requires Tidy(m) && Disjoint(m) && IsOn(StateOf(RecordOf(m, id), kind))
    ensures var outcome, was := CheckLiving(m, id, kind, now), RecordOf(m, id);
      && OthersKept(m, outcome.m, id)
      && match was.heard
         case None => outcome.Ok? && Awaited(m, outcome.m, id, kind, now)
         case Some(heard) =>
           if now - heard < 10.0 then
             && outcome.Ok? && outcome.m.charges == m.charges
             && RecordOf(outcome.m, id) == WithState(was, kind, Running)
           else if was.charged.None? then outcome == KeyError(m)
           else outcome.Ok? && Recharged(m, outcome.m, id, kind, now)
  {
    if id !in m.lastHeartBeat {
      CheckUnheard(m, id, kind, now);
    } else if now - m.lastHeartBeat[id] < HEART_BEAT_TIMEOUT {
      CheckFresh(m, id, kind, now);
    } else if id in m.chargeTime {
      CheckOverdue(m, id, kind, now);
    }
  }

  /** A machine that is not on is not looked after. */
  lemma CheckIgnores(m: Manager, id: InstanceId, kind: Kind, now: real)
    requires !IsOn(StateOf(RecordOf(m, id), kind))
    ensures CheckLiving(m, id, kind, now) == Ok(m)
  {
  }

  /** Checking one machine does not change what the check of another finds. */
  lemma CheckIndependent(m: Manager, id: InstanceId, kind: Kind, now: real, k: InstanceId)
    requires Tidy(m) && Disjoint(m) && k != id && CheckLiving(m, id, kind, now).Ok?
    ensures var r := CheckLiving(m, id, kind, now).m;
      && Tidy(r) && Disjoint(r) && OthersKept(m, r, id)
      && (kind.WorkerNode? ==> r.nodeManagers == m.nodeManagers)
  {
    CheckFrame(m, id, kind, now);
    if IsOn(StateOf(RecordOf(m, id), kind)) {
      CheckExactly(m, id, kind, now);
    }
  }

  lemma SameCheck(m: Manager, r: Manager, kind: Kind, now: real, k: InstanceId)
    requires Tidy(m) && Disjoint(m) && Tidy(r) && Disjoint(r) && RecordOf(r, k) == RecordOf(m, k)
    requires kind.WorkerNode? ==> r.nodeManagers == m.nodeManagers
    ensures CheckLiving(r, k, kind, now).Ok? <==> CheckLiving(m, k, kind, now).Ok?
    ensures RecordOf(CheckLiving(r, k, kind, now).m, k) == RecordOf(CheckLiving(m, k, kind, now).m, k)
  {
    if IsOn(StateOf(RecordOf(m, k), kind)) {
      CheckExactly(m, k, kind, now);
      CheckExactly(r, k, kind, now);
    } else {
      CheckIgnores(m, k, kind, now);
      CheckIgnores(r, k, kind, now);
    }
  }

  /** A round of checks that returns does to every machine what its own check would have done. */
  lemma {:induction false} CheckEachExactly(m: Manager, ids: seq<InstanceId>, kind: Kind, now: real, k: InstanceId)
    requires Tidy(m) && Disjoint(m) && NoDup(ids) && CheckEach(m, ids, kind, now).Ok?
    ensures RecordOf(CheckEach(m, ids, kind, now).m, k)
         == RecordOf(if k in ids then CheckLiving(m, k, kind, now).m else m, k)
    decreases |ids|
  {
    if ids != [] {
      NoDupTail(ids);
      var first := CheckLiving(m, ids[0], kind, now).m;
      CheckFrame(m, ids[0], kind, now);
      if k == ids[0] {
        CheckEachExactly(first, ids[1..], kind, now, k);
      } else {
        CheckIndependent(m, ids[0], kind, now, k);
        CheckEachExactly(first, ids[1..], kind, now, k);
        SameCheck(m, first, kind, now, k);
      }
    }
  }

  /** What is logged when a machine's charge is closed. */
  function ChargeOf(m: Manager, id: InstanceId, now: real): seq<Charge> {
    if id in m.chargeTime then [Charge(id, m.chargeTime[id], now)] else []
  }

  lemma MarkExactly(m: Manager, id: InstanceId, kind: Kind)
    ensures var r := MarkStopping(m, id, kind);
      && RecordOf(r, id) == WithState(RecordOf(m, id), kind, Stopping).(heard := None, signalled := None)
      && OthersKept(m, r, id) && r.charges == m.charges && r.chargeTime == m.chargeTime
  {
    SetStateExactly(m, id, kind, Stopping);
    var stopping := SetState(m, id, kind, Stopping);
    assert forall k | k != id :: RecordOf(stopping, k) == RecordOf(m, k);
  }

  lemma SettleExactly(m: Manager, id: InstanceId, now: real)
    ensures var r := Settle(m, id, now);
      && RecordOf(r, id) == RecordOf(m, id).(charged := None) && OthersKept(m, r, id)
      && r.charges == m.charges + ChargeOf(m, id, now)
  {
    if id in m.chargeTime {
      CloseExactly(m, id, now);
    } else {
      assert m.charges + [] == m.charges;
    }
  }

  /** Stopping one machine: with a type it is stopping, and nothing is noted of its life any more; its
      charge, if open, is logged up to now and closed. */
  lemma KillOneExactly(m: Manager, id: InstanceId, kind: Option<Kind>, now: real)
    ensures var r, was := KillInstance(m, id, kind, now), RecordOf(m, id);
      && RecordOf(r, id) == (if kind.Some? then WithState(was, kind.value, Stopping).(heard := None, signalled := None)
                             else was).(charged := None)
      && OthersKept(m, r, id) && r.charges == m.charges + ChargeOf(m, id, now)
  {
    if kind.Some? {
      MarkExactly(m, id, kind.value);
      var marked := MarkStopping(m, id, kind.value);
      SettleExactly(marked, id, now);
      OthersTwice(m, marked, Settle(marked, id, now), id);
    } else {
      SettleExactly(m, id, now);
    }
  }

  /** A round that fails stops at the first machine whose check fails, in the state reached by then. */
  lemma {:induction false} CheckEachStops(m: Manager, ids: seq<InstanceId>, kind: Kind, now: real) returns (n: nat)
    requires CheckEach(m, ids, kind, now).KeyError?
    ensures n < |ids| && CheckEach(m, ids[..n], kind, now).Ok?
    ensures CheckLiving(CheckEach(m, ids[..n], kind, now).m, ids[n], kind, now).KeyError?
    ensures CheckEach(m, ids, kind, now) == KeyError(CheckEach(m, ids[..n], kind, now).m)
    decreases |ids|
  {
    var first := CheckLiving(m, ids[0], kind, now);
    if first.KeyError? {
      n := 0;
      assert ids[..0] == [];
    } else {
      var rest := CheckEachStops(first.m, ids[1..], kind, now);
      n := rest + 1;
      assert ids[..n][1..] == ids[1..][..rest] && ids[..n][0] == ids[0];
    }
  }

  /** check_all_living: every node manager is checked as it was found, then every worker, with the node
      managers as they are by then; nobody else is touched. */
  lemma CheckAllExactly(m: Manager, now: real, k: InstanceId)
    requires Tidy(m) && Disjoint(m) && CheckAllLiving(m, now).Ok?
    ensures CheckEach(m, m.nodeManagers.keys, NodeManager, now).Ok?
    ensures var middle := CheckEach(m, m.nodeManagers.keys, NodeManager, now).m;
      RecordOf(CheckAllLiving(m, now).m, k) == RecordOf(
        if k in m.nodeManagers.keys then CheckLiving(m, k, NodeManager, now).m
        else if k in m.workers.keys then CheckLiving(middle, k, WorkerNode, now).m
        else m, k)
  {
    var middle := CheckEach(m, m.nodeManagers.keys, NodeManager, now).m;
    CheckEachEffect(m, m.nodeManagers.keys, NodeManager, now);
    CheckEachExactly(m, m.nodeManagers.keys, NodeManager, now, k);
    CheckEachExactly(middle, middle.workers.keys, WorkerNode, now, k);
  }

  /** Nothing is noted of its life, and no charge is open. */
  ghost predicate Cleared(r: Record) {
    r.heard.None? && r.signalled.None? && r.charged.None?
  }

  lemma {:induction false} StaysStopping(
    m: Manager, ids: seq<InstanceId>, kinds: seq<Kind>, now: real, id: InstanceId, kind: Kind)
    requires |kinds| == |ids| && StateOf(RecordOf(m, id), kind) == Some(Stopping) && Cleared(RecordOf(m, id))
    ensures var r := RecordOf(KillEach(m, ids, kinds, now), id); StateOf(r, kind) == Some(Stopping) && Cleared(r)
    decreases |ids|
  {
    if ids != [] {
      KillOneExactly(m, ids[0], KindAt(kinds, 0), now);
      StaysStopping(KillInstance(m, ids[0], KindAt(kinds, 0), now), ids[1..], kinds[1..], now, id, kind);
    }
  }

  /** Every machine killed with a type is stopping afterwards, so no longer on, and cleared. */
  lemma {:induction false} KilledAreOff(m: Manager, ids: seq<InstanceId>, kinds: seq<Kind>, now: real, i: nat)
    requires |kinds| == |ids| && i < |ids|
    ensures var r := KillEach(m, ids, kinds, now);
      && IsState(NodesOf(r, kinds[i]), ids[i], Stopping) && !On(NodesOf(r, kinds[i]), ids[i])
      && Cleared(RecordOf(r, ids[i]))
    decreases |ids|
  {
    var first := KillInstance(m, ids[0], KindAt(kinds, 0), now);
    if i == 0 {
      KillOneExactly(m, ids[0], KindAt(kinds, 0), now);
      StaysStopping(first, ids[1..], kinds[1..], now, ids[0], kinds[0]);
      assert StateOf(RecordOf(KillEach(m, ids, kinds, now), ids[0]), kinds[0]) == Some(Stopping);
    } else {
      KilledAreOff(first, ids[1..], kinds[1..], now, i - 1);
    }
  }

  function Rest(kinds: seq<Kind>): seq<Kind> {
    if kinds == [] then [] else kinds[1..]
  }

  /** A machine that is not among those killed is as it was. */
  lemma {:induction false} KillSpares(m: Manager, ids: seq<InstanceId>, kinds: seq<Kind>, now: real, k: InstanceId)
    requires (kinds == [] || |kinds| == |ids|) && k !in ids
    ensures RecordOf(KillEach(m, ids, kinds, now), k) == RecordOf(m, k)
    decreases |ids|
  {
    if ids != [] {
      KillOneExactly(m, ids[0], KindAt(kinds, 0), now);
      KillSpares(KillInstance(m, ids[0], KindAt(kinds, 0), now), ids[1..], Rest(kinds), now, k);
    }
  }

  /** Killed without a type, a machine only loses its open charge. */
  lemma {:induction false} KillUntyped(m: Manager, ids: seq<InstanceId>, now: real, k: InstanceId)
    ensures RecordOf(KillEach(m, ids, [], now), k)
         == if k in ids then RecordOf(m, k).(charged := None) else RecordOf(m, k)
    decreases |ids|
  {
    if ids != [] {
      KillOneExactly(m, ids[0], None, now);
      KillUntyped(KillInstance(m, ids[0], None, now), ids[1..], now, k);
    }
  }

  /** The charges logged: one for each machine with an open charge, up to now. */
  ghost predicate Closes(m: Manager, ids: seq<InstanceId>, now: real, logged: seq<Charge>) {
    && (forall i | 0 <= i < |logged| ::
          && logged[i].instance in ids && logged[i].instance in m.chargeTime
          && logged[i] == Charge(logged[i].instance, m.chargeTime[logged[i].instance], now))
    && (forall i, j | 0 <= i < j < |logged| :: logged[i].instance != logged[j].instance)
    && (forall id | id in ids && id in m.chargeTime :: exists i :: 0 <= i < |logged| && logged[i].instance == id)
  }

  lemma ClosesMore(m: Manager, r: Manager, ids: seq<InstanceId>, now: real, logged: seq<Charge>)
    returns (all: seq<Charge>)
    requires ids != [] && Closes(r, ids[1..], now, logged)
    requires forall k | k != ids[0] :: Lookup(r.chargeTime, k) == Lookup(m.chargeTime, k)
    requires ids[0] !in r.chargeTime
    ensures Closes(m, ids, now, all)
    ensures all == ChargeOf(m, ids[0], now) + logged
  {
    var head := ChargeOf(m, ids[0], now);
    all := head + logged;
    forall i | 0 <= i < |all|
      ensures all[i].instance in ids && all[i].instance in m.chargeTime
      ensures all[i] == Charge(all[i].instance, m.chargeTime[all[i].instance], now)
    {
      if i >= |head| {
        assert all[i] == logged[i - |head|];
        assert Lookup(r.chargeTime, all[i].instance) == Lookup(m.chargeTime, all[i].instance);
      }
    }
    forall id | id in ids && id in m.chargeTime
      ensures exists i :: 0 <= i < |all| && all[i].instance == id
    {
      if id == ids[0] {
        assert all[0].instance == id;
      } else {
        assert Lookup(r.chargeTime, id) == Lookup(m.chargeTime, id);
        var i :| 0 <= i < |logged| && logged[i].instance == id;
        assert all[|head| + i].instance == id;
      }
    }
  }

  lemma KillOneCloses(m: Manager, id: InstanceId, kind: Option<Kind>, now: real)
    ensures var r := KillInstance(m, id, kind, now);
      && r.charges == m.charges + ChargeOf(m, id, now) && id !in r.chargeTime
      && forall k | k != id :: Lookup(r.chargeTime, k) == Lookup(m.chargeTime, k)
  {
    KillOneExactly(m, id, kind, now);
    var r := KillInstance(m, id, kind, now);
    assert RecordOf(r, id).charged.None?;
    assert forall k | k != id :: RecordOf(r, k).charged == RecordOf(m, k).charged;
  }

  /** Killing closes exactly the charges that were open, each of them once, whatever is repeated. */
  lemma {:induction false} KillCloses(m: Manager, ids: seq<InstanceId>, kinds: seq<Kind>, now: real)
    returns (logged: seq<Charge>)
    requires kinds == [] || |kinds| == |ids|
    ensures var r := KillEach(m, ids, kinds, now);
      r.charges == m.charges + logged && forall id | id in ids :: id !in r.chargeTime
    ensures Closes(m, ids, now, logged)
    decreases |ids|
  {
    if ids == [] {
      logged := [];
    } else {
      var first := KillInstance(m, ids[0], KindAt(kinds, 0), now);
      KillOneCloses(m, ids[0], KindAt(kinds, 0), now);
      var rest := KillCloses(first, ids[1..], Rest(kinds), now);
      logged := ClosesMore(m, first, ids, now, rest);
      ConcatAgain(m.charges, ChargeOf(m, ids[0], now), rest);
      NoChargeAgain(first, ids[1..], Rest(kinds), now, ids[0]);
    }
  }

  lemma ConcatAgain(a: seq<Charge>, b: seq<Charge>, c: seq<Charge>)
    ensures (a + b) + c == a + (b + c)
  {
  }

  lemma {:induction false} NoChargeAgain(m: Manager, ids: seq<InstanceId>, kinds: seq<Kind>, now: real, id: InstanceId)
    requires (kinds == [] || |kinds| == |ids|) && id !in m.chargeTime
    ensures id !in KillEach(m, ids, kinds, now).chargeTime
    decreases |ids|
  {
    if ids != [] {
      KillOneExactly(m, ids[0], KindAt(kinds, 0), now);
      assert RecordOf(KillInstance(m, ids[0], KindAt(kinds, 0), now), id).charged.None?;
      NoChargeAgain(KillInstance(m, ids[0], KindAt(kinds, 0), now), ids[1..], Rest(kinds), now, id);
    }
  }

  /** What the cloud reported last of a machine under a type. */
  function LastReported(report: seq<Description>, id: InstanceId, kind: Kind): Option<InstanceState> {
    if report == [] then None
    else
      var last := report[|report| - 1];
      if last.id == id && last.kind == kind then Some(last.state) else LastReported(report[..|report| - 1], id, kind)
  }

  lemma {:induction false} DescribeLast(m: Manager, report: seq<Description>, last: Description)
    ensures DescribeAll(m, report + [last]) == SetState(DescribeAll(m, report), last.id, last.kind, last.state)
    decreases |report|
  {
    if report == [] {
      assert report + [last] == [last] && [last][1..] == [];
    } else {
      assert (report + [last])[1..] == report[1..] + [last];
      DescribeLast(SetState(m, report[0].id, report[0].kind, report[0].state), report[1..], last);
    }
  }

  function Reported(was: Option<InstanceState>, now: Option<InstanceState>): Option<InstanceState> {
    if now.Some? then now else was
  }

  /** Every machine has the state that was reported last, or the one it had; nothing else changes. */
  lemma {:induction false} DescribeExactly(m: Manager, report: seq<Description>, id: InstanceId)
    ensures var r, was := DescribeAll(m, report), RecordOf(m, id);
      && RecordOf(r, id) == was.(node := Reported(was.node, LastReported(report, id, NodeManager)),
                                 worker := Reported(was.worker, LastReported(report, id, WorkerNode)))
      && r.charges == m.charges
    decreases |report|
  {
    if report != [] {
      var front, last := report[..|report| - 1], report[|report| - 1];
      assert report == front + [last];
      DescribeExactly(m, front, id);
      DescribeLast(m, front, last);
      SetStateExactly(DescribeAll(m, front), last.id, last.kind, last.state);
    }
  }

  /** With the check the report is taken over only while some machine is pending or stopping. */
  lemma UpdateExactly(m: Manager, check: bool, report: seq<Description>)
    requires Tidy(m)
    ensures UpdateInstances(m, check, report) ==
      if !check || exists id, kind ::
           IsState(NodesOf(m, kind), id, Pending) || IsState(NodesOf(m, kind), id, Stopping)
      then DescribeAll(m, report) else m
  {
    var workers, nodes := GetAll(m.workers, {Pending, Stopping}), GetAll(m.nodeManagers, {Pending, Stopping});
    if workers != [] {
      assert workers[0] in workers && NodesOf(m, WorkerNode) == m.workers;
      assert IsState(m.workers, workers[0], Pending) || IsState(m.workers, workers[0], Stopping);
    }
    if nodes != [] {
      assert nodes[0] in nodes && NodesOf(m, NodeManager) == m.nodeManagers;
      assert IsState(m.nodeManagers, nodes[0], Pending) || IsState(m.nodeManagers, nodes[0], Stopping);
    }
    forall id, kind | IsState(NodesOf(m, kind), id, Pending) || IsState(NodesOf(m, kind), id, Stopping)
      ensures workers != [] || nodes != []
    {
      assert id in NodesOf(m, kind).keys;
      assert id in (if kind.WorkerNode? then workers else nodes);
    }
  }

  /** The first machine, in order, that is in the state. */
  ghost predicate FirstIn(keys: seq<InstanceId>, states: States, state: InstanceState, id: InstanceId) {
    exists i ::
      && 0 <= i < |keys| && keys[i] == id && id in states && states[id] == state
      && forall j | 0 <= j < i :: !(keys[j] in states && states[keys[j]] == state)
  }

  lemma {:induction false} FilterFirst(keys: seq<InstanceId>, states: States, state: InstanceState)
    requires Filter(keys, states, {state}) != []
    ensures FirstIn(keys, states, state, Filter(keys, states, {state})[0])
  {
    var first := Filter(keys, states, {state})[0];
    if keys[0] in states && states[keys[0]] == state {
      assert keys[0] == first;
    } else {
      FilterFirst(keys[1..], states, state);
      var i :|
        && 0 <= i < |keys[1..]| && keys[1..][i] == first && first in states && states[first] == state
        && forall j | 0 <= j < i :: !(keys[1..][j] in states && states[keys[1..][j]] == state);
      assert keys[i + 1] == first;
      assert forall j | 0 <= j < i + 1 :: j == 0 || keys[j] == keys[1..][j - 1];
    }
  }

  /** The node manager is started and waited for: running, charged and signalled from now on, unless it is
      known as a worker that is not stopped; then it is only signalled. */
  ghost predicate Begun(m: Manager, r: Manager, id: InstanceId, now: real) {
    var was := RecordOf(m, id);
    && FirstIn(m.nodeManagers.keys, m.nodeManagers.states, Stopped, id)
    && OthersKept(m, r, id) && r.charges == m.charges
    && RecordOf(r, id) == (if was.worker.Some? && !was.worker.value.Stopped? then was
                           else was.(node := Some(Running), charged := Some(now))).(signalled := Some(now))
  }

  lemma StartExactly(m: Manager, now: real)
    requires !SomeManager(m, {Running, Pending})
    ensures StartNodeManager(m, now).None? <==> !SomeManager(m, {Stopped})
    ensures StartNodeManager(m, now).Some? ==> exists id :: Begun(m, StartNodeManager(m, now).value, id, now)
  {
    ManagersIn(m, {Running, Pending});
    ManagersIn(m, {Stopped});
    var stopped := GetAll(m.nodeManagers, {Stopped});
    if stopped != [] {
      FilterFirst(m.nodeManagers.keys, m.nodeManagers.states, Stopped);
      InitExactly(m, stopped[0], NodeManager, true, now);
      assert Begun(m, StartNodeManager(m, now).value, stopped[0], now);
    }
  }

  /** Initialising takes over the cloud's report without a check. If then some node manager is not running
      and none runs or is pending, the first that is stopped is started; it fails if none is stopped. */
  lemma InitializeExactly(m: Manager, report: seq<Description>, now: real)
    ensures var reported, result := DescribeAll(m, report), InitializeNodes(m, report, now);
      if !SomeManager(reported, {Pending, Stopping, Stopped}) || SomeManager(reported, {Running, Pending})
      then result == Some(reported)
      else
        && (result.None? <==> !SomeManager(reported, {Stopped}))
        && (result.Some? ==> exists id :: Begun(reported, result.value, id, now))
  {
    var reported := DescribeAll(m, report);
    ManagersIn(reported, {Pending, Stopping, Stopped});
    ManagersIn(reported, {Running, Pending});
    if !SomeManager(reported, {Running, Pending}) {
      StartExactly(reported, now);
    }
  }

  function Wanted(states: States, wanted: set<InstanceState>, id: InstanceId): seq<InstanceId> {
    if id in states && states[id] in wanted then [id] else []
  }

  lemma FilterHead(keys: seq<InstanceId>, states: States, wanted: set<InstanceState>)
    requires keys != []
    ensures Filter(keys, states, wanted) == Wanted(states, wanted, keys[0]) + Filter(keys[1..], states, wanted)
  {
  }

  lemma Associate(a: seq<InstanceId>, b: seq<InstanceId>, c: seq<InstanceId>)
    ensures (a + b) + c == a + (b + c)
  {
  }

  lemma SplitHead(a: seq<InstanceId>, b: seq<InstanceId>)
    requires a != []
    ensures a + b != [] && (a + b)[0] == a[0] && (a + b)[1..] == a[1..] + b
  {
  }

  /** Selecting by state is done key by key and keeps the order. */
  lemma {:induction false} FilterSplits(
    a: seq<InstanceId>, b: seq<InstanceId>, states: States, wanted: set<InstanceState>)
    ensures Filter(a + b, states, wanted) == Filter(a, states, wanted) + Filter(b, states, wanted)
  {
    if a == [] {
      assert a + b == b;
    } else {
      SplitHead(a, b);
      FilterHead(a + b, states, wanted);
      FilterHead(a, states, wanted);
      FilterSplits(a[1..], b, states, wanted);
      Associate(Wanted(states, wanted, a[0]), Filter(a[1..], states, wanted), Filter(b, states, wanted));
    }
  }

  /** The workers that are on, counted. */
  lemma OnSetCounts(m: Manager)
    requires Tidy(m)
    ensures |OnSet(m)| == |set k | k in m.workers.keys && On(m.workers, k)|
  {
    FilterNoDup(m.workers.keys, m.workers.states, {Pending, Running});
    KeyCount(OnSet(m), set k | k in m.workers.keys && On(m.workers, k));
  }

  lemma {:induction false} FilterMisses(
    keys: seq<InstanceId>, states: States, wanted: set<InstanceState>, id: InstanceId)
    requires id in keys && !(id in states && states[id] in wanted)
    ensures |Filter(keys, states, wanted)| < |keys|
  {
    if keys[0] == id {
      FilterShorter(keys[1..], states, wanted);
    } else {
      FilterMisses(keys[1..], states, wanted, id);
    }
  }

  lemma {:induction false} FilterShorter(keys: seq<InstanceId>, states: States, wanted: set<InstanceState>)
    ensures |Filter(keys, states, wanted)| <= |keys|
  {
    if keys != [] {
      FilterShorter(keys[1..], states, wanted);
    }
  }

  /** All known workers are on exactly if as many are on as are known. */
  lemma FullExactly(m: Manager)
    requires Tidy(m)
    ensures |OnSet(m)| == |m.workers.keys| <==> forall k | k in m.workers.keys :: On(m.workers, k)
  {
    if forall k | k in m.workers.keys :: On(m.workers, k) {
      AllWanted(m.workers.keys, m.workers.states, {Pending, Running});
    } else {
      var k :| k in m.workers.keys && !On(m.workers, k);
      FilterMisses(m.workers.keys, m.workers.states, {Pending, Running}, k);
    }
  }

  /** A turn that returns creates if and only if the last heartbeat told of load with nobody busy, or the
      mean load is above 5.005, some known worker is off, and no more are on than were reported busy. It
      kills if and only if the mean is below 0.995, somebody is on, at least as many as were reported busy,
      and not both is there load and at most one worker busy; then the least loaded of those reported, or
      the first that is on if none was. */
  lemma TurnDecidesExactly(m: Manager, w: Window, pick: Option<InstanceId>, now: real)
    requires Tidy(m) && Disjoint(m) && Listed(w.order, w.load) && Turn(m, w, pick, now).0.Ok?
    ensures var action := Turn(m, w, pick, now).1;
      if w.samples == [] then action.Nothing?
      else
        var latest, mean := w.samples[|w.samples| - 1], ExactMean(w.samples);
        && (action.Create? <==>
              || (latest > 0.0 && w.order == [])
              || (mean > 5.005 && (exists k | k in m.workers.keys :: !On(m.workers, k)) && |OnSet(m)| <= |w.order|))
        && (action.Kill? <==>
              && mean < 0.995 && (exists k :: On(m.workers, k)) && |OnSet(m)| >= |w.order|
              && !(latest > 0.0 && |w.order| <= 1))
        && (action.Kill? ==>
              OnSet(m) != [] && action.w == if w.order != [] then LeastLoaded(w.order, w.load) else OnSet(m)[0])
  {
    TurnIs(m, w, pick, now);
    ActionMeaning(w, OnSet(m), |m.workers.keys|);
    FullExactly(m);
    SomebodyIsOn(m);
  }

  lemma SomebodyIsOn(m: Manager)
    requires Tidy(m)
    ensures OnSet(m) != [] <==> exists k :: On(m.workers, k)
  {
    if OnSet(m) != [] {
      assert OnSet(m)[0] in OnSet(m) && On(m.workers, OnSet(m)[0]);
    }
    if k :| On(m.workers, k) {
      assert k in OnSet(m);
    }
  }

  lemma {:induction false} FilterChange(
    keys: seq<InstanceId>, states: States, wanted: set<InstanceState>, id: InstanceId, state: InstanceState)
    requires NoDup(keys) && id in keys
    ensures |Filter(keys, states[id := state], wanted)| - |Filter(keys, states, wanted)|
         == (if state in wanted then 1 else 0) - (if id in states && states[id] in wanted then 1 else 0)
  {
    NoDupTail(keys);
    if keys[0] == id {
      SameFilter(keys[1..], states, states[id := state], wanted);
    } else {
      FilterChange(keys[1..], states, wanted, id, state);
    }
  }

  lemma NewStateCounts(m: Manager, id: InstanceId, state: InstanceState)
    requires Tidy(m) && id !in m.workers.states
    ensures |OnSet(SetState(m, id, WorkerNode, state))| == |OnSet(m)| + (if state in {Pending, Running} then 1 else 0)
  {
    var n, states := m.workers, m.workers.states[id := state];
    SameFilter(n.keys, n.states, states, {Pending, Running});
    FilterSplits(n.keys, [id], states, {Pending, Running});
    assert [id][1..] == [] && Filter([id][1..], states, {Pending, Running}) == [];
  }

  /** Changing the state of a worker changes the number of those on accordingly. */
  lemma SetStateCounts(m: Manager, id: InstanceId, state: InstanceState)
    requires Tidy(m)
    ensures |OnSet(SetState(m, id, WorkerNode, state))| - |OnSet(m)|
         == (if state in {Pending, Running} then 1 else 0) - (if On(m.workers, id) then 1 else 0)
  {
    if id in m.workers.states {
      FilterChange(m.workers.keys, m.workers.states, {Pending, Running}, id, state);
    } else {
      NewStateCounts(m, id, state);
    }
  }

  /** What a turn that returns does after its checks. A create starts the offered machine unless it is a
      known worker that is not stopped. A kill leaves its worker stopping and cleared, and one fewer on if
      it was on. */
  lemma TurnActsExactly(m: Manager, w: Window, pick: Option<InstanceId>, now: real)
    requires Tidy(m) && Disjoint(m) && Listed(w.order, w.load) && Turn(m, w, pick, now).0.Ok?
    ensures CheckAllLiving(m, now).Ok?
    ensures var checked := CheckAllLiving(m, now).m;
      var (outcome, action) := Turn(m, w, pick, now);
      match action
      case Nothing => outcome.m == checked
      case Create =>
        if pick.None? || (pick.value in checked.workers.states && !checked.workers.states[pick.value].Stopped?)
        then outcome.m == checked
        else
          && RecordOf(outcome.m, pick.value)
             == RecordOf(checked, pick.value).(worker := Some(Pending), charged := Some(now))
          && OthersKept(checked, outcome.m, pick.value) && outcome.m.charges == checked.charges
          && |OnSet(outcome.m)| == |OnSet(m)| + 1
      case Kill(v) =>
        && IsState(outcome.m.workers, v, Stopping) && !On(outcome.m.workers, v)
        && Cleared(RecordOf(outcome.m, v)) && OthersKept(checked, outcome.m, v)
        && |OnSet(outcome.m)| == |OnSet(m)| - (if On(m.workers, v) then 1 else 0)
  {
    TurnIs(m, w, pick, now);
    CheckAllEffect(m, now);
    var checked := CheckAllLiving(m, now).m;
    SameOnSet(m, checked);
    match Decide(m, w)
    case Nothing =>
    case Create => CreateActs(checked, pick, now);
    case Kill(v) => KillActs(checked, v, now);
  }

  lemma CreateActs(m: Manager, pick: Option<InstanceId>, now: real)
    requires Tidy(m)
    ensures var r := Apply(m, Create, pick, now);
      if pick.None? || (pick.value in m.workers.states && !m.workers.states[pick.value].Stopped?) then r == m
      else
        && RecordOf(r, pick.value) == RecordOf(m, pick.value).(worker := Some(Pending), charged := Some(now))
        && OthersKept(m, r, pick.value) && r.charges == m.charges && |OnSet(r)| == |OnSet(m)| + 1
  {
    if pick.Some? {
      InitExactly(m, pick.value, WorkerNode, false, now);
      SetStateCounts(m, pick.value, Pending);
    }
  }

  lemma KillActs(m: Manager, v: InstanceId, now: real)
    requires Tidy(m)
    ensures var r := Apply(m, Kill(v), None, now);
      && Apply(m, Kill(v), None, now) == KillInstance(m, v, Some(WorkerNode), now)
      && IsState(r.workers, v, Stopping) && !On(r.workers, v) && Cleared(RecordOf(r, v)) && OthersKept(m, r, v)
      && |OnSet(r)| == |OnSet(m)| - (if On(m.workers, v) then 1 else 0)
  {
    KillOneExactly(m, v, Some(WorkerNode), now);
    assert RecordOf(KillInstance(m, v, Some(WorkerNode), now), v).worker == Some(Stopping);
    SetStateCounts(m, v, Stopping);
  }

  /** The sample of a heartbeat: waiting and running tasks, shared evenly among the workers reported busy. */
  lemma SampleExactly(h: Summary)
    ensures Sample(h) * (if h.order == [] then 1.0 else |h.order| as real) == (h.waiting + h.running) as real
  {
  }

  /** A heartbeat replaces the reported allocation, and its sample is the newest. */
  lemma NewestExactly(w: Window, h: Summary)
    ensures var r := Update(w, h);
      r.order == h.order && r.load == h.load && r.samples != [] && r.samples[|r.samples| - 1] == Sample(h)
  {
  }

  /** Added up from the front. */
  function Total(values: seq<real>): real {
    if values == [] then 0.0 else values[0] + Total(values[1..])
  }

  lemma {:induction false} TotalLast(values: seq<real>, last: real)
    ensures Total(values + [last]) == Total(values) + last
  {
    if values == [] {
      assert values + [last] == [last];
    } else {
      assert (values + [last])[0] == values[0] && (values + [last])[1..] == values[1..] + [last];
      TotalLast(values[1..], last);
    }
  }

  lemma {:induction false} SumIsTotal(values: seq<real>)
    ensures Sum(values) == Total(values)
  {
    if values != [] {
      var front, last := values[..|values| - 1], values[|values| - 1];
      SumIsTotal(front);
      TotalLast(front, last);
      assert values == front + [last];
    }
  }

  /** The mean times the number of samples is their total. */
  lemma MeanExactly(values: seq<real>)
    requires values != []
    ensures ExactMean(values) * |values| as real == Total(values)
  {
    SumIsTotal(values);
  }

  /** The counter that the scheduler's n-th turn finds. */
  function CounterAt(n: nat): int {
    if n == 0 then BOTO_UPDATE_SEC else NextCounter(CounterAt(n - 1))
  }

  lemma {:induction false} CounterExactly(n: nat)
    ensures CounterAt(n) == if n == 0 then 60 else 59 - (n - 1) % 60
  {
    if n > 0 {
      CounterExactly(n - 1);
    }
  }

  /** The states are updated from the cloud in every sixtieth turn, the first of all excepted. */
  lemma UpdateEverySixty(n: nat)
    ensures CounterAt(n) <= 0 <==> n > 0 && n % 60 == 0
  {
    CounterExactly(n);
  }
}
