/** Nobody is billed twice for the same time, in any run of the instance manager. */
module Charging {
  import opened Queues
  import opened InstanceModel

  /** Everything that touches the charges, with time passing in between. */
  datatype Event =
    | Elapse(duration: real)
    | Heard(id: InstanceId, sent: real)
    | Initialised(id: InstanceId, kind: Kind, wait: bool)
    | Killed(id: InstanceId, typed: Option<Kind>)
    | Checked(id: InstanceId, kind: Kind)
    | Reported(id: InstanceId, kind: Kind, state: InstanceState)
    | Signalled(id: InstanceId, kind: Kind)

  /** A KeyError in _check_living leaves the state as it was. */
  function Step(m: Manager, now: real, e: Event): (Manager, real)
    requires e.Elapse? ==> e.duration >= 0.0
  {
    match e
    case Elapse(duration) => (m, now + duration)
    case Heard(id, sent) => (NoteHeartBeat(m, id, sent, now), now)
    case Initialised(id, kind, wait) => (InitInstance(m, id, kind, wait, now), now)
    case Killed(id, kind) => (KillInstance(m, id, kind, now), now)
    case Checked(id, kind) => (CheckLiving(m, id, kind, now).m, now)
    case Reported(id, kind, state) => (SetState(m, id, kind, state), now)
    case Signalled(id, kind) => (SendStart(m, id, kind, now), now)
  }

  /** Charges of one instance lie one after the other in time, before its open interval, if any. */
  ghost predicate Sequential(m: Manager, now: real) {
    && (forall i | 0 <= i < |m.charges| :: m.charges[i].since <= m.charges[i].until <= now)
    && (forall i, j | 0 <= i < j < |m.charges| && m.charges[i].instance == m.charges[j].instance ::
          m.charges[i].until <= m.charges[j].since)
    && (forall i | 0 <= i < |m.charges| && m.charges[i].instance in m.chargeTime ::
          m.charges[i].until <= m.chargeTime[m.charges[i].instance])
    && (forall id | id in m.chargeTime :: m.chargeTime[id] <= now)
  }

  lemma CloseKeeps(m: Manager, id: InstanceId, now: real)
    requires Sequential(m, now) && id in m.chargeTime
    ensures Sequential(CloseCharge(m, id, now), now)
  {
  }

  lemma OpenKeeps(m: Manager, r: Manager, id: InstanceId, now: real)
    requires Sequential(m, now) && r.charges == m.charges
    requires r.chargeTime == m.chargeTime || r.chargeTime == m.chargeTime[id := now]
    ensures Sequential(r, now)
  {
  }

  lemma InitKeeps(m: Manager, id: InstanceId, kind: Kind, wait: bool, now: real)
    requires Sequential(m, now)
    ensures Sequential(InitInstance(m, id, kind, wait, now), now)
  {
    OpenKeeps(m, InitInstance(m, id, kind, wait, now), id, now);
  }

  lemma CheckKeeps(m: Manager, id: InstanceId, kind: Kind, now: real)
    requires Sequential(m, now)
    ensures Sequential(CheckLiving(m, id, kind, now).m, now)
  {
    if id in m.chargeTime {
      var closed := CloseCharge(m, id, now);
      CloseKeeps(m, id, now);
      InitKeeps(closed, id, kind, false, now);
    }
  }

  lemma KillKeeps(m: Manager, id: InstanceId, kind: Option<Kind>, now: real)
    requires Sequential(m, now)
    ensures Sequential(KillInstance(m, id, kind, now), now)
  {
    var r := KillInstance(m, id, kind, now);
    if id in m.chargeTime {
      CloseKeeps(m, id, now);
      OpenKeeps(CloseCharge(m, id, now), r, id, now);
    } else {
      OpenKeeps(m, r, id, now);
    }
  }

  lemma StepKeeps(m: Manager, now: real, e: Event)
    requires Sequential(m, now) && (e.Elapse? ==> e.duration >= 0.0)
    ensures var (r, later) := Step(m, now, e); Sequential(r, later)
  {
    match e
    case Elapse(_) =>
    case Heard(id, sent) => OpenKeeps(m, NoteHeartBeat(m, id, sent, now), id, now);
    case Initialised(id, kind, wait) => InitKeeps(m, id, kind, wait, now);
    case Killed(id, typed) => KillKeeps(m, id, typed, now);
    case Checked(id, kind) => CheckKeeps(m, id, kind, now);
    case Reported(id, kind, state) => OpenKeeps(m, SetState(m, id, kind, state), id, now);
    case Signalled(id, kind) => OpenKeeps(m, SendStart(m, id, kind, now), id, now);
  }

  /** The instance manager starts with its own charge open. */
  ghost predicate Initial(m: Manager, now: real) {
    m.charges == [] && forall id | id in m.chargeTime :: m.chargeTime[id] <= now
  }

  ghost predicate Run(m: Manager, now: real, events: seq<Event>, r: Manager, end: real)
    decreases |events|
  {
    if events == [] then r == m && end == now
    else
      && (events[0].Elapse? ==> events[0].duration >= 0.0)
      && var (m', now') := Step(m, now, events[0]);
      Run(m', now', events[1..], r, end)
  }

  /** At every moment of every run, the intervals billed to an instance never overlap. */
  lemma {:induction false} BilledOnce(m: Manager, now: real, events: seq<Event>, r: Manager, end: real)
    requires Sequential(m, now) && Run(m, now, events, r, end)
    ensures Sequential(r, end)
    decreases |events|
  {
    if events != [] {
      StepKeeps(m, now, events[0]);
      var (m', now') := Step(m, now, events[0]);
      BilledOnce(m', now', events[1..], r, end);
    }
  }

  function Billed(charges: seq<Charge>, id: InstanceId): real {
    if charges == [] then 0.0
    else
      var last := charges[|charges| - 1];
      Billed(charges[..|charges| - 1], id) + (if last.instance == id then last.until - last.since else 0.0)
  }

  /** When the first interval billed to an instance began. */
  function FirstBilled(charges: seq<Charge>, id: InstanceId): Option<real> {
    if charges == [] then None
    else
      var last := charges[|charges| - 1];
      var earlier := FirstBilled(charges[..|charges| - 1], id);
      if earlier.Some? then earlier else if last.instance == id then Some(last.since) else None
  }

  lemma {:induction false} BilledWithin(charges: seq<Charge>, id: InstanceId, until: real)
    requires forall i | 0 <= i < |charges| :: charges[i].since <= charges[i].until
    requires forall i, j | 0 <= i < j < |charges| && charges[i].instance == charges[j].instance ::
      charges[i].until <= charges[j].since
    requires forall i | 0 <= i < |charges| && charges[i].instance == id :: charges[i].until <= until
    ensures match FirstBilled(charges, id)
      case None => Billed(charges, id) == 0.0
      case Some(first) => Billed(charges, id) <= until - first
  {
    if charges != [] {
      var front := charges[..|charges| - 1];
      var last := charges[|charges| - 1];
      BilledWithin(front, id, if last.instance == id then last.since else until);
    }
  }

  /** Charging never double-bills: in any run, what an instance was charged for, with the interval
      still open, is at most the time since the first of those intervals began. */
  lemma NeverDoubleBilled(m: Manager, now: real, events: seq<Event>, r: Manager, end: real, id: InstanceId)
    requires Initial(m, now) && Run(m, now, events, r, end)
    ensures var open := if id in r.chargeTime then end - r.chargeTime[id] else 0.0;
      && open >= 0.0
      && match FirstBilled(r.charges, id)
         case None => Billed(r.charges, id) == 0.0
         case Some(first) => Billed(r.charges, id) + open <= end - first
  {
    BilledOnce(m, now, events, r, end);
    BilledWithin(r.charges, id, if id in r.chargeTime then r.chargeTime[id] else end);
  }

  function Open(m: Manager, now: real, id: InstanceId): real {
    if id in m.chargeTime then now - m.chargeTime[id] else 0.0
  }

  /** How long, in a run, an instance had a charge open. */
  ghost function OpenTime(m: Manager, now: real, events: seq<Event>, id: InstanceId): real
    requires forall i | 0 <= i < |events| && events[i].Elapse? :: events[i].duration >= 0.0
    decreases |events|
  {
    if events == [] then 0.0
    else
      var e := events[0];
      var (m', now') := Step(m, now, e);
      (if e.Elapse? && id in m.chargeTime then e.duration else 0.0) + OpenTime(m', now', events[1..], id)
  }

  /** Starting an instance whose charge is open restarts the charge: what had run up is lost. */
  ghost function LostBy(m: Manager, now: real, e: Event, id: InstanceId): real {
    if e.Initialised? && e.id == id && id in m.chargeTime && (id in m.workers.states ==> m.workers.states[id].Stopped?)
    then now - m.chargeTime[id] else 0.0
  }

  ghost function Lost(m: Manager, now: real, events: seq<Event>, id: InstanceId): real
    requires forall i | 0 <= i < |events| && events[i].Elapse? :: events[i].duration >= 0.0
    decreases |events|
  {
    if events == [] then 0.0
    else
      var (m', now') := Step(m, now, events[0]);
      LostBy(m, now, events[0], id) + Lost(m', now', events[1..], id)
  }

  lemma CloseBills(m: Manager, id: InstanceId, now: real, other: InstanceId)
    requires id in m.chargeTime
    ensures var r := CloseCharge(m, id, now);
      Billed(r.charges, other) + Open(r, now, other) == Billed(m.charges, other) + Open(m, now, other)
  {
    var r := CloseCharge(m, id, now);
    assert r.charges[..|r.charges| - 1] == m.charges;
  }

  lemma CheckDates(m: Manager, id: InstanceId, kind: Kind, now: real)
    ensures var r := CheckLiving(m, id, kind, now).m;
      || (r.charges == m.charges && r.chargeTime == m.chargeTime)
      || (id in m.chargeTime && r == InitInstance(CloseCharge(m, id, now), id, kind, false, now))
  {
  }

  lemma InitDates(m: Manager, id: InstanceId, kind: Kind, wait: bool, now: real)
    ensures var r := InitInstance(m, id, kind, wait, now);
      r.charges == m.charges && (r.chargeTime == m.chargeTime || r.chargeTime == m.chargeTime[id := now])
  {
  }

  lemma CheckBills(m: Manager, id: InstanceId, kind: Kind, now: real, other: InstanceId)
    ensures var r := CheckLiving(m, id, kind, now).m;
      Billed(r.charges, other) + Open(r, now, other) == Billed(m.charges, other) + Open(m, now, other)
  {
    CheckDates(m, id, kind, now);
    if id in m.chargeTime {
      var closed := CloseCharge(m, id, now);
      CloseBills(m, id, now, other);
      InitDates(closed, id, kind, false, now);
    }
  }

  lemma KillDates(m: Manager, id: InstanceId, kind: Option<Kind>, now: real)
    ensures var r := KillInstance(m, id, kind, now);
      var closed := if id in m.chargeTime then CloseCharge(m, id, now) else m;
      r.charges == closed.charges && r.chargeTime == closed.chargeTime
  {
  }

  lemma KillBills(m: Manager, id: InstanceId, kind: Option<Kind>, now: real, other: InstanceId)
    ensures var r := KillInstance(m, id, kind, now);
      Billed(r.charges, other) + Open(r, now, other) == Billed(m.charges, other) + Open(m, now, other)
  {
    KillDates(m, id, kind, now);
    if id in m.chargeTime {
      CloseBills(m, id, now, other);
    }
  }

  lemma InitBills(m: Manager, id: InstanceId, kind: Kind, wait: bool, now: real, other: InstanceId)
    ensures var r := InitInstance(m, id, kind, wait, now);
      && r.charges == m.charges
      && Open(r, now, other) + LostBy(m, now, Initialised(id, kind, wait), other) == Open(m, now, other)
  {
  }

  lemma StepBills(m: Manager, now: real, e: Event, id: InstanceId)
    requires e.Elapse? ==> e.duration >= 0.0
    ensures var (r, later) := Step(m, now, e);
      Billed(r.charges, id) + Open(r, later, id) + LostBy(m, now, e, id)
        == Billed(m.charges, id) + Open(m, now, id) + (if e.Elapse? && id in m.chargeTime then e.duration else 0.0)
  {
    match e
    case Killed(other, typed) => KillBills(m, other, typed, now, id);
    case Checked(other, kind) => CheckBills(m, other, kind, now, id);
    case Initialised(other, kind, wait) => InitBills(m, other, kind, wait, now, id);
    case _ =>
  }

  /** Exact billing: over any run, what was billed and what is still open grow by exactly the time the
      charge was open, less what restarting an open charge lost. */
  lemma {:induction false} BilledExactly(
    m: Manager, now: real, events: seq<Event>, r: Manager, end: real, id: InstanceId)
    requires Run(m, now, events, r, end)
    requires forall i | 0 <= i < |events| && events[i].Elapse? :: events[i].duration >= 0.0
    ensures Billed(r.charges, id) + Open(r, end, id) + Lost(m, now, events, id)
         == Billed(m.charges, id) + Open(m, now, id) + OpenTime(m, now, events, id)
    decreases |events|
  {
    if events != [] {
      StepBills(m, now, events[0], id);
      var (m', now') := Step(m, now, events[0]);
      BilledExactly(m', now', events[1..], r, end, id);
    }
  }

  lemma InitTidy(m: Manager, id: InstanceId, kind: Kind, wait: bool, now: real)
    requires Tidy(m)
    ensures Tidy(InitInstance(m, id, kind, wait, now))
  {
    SetStateTidy(m, id, kind, if wait then Running else Pending);
  }

  lemma KillTidy(m: Manager, id: InstanceId, kind: Option<Kind>, now: real)
    requires Tidy(m)
    ensures Tidy(KillInstance(m, id, kind, now))
  {
    if kind.Some? {
      SetStateTidy(m, id, kind.value, Stopping);
    }
  }

  lemma CheckTidy(m: Manager, id: InstanceId, kind: Kind, now: real)
    requires Tidy(m)
    ensures Tidy(CheckLiving(m, id, kind, now).m)
  {
    SetStateTidy(m, id, kind, Running);
    if id in m.chargeTime {
      InitTidy(CloseCharge(m, id, now), id, kind, false, now);
    }
  }

  lemma StepTidy(m: Manager, now: real, e: Event)
    requires Tidy(m) && (e.Elapse? ==> e.duration >= 0.0)
    ensures Tidy(Step(m, now, e).0)
  {
    match e
    case Initialised(id, kind, wait) => InitTidy(m, id, kind, wait, now);
    case Killed(id, typed) => KillTidy(m, id, typed, now);
    case Checked(id, kind) => CheckTidy(m, id, kind, now);
    case Reported(id, kind, state) => SetStateTidy(m, id, kind, state);
    case _ =>
  }

  /** In every run the two dictionaries of machines list each machine once. */
  lemma {:induction false} StaysTidy(m: Manager, now: real, events: seq<Event>, r: Manager, end: real)
    requires Tidy(m) && Run(m, now, events, r, end)
    ensures Tidy(r)
    decreases |events|
  {
    if events != [] {
      StepTidy(m, now, events[0]);
      var (m', now') := Step(m, now, events[0]);
      StaysTidy(m', now', events[1..], r, end);
    }
  }

  /** A machine that was heard of has its charge open, unless it is a worker. */
  ghost predicate HeardCharged(m: Manager) {
    Tidy(m) && forall id | id in m.lastHeartBeat :: id in m.chargeTime || id in m.workers.keys
  }

  lemma CheckCharged(m: Manager, id: InstanceId, kind: Kind, now: real)
    requires HeardCharged(m)
    ensures HeardCharged(CheckLiving(m, id, kind, now).m)
  {
    CheckTidy(m, id, kind, now);
  }

  lemma StepCharged(m: Manager, now: real, e: Event)
    requires HeardCharged(m) && (e.Elapse? ==> e.duration >= 0.0) && (e.Killed? ==> e.typed.Some?)
    ensures HeardCharged(Step(m, now, e).0)
  {
    StepTidy(m, now, e);
    if e.Checked? {
      CheckCharged(m, e.id, e.kind, now);
    }
  }

  /** In every run, up to the shutdown that stops machines without naming their types, only a worker's
      charge can be closed while the manager still notes when it heard of it. */
  lemma {:induction false} StaysCharged(m: Manager, now: real, events: seq<Event>, r: Manager, end: real)
    requires HeardCharged(m) && Run(m, now, events, r, end)
    requires forall i | 0 <= i < |events| && events[i].Killed? :: events[i].typed.Some?
    ensures HeardCharged(r)
    decreases |events|
  {
    if events != [] {
      StepCharged(m, now, events[0]);
      var (m', now') := Step(m, now, events[0]);
      StaysCharged(m', now', events[1..], r, end);
    }
  }

  const W := WorkerId(1)

  /** A reachable manager: W was started, heard of once at time 0 and checked at time 20. It is on, its
      charge is closed, and every later check of it raises KeyError unless it is heard of. */
  lemma SilentWorkerReachable(self: InstanceId, later: real) returns (events: seq<Event>, r: Manager)
    requires self != W && later >= 20.0
    ensures Run(NewManager(self, 0.0), 0.0, events, r, 20.0)
    ensures On(r.workers, W) && W !in r.chargeTime && W in r.lastHeartBeat && r.nodeManagers.keys == []
    ensures CheckLiving(r, W, WorkerNode, later).KeyError? && CheckAllLiving(r, later).KeyError?
  {
    var m0 := NewManager(self, 0.0);
    var m1 := InitInstance(m0, W, WorkerNode, false, 0.0);
    var m2 := NoteHeartBeat(m1, W, 0.0, 0.0);
    r := CheckLiving(m2, W, WorkerNode, 20.0).m;
    events := [Initialised(W, WorkerNode, false), Heard(W, 0.0), Elapse(20.0), Checked(W, WorkerNode)];
    assert events[1..] == [Heard(W, 0.0), Elapse(20.0), Checked(W, WorkerNode)];
    assert events[1..][1..] == [Elapse(20.0), Checked(W, WorkerNode)];
    assert events[1..][1..][1..] == [Checked(W, WorkerNode)] && events[1..][1..][1..][1..] == [];
    assert Run(r, 20.0, [], r, 20.0);
    assert Run(m2, 20.0, [Checked(W, WorkerNode)], r, 20.0);
    assert Run(m2, 0.0, [Elapse(20.0), Checked(W, WorkerNode)], r, 20.0);
    assert Run(m1, 0.0, events[1..], r, 20.0);
    assert r.workers.keys == [W];
    assert CheckEach(r, [], NodeManager, later) == Ok(r);
  }
}
