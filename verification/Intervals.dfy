/** How many workers can be on by the next heartbeat of the node manager: the bound, and exactly when
    there is none. */
module Intervals {
  import opened Queues
  import opened LoadWindow
  import opened InstanceModel
  import opened Liveness
  import opened Scheduling
  import Charging

  const TURN: real := SERVER_SLEEP_TIME as real

  /** The clock runs from a given time on, and the scheduler sleeps between its turns. */
  ghost predicate Clocked(steps: seq<Step>, from: real) {
    && Timed(steps, from)
    && (forall i, j | 0 <= i < j < |steps| && steps[i].Scheduled? && steps[j].Scheduled? ::
          steps[i].now + TURN <= steps[j].now)
  }

  /** A node manager that is heard of renews the window, so between its heartbeats only others are. */
  ghost predicate OthersHeard(m: Manager, steps: seq<Step>) {
    forall i | 0 <= i < |steps| && steps[i].Heard? :: steps[i].id !in m.nodeManagers.keys
  }

  /** What can happen between two heartbeats of the node manager and two updates from the cloud. */
  ghost predicate Plausible(m: Manager, steps: seq<Step>, from: real) {
    && ListedSteps(steps) && Undisturbed(steps)
    && WorkersOffered(m, steps) && OthersHeard(m, steps) && Clocked(steps, from)
  }

  /** The workers on do not exceed the larger of their number at the start and one more than those
      reported busy. */
  ghost predicate Bounded(m: Manager, w: Window, steps: seq<Step>)
    requires Listed(w.order, w.load) && ListedSteps(steps)
  {
    var outcome := Follow(m, w, steps).0;
    outcome.Ok? ==> |OnSet(outcome.m)| <= |OnSet(m)| || |OnSet(outcome.m)| <= |w.order| + 1
  }

  /** Every listed machine is heard of, at the same time. */
  ghost function Refreshed(m: Manager, ids: seq<InstanceId>, now: real): Manager
    decreases |ids|
  {
    if ids == [] then m else Refreshed(NoteHeartBeat(m, ids[0], now, now), ids[1..], now)
  }

  ghost function HeardAll(ids: seq<InstanceId>, now: real): (r: seq<Step>)
    ensures |r| == |ids| && forall i | 0 <= i < |r| :: r[i] == Heard(ids[i], now, now)
  {
    seq(|ids|, i requires 0 <= i < |ids| => Heard(ids[i], now, now))
  }

  lemma {:induction false} FollowRefresh(m: Manager, w: Window, ids: seq<InstanceId>, now: real, rest: seq<Step>)
    requires Listed(w.order, w.load) && ListedSteps(rest)
    ensures ListedSteps(HeardAll(ids, now) + rest)
    ensures Follow(m, w, HeardAll(ids, now) + rest) == Follow(Refreshed(m, ids, now), w, rest)
    decreases |ids|
  {
    if ids == [] {
      assert HeardAll(ids, now) + rest == rest;
    } else {
      FollowRefresh(NoteHeartBeat(m, ids[0], now, now), w, ids[1..], now, rest);
      assert (HeardAll(ids, now) + rest)[1..] == HeardAll(ids[1..], now) + rest;
    }
  }

  lemma {:induction false} RefreshedFrame(m: Manager, ids: seq<InstanceId>, now: real)
    ensures var r := Refreshed(m, ids, now);
      && r.workers == m.workers && r.nodeManagers == m.nodeManagers
      && (forall k | k in ids :: k in r.lastHeartBeat && r.lastHeartBeat[k] == now)
      && (forall k | k !in ids :: k in r.lastHeartBeat <==> k in m.lastHeartBeat)
      && (forall k | k !in ids && k in m.lastHeartBeat :: r.lastHeartBeat[k] == m.lastHeartBeat[k])
      && (forall k | k in m.chargeTime :: k in r.chargeTime)
    decreases |ids|
  {
    if ids != [] {
      RefreshedFrame(NoteHeartBeat(m, ids[0], now, now), ids[1..], now);
    }
  }

  /** No worker that is on has been silent for too long. */
  ghost predicate Punctual(m: Manager, now: real) {
    forall id :: On(m.workers, id) && id in m.lastHeartBeat ==> now - m.lastHeartBeat[id] < HEART_BEAT_TIMEOUT
  }

  /** A manager in good order: nothing is listed twice, and no node manager's charge can lapse. */
  ghost predicate WellRun(m: Manager) {
    Tidy(m) && Disjoint(m) && NodesCharged(m)
  }

  /** Every run of the instance manager, up to its shutdown, leads to such a manager, as long as no
      machine is listed under both types. */
  lemma RunsAreWellRun(
    self: InstanceId, start: real, events: seq<Charging.Event>, m: Manager, end: real)
    requires Charging.Run(NewManager(self, start), start, events, m, end) && Disjoint(m)
    requires forall i | 0 <= i < |events| && events[i].Killed? :: events[i].typed.Some?
    ensures WellRun(m)
  {
    Charging.StaysCharged(NewManager(self, start), start, events, m, end);
  }

  /** When all workers that are on are heard of, nobody is late. */
  lemma RefreshKeeps(m: Manager, now: real)
    requires WellRun(m)
    ensures var r := Refreshed(m, OnSet(m), now);
      && WellRun(r) && Punctual(r, now)
      && r.workers == m.workers && r.nodeManagers == m.nodeManagers && OnSet(r) == OnSet(m)
  {
    var ids := OnSet(m);
    RefreshedFrame(m, ids, now);
    assert forall k :: On(m.workers, k) <==> k in ids;
    assert forall k | On(m.nodeManagers, k) :: k !in ids;
  }

  lemma PunctualSurvives(m: Manager, now: real)
    requires WellRun(m) && Punctual(m, now)
    ensures CheckAllLiving(m, now).Ok?
    ensures var r := CheckAllLiving(m, now).m;
      WellRun(r) && SameOn(m.workers, r.workers) && r.nodeManagers.keys == m.nodeManagers.keys && OnSet(r) == OnSet(m)
  {
    CheckAllFails(m, now);
    CheckAllEffect(m, now);
    CheckAllKeepsNodes(m, now);
    SameOnSet(m, CheckAllLiving(m, now).m);
  }

  /** A machine that can be turned on: a worker that is stopped, or one the manager does not know. */
  ghost predicate Startable(m: Manager, id: InstanceId) {
    id !in m.nodeManagers.keys && (id in m.workers.states ==> m.workers.states[id].Stopped?)
  }

  lemma {:induction false} FilterNew(keys: seq<InstanceId>, states: States, wanted: set<InstanceState>, id: InstanceId)
    requires id in states && states[id] in wanted
    ensures |Filter(keys + [id], states, wanted)| == |Filter(keys, states, wanted)| + 1
  {
    if keys == [] {
      assert keys + [id] == [id] && Filter([id][1..], states, wanted) == [];
    } else {
      assert (keys + [id])[1..] == keys[1..] + [id];
      FilterNew(keys[1..], states, wanted, id);
    }
  }

  lemma {:induction false} FilterTurned(
    keys: seq<InstanceId>, states: States, wanted: set<InstanceState>, id: InstanceId, state: InstanceState)
    requires NoDup(keys) && id in keys && id in states && states[id] !in wanted && state in wanted
    ensures |Filter(keys, states[id := state], wanted)| == |Filter(keys, states, wanted)| + 1
  {
    NoDupTail(keys);
    if keys[0] == id {
      SameFilter(keys[1..], states, states[id := state], wanted);
    } else {
      FilterTurned(keys[1..], states, wanted, id, state);
    }
  }

  lemma StartCounts(m: Manager, id: InstanceId, now: real)
    requires Tidy(m) && Startable(m, id)
    ensures |OnSet(StartWorker(m, Some(id), now))| == |OnSet(m)| + 1
  {
    var states := m.workers.states[id := Pending];
    if id in m.workers.states {
      FilterTurned(m.workers.keys, m.workers.states, {Pending, Running}, id, Pending);
    } else {
      SameFilter(m.workers.keys, m.workers.states, states, {Pending, Running});
      FilterNew(m.workers.keys, states, {Pending, Running}, id);
    }
  }

  /** Nobody but `id` changes its state. */
  ghost predicate OnlyStarts(m: Manager, r: Manager, id: InstanceId) {
    && On(r.workers, id) && id in r.workers.keys
    && (forall k | k != id :: k in r.workers.states <==> k in m.workers.states)
    && (forall k | k != id && k in m.workers.states && k in r.workers.states ::
          r.workers.states[k] == m.workers.states[k])
  }

  lemma StartKeeps(m: Manager, id: InstanceId, now: real)
    requires WellRun(m) && Startable(m, id)
    ensures var r := StartWorker(m, Some(id), now);
      WellRun(r) && r.nodeManagers == m.nodeManagers && OnlyStarts(m, r, id)
  {
    SetStateTidy(m, id, WorkerNode, Pending);
  }

  lemma UnservedTurnIs(m: Manager, w: Window, id: InstanceId, now: real)
    requires WellRun(m) && Punctual(m, now) && Listed(w.order, w.load) && Unserved(w)
    ensures CheckAllLiving(m, now).Ok?
    ensures Turn(m, w, Some(id), now) == (Ok(StartWorker(CheckAllLiving(m, now).m, Some(id), now)), Create)
  {
    PunctualSurvives(m, now);
    CreatesUnlimited(m, w, Some(id), now);
  }

  lemma StillStartable(m: Manager, r: Manager, id: InstanceId)
    requires Startable(m, id) && SameOn(m.workers, r.workers) && r.nodeManagers.keys == m.nodeManagers.keys
    ensures Startable(r, id)
  {
  }

  /** One turn of an unserved scheduler that is offered a machine it can start. */
  lemma UnservedTurn(m: Manager, w: Window, id: InstanceId, now: real)
    requires WellRun(m) && Punctual(m, now) && Listed(w.order, w.load) && Unserved(w) && Startable(m, id)
    ensures var (outcome, action) := Turn(m, w, Some(id), now);
      && outcome.Ok? && action.Create? && WellRun(outcome.m)
      && outcome.m.nodeManagers.keys == m.nodeManagers.keys && |OnSet(outcome.m)| == |OnSet(m)| + 1
      && OnlyStarts(CheckAllLiving(m, now).m, outcome.m, id)
  {
    PunctualSurvives(m, now);
    UnservedTurnIs(m, w, id, now);
    var checked := CheckAllLiving(m, now).m;
    StillStartable(m, checked, id);
    StartKeeps(checked, id, now);
    StartCounts(checked, id, now);
  }

  lemma OthersAfterStart(m: Manager, checked: Manager, r: Manager, id: InstanceId, other: InstanceId)
    requires Tidy(m) && Tidy(r) && SameOn(m.workers, checked.workers) && OnlyStarts(checked, r, id)
    requires r.nodeManagers.keys == m.nodeManagers.keys
    ensures On(m.workers, other) ==> On(r.workers, other)
    ensures other in r.workers.keys ==> other in m.workers.keys || other == id
    ensures other != id && Startable(m, other) ==> Startable(r, other)
  {
  }

  lemma UnservedTurnStarts(m: Manager, w: Window, id: InstanceId, now: real, other: InstanceId)
    requires WellRun(m) && Punctual(m, now) && Listed(w.order, w.load) && Unserved(w) && Startable(m, id)
    ensures var r := Turn(m, w, Some(id), now).0.m;
      && On(r.workers, id) && (On(m.workers, other) ==> On(r.workers, other))
      && (other in r.workers.keys ==> other in m.workers.keys || other == id)
      && (other != id && Startable(m, other) ==> Startable(r, other))
  {
    PunctualSurvives(m, now);
    UnservedTurn(m, w, id, now);
    OthersAfterStart(m, CheckAllLiving(m, now).m, Turn(m, w, Some(id), now).0.m, id, other);
  }

  /** Everybody on is heard of, then the scheduler takes its turn. */
  ghost function TurnBlock(ids: seq<InstanceId>, pick: InstanceId, now: real): seq<Step> {
    HeardAll(ids, now) + [Scheduled(Some(pick), now)]
  }

  /** Plausible steps that end by a given time and offer certain machines only. */
  ghost predicate Fits(m: Manager, steps: seq<Step>, from: real, until: real, picks: seq<InstanceId>) {
    && Plausible(m, steps, from) && (forall i | 0 <= i < |steps| :: steps[i].now <= until)
    && KnownOffered(picks, steps)
  }

  /** The machines offered are among certain ones. */
  ghost predicate KnownOffered(known: seq<InstanceId>, steps: seq<Step>) {
    forall i | 0 <= i < |steps| && steps[i].Scheduled? && steps[i].pick.Some? :: steps[i].pick.value in known
  }

  lemma BlockFits(
    m: Manager, ids: seq<InstanceId>, pick: InstanceId, from: real, rest: seq<Step>, until: real,
    picks: seq<InstanceId>)
    requires forall k | k in ids :: k !in m.nodeManagers.keys
    requires pick !in m.nodeManagers.keys && pick in picks && from <= until
    requires Fits(m, rest, from + TURN, until, picks)
    ensures Fits(m, TurnBlock(ids, pick, from) + rest, from, until, picks)
  {
    var steps := TurnBlock(ids, pick, from) + rest;
    var n := |ids|;
    assert forall i | 0 <= i < |steps| ::
      steps[i] == (if i < n then Heard(ids[i], from, from)
                   else if i == n then Scheduled(Some(pick), from) else rest[i - n - 1]);
    assert Clocked(steps, from);
  }

  lemma FollowBlock(m: Manager, w: Window, ids: seq<InstanceId>, pick: InstanceId, now: real, rest: seq<Step>)
    requires Listed(w.order, w.load) && ListedSteps(rest)
    requires Turn(Refreshed(m, ids, now), w, Some(pick), now).0.Ok?
    ensures ListedSteps(TurnBlock(ids, pick, now) + rest)
    ensures Follow(m, w, TurnBlock(ids, pick, now) + rest).0
         == Follow(Turn(Refreshed(m, ids, now), w, Some(pick), now).0.m, w, rest).0
  {
    var later := [Scheduled(Some(pick), now)] + rest;
    assert later[1..] == rest && forall i | 0 < i < |later| :: later[i] == rest[i - 1];
    FollowRefresh(m, w, ids, now, later);
    assert TurnBlock(ids, pick, now) + rest == HeardAll(ids, now) + later;
  }

  /** The machines are on at the end, and so is everybody who was at the start; others are not known. */
  ghost predicate Grown(m: Manager, r: Manager, picks: seq<InstanceId>) {
    && WellRun(r) && r.nodeManagers.keys == m.nodeManagers.keys && |OnSet(r)| == |OnSet(m)| + |picks|
    && (forall k | k in picks || On(m.workers, k) :: On(r.workers, k))
    && (forall k | k in r.workers.keys :: k in m.workers.keys || k in picks)
  }

  ghost predicate AllStartable(m: Manager, picks: seq<InstanceId>) {
    NoDup(picks) && forall k | k in picks :: Startable(m, k)
  }

  /** When the last of n turns is taken. */
  function LastTurn(from: real, n: nat): real {
    if n == 0 then from else from + TURN * (n - 1) as real
  }

  lemma OneStarted(m: Manager, w: Window, picks: seq<InstanceId>, now: real)
    requires WellRun(m) && Listed(w.order, w.load) && Unserved(w) && AllStartable(m, picks) && picks != []
    ensures var outcome := Turn(Refreshed(m, OnSet(m), now), w, Some(picks[0]), now).0;
      outcome.Ok? && Grown(m, outcome.m, [picks[0]]) && AllStartable(outcome.m, picks[1..])
  {
    var heard := Refreshed(m, OnSet(m), now);
    RefreshKeeps(m, now);
    assert picks[0] in picks && Startable(m, picks[0]) && Startable(heard, picks[0]);
    UnservedTurn(heard, w, picks[0], now);
    NoDupTail(picks);
    forall k
      ensures var r := Turn(heard, w, Some(picks[0]), now).0.m;
        && (k == picks[0] || On(m.workers, k) ==> On(r.workers, k))
        && (k in r.workers.keys ==> k in m.workers.keys || k == picks[0])
        && (k in picks[1..] ==> Startable(r, k))
    {
      UnservedTurnStarts(heard, w, picks[0], now, k);
      assert k in picks[1..] ==> Startable(m, k) && Startable(heard, k);
    }
  }

  lemma GrownOn(a: Manager, b: Manager, c: Manager, picks: seq<InstanceId>)
    requires picks != [] && Grown(a, b, [picks[0]]) && Grown(b, c, picks[1..])
    ensures Grown(a, c, picks)
  {
    assert picks == [picks[0]] + picks[1..];
  }

  lemma RestFits(m: Manager, r: Manager, rest: seq<Step>, from: real, picks: seq<InstanceId>)
    requires picks != [] && r.nodeManagers.keys == m.nodeManagers.keys
    requires Fits(r, rest, from + TURN, LastTurn(from + TURN, |picks| - 1), picks[1..])
    requires |picks| == 1 ==> rest == []
    ensures from <= LastTurn(from, |picks|)
    ensures Fits(m, rest, from + TURN, LastTurn(from, |picks|), picks)
  {
  }

  /** One machine more: a block of steps before those that start the rest. */
  lemma MoreFits(m: Manager, r: Manager, ids: seq<InstanceId>, rest: seq<Step>, from: real, picks: seq<InstanceId>)
    requires picks != [] && r.nodeManagers.keys == m.nodeManagers.keys && picks[0] !in m.nodeManagers.keys
    requires forall k | k in ids :: k !in m.nodeManagers.keys
    requires Fits(r, rest, from + TURN, LastTurn(from + TURN, |picks| - 1), picks[1..]) && (|picks| == 1 ==> rest == [])
    ensures Fits(m, TurnBlock(ids, picks[0], from) + rest, from, LastTurn(from, |picks|), picks)
  {
    RestFits(m, r, rest, from, picks);
    BlockFits(m, ids, picks[0], from, rest, LastTurn(from, |picks|), picks);
  }

  lemma MoreGrown(m: Manager, w: Window, from: real, picks: seq<InstanceId>, r: Manager, rest: seq<Step>)
    requires Listed(w.order, w.load) && ListedSteps(rest) && picks != []
    requires Turn(Refreshed(m, OnSet(m), from), w, Some(picks[0]), from).0 == Ok(r) && Grown(m, r, [picks[0]])
    requires Follow(r, w, rest).0.Ok? && Grown(r, Follow(r, w, rest).0.m, picks[1..])
    ensures var steps := TurnBlock(OnSet(m), picks[0], from) + rest;
      && ListedSteps(steps) && Follow(m, w, steps).0.Ok? && Grown(m, Follow(m, w, steps).0.m, picks)
  {
    FollowBlock(m, w, OnSet(m), picks[0], from, rest);
    GrownOn(m, r, Follow(r, w, rest).0.m, picks);
  }

  lemma OnNotManagers(m: Manager)
    requires WellRun(m)
    ensures forall k | k in OnSet(m) :: k !in m.nodeManagers.keys
  {
  }

  lemma GrownNothing(m: Manager)
    requires WellRun(m)
    ensures Grown(m, m, [])
  {
  }

  /** Unserved, the scheduler turns on one machine after the other, a turn each, while everybody on is
      heard of in time: any machines it can start, until the next heartbeat of the node manager. */
  lemma {:induction false} UnservedStarts(m: Manager, w: Window, from: real, picks: seq<InstanceId>)
    returns (steps: seq<Step>)
    requires WellRun(m) && Listed(w.order, w.load) && Unserved(w) && AllStartable(m, picks)
    ensures Fits(m, steps, from, LastTurn(from, |picks|), picks)
    ensures var outcome := Follow(m, w, steps).0; outcome.Ok? && Grown(m, outcome.m, picks)
    decreases |picks|
  {
    steps := [];
    if picks == [] {
      GrownNothing(m);
    } else {
      OneStarted(m, w, picks, from);
      var r := Turn(Refreshed(m, OnSet(m), from), w, Some(picks[0]), from).0.m;
      GrownNothing(r);
      if |picks| > 1 {
        steps := UnservedStarts(r, w, from + TURN, picks[1..]);
      }
      OnNotManagers(m);
      assert picks[0] in picks;
      MoreFits(m, r, OnSet(m), steps, from, picks);
      MoreGrown(m, w, from, picks, r, steps);
      steps := TurnBlock(OnSet(m), picks[0], from) + steps;
    }
  }

  lemma {:induction false} IdBound(used: set<InstanceId>) returns (bound: nat)
    ensures forall id | id in used :: id.instance < bound
    decreases |used|
  {
    if used == {} {
      bound := 0;
    } else {
      var id :| id in used;
      var rest := IdBound(used - {id});
      bound := if id.instance < rest then rest else id.instance + 1;
    }
  }

  /** Machines the manager does not know. */
  lemma NewMachines(m: Manager, n: nat) returns (ids: seq<InstanceId>)
    ensures |ids| == n && AllStartable(m, ids)
  {
    var bound := IdBound((set k | k in m.nodeManagers.keys) + m.workers.states.Keys);
    ids := seq(n, i requires 0 <= i < n => WorkerId(bound + i));
    forall k | k in ids
      ensures Startable(m, k)
    {
      assert k !in (set j | j in m.nodeManagers.keys);
    }
  }

  /** Between two node manager heartbeats, whatever the scheduler and the workers do and whichever
      machines the cloud offers, the workers on are bounded by their number at the start or by one more
      than those reported busy: this holds of everything that can happen if and only if the scheduler is
      not in the unlimited branch. */
  lemma IntervalBounds(m: Manager, w: Window, from: real)
    requires WellRun(m) && Apart(m, w) && Listed(w.order, w.load)
    ensures (forall steps | Plausible(m, steps, from) :: Bounded(m, w, steps)) <==> !Unserved(w)
  {
    if Unserved(w) {
      var picks := NewMachines(m, 2);
      var steps := UnservedStarts(m, w, from, picks);
      assert Plausible(m, steps, from) && !Bounded(m, w, steps);
    } else {
      forall steps | Plausible(m, steps, from)
        ensures Bounded(m, w, steps)
      {
        if Follow(m, w, steps).0.Ok? {
          IntervalKeeps(m, w, steps, if |OnSet(m)| > |w.order| + 1 then |OnSet(m)| else |w.order| + 1);
        }
      }
    }
  }

  /** Nobody outside of `may` is on or can be turned on by offering a known machine. */
  ghost predicate Within(m: Manager, known: seq<InstanceId>, may: seq<InstanceId>) {
    && (forall k :: On(m.workers, k) ==> k in may)
    && (forall k | k in known :: k in m.workers.states && (m.workers.states[k].Stopped? ==> k in may))
  }

  lemma ApplyWithin(
    m: Manager, action: Action, pick: Option<InstanceId>, now: real, known: seq<InstanceId>, may: seq<InstanceId>)
    requires Tidy(m) && Within(m, known, may) && (pick.Some? ==> pick.value in known)
    ensures Within(Apply(m, action, pick, now), known, may)
  {
  }

  lemma TurnWithin(
    m: Manager, w: Window, pick: Option<InstanceId>, now: real, known: seq<InstanceId>, may: seq<InstanceId>)
    requires Tidy(m) && Disjoint(m) && Listed(w.order, w.load) && Turn(m, w, pick, now).0.Ok?
    requires Within(m, known, may) && (pick.Some? ==> pick.value in known)
    ensures Within(Turn(m, w, pick, now).0.m, known, may)
  {
    CheckAllEffect(m, now);
    var checked := CheckAllLiving(m, now).m;
    assert Within(checked, known, may);
    ApplyWithin(checked, Decide(checked, w), pick, now, known, may);
  }

  lemma {:induction false} IntervalWithin(
    m: Manager, w: Window, steps: seq<Step>, known: seq<InstanceId>, may: seq<InstanceId>)
    requires Tidy(m) && Apart(m, w) && Listed(w.order, w.load) && WorkersOffered(m, steps)
    requires ListedSteps(steps) && Undisturbed(steps) && KnownOffered(known, steps) && Follow(m, w, steps).0.Ok?
    requires Within(m, known, may)
    ensures var r := Follow(m, w, steps).0.m; Tidy(r) && Within(r, known, may)
    decreases |steps|
  {
    if steps != [] {
      ListedTail(steps);
      OfferedTail(m, steps);
      assert forall i | 0 <= i < |steps[1..]| :: steps[1..][i] == steps[i + 1];
      match steps[0]
      case Heard(id, sent, now) => IntervalWithin(NoteHeartBeat(m, id, sent, now), w, steps[1..], known, may);
      case Scheduled(pick, now) =>
        TurnDecides(m, w, pick, now);
        TurnWithin(m, w, pick, now, known, may);
        IntervalWithin(Turn(m, w, pick, now).0.m, w, steps[1..], known, may);
    }
  }

  lemma {:induction false} FilterSplit(
    keys: seq<InstanceId>, states: States, a: set<InstanceState>, b: set<InstanceState>)
    requires a !! b
    ensures |Filter(keys, states, a)| + |Filter(keys, states, b)| <= |keys|
  {
    if keys != [] {
      FilterSplit(keys[1..], states, a, b);
    }
  }

  lemma OnSetWithin(m: Manager, may: seq<InstanceId>)
    requires Tidy(m) && NoDup(may) && forall k :: On(m.workers, k) ==> k in may
    ensures |OnSet(m)| <= |may|
  {
    FilterNoDup(m.workers.keys, m.workers.states, {Pending, Running});
    var on, all := set k | k in OnSet(m), set k | k in may;
    KeyCount(OnSet(m), on);
    KeyCount(may, all);
    SetSize(on, all);
  }

  lemma SetSize(a: set<InstanceId>, b: set<InstanceId>)
    requires a <= b
    ensures |a| <= |b|
  {
    assert b == a + (b - a);
  }

  /** The known workers that are off and can be turned on. */
  function Room(m: Manager): seq<InstanceId> {
    GetAll(m.workers, {Stopped})
  }

  lemma OnOrStopped(m: Manager)
    requires Tidy(m)
    ensures NoDup(OnSet(m) + Room(m)) && Within(m, m.workers.keys, OnSet(m) + Room(m))
    ensures |OnSet(m) + Room(m)| <= |m.workers.keys|
  {
    FilterNoDup(m.workers.keys, m.workers.states, {Pending, Running});
    FilterNoDup(m.workers.keys, m.workers.states, {Stopped});
    NoDupAppend(OnSet(m), Room(m));
    FilterSplit(m.workers.keys, m.workers.states, {Pending, Running}, {Stopped});
  }

  /** As long as the cloud offers only machines that the manager knows as workers, no more than those on
      or stopped at the start are ever on, and so no more than max_workers. */
  lemma IntervalCeiling(m: Manager, w: Window, steps: seq<Step>)
    requires Tidy(m) && Apart(m, w) && Listed(w.order, w.load) && WorkersOffered(m, steps)
    requires ListedSteps(steps) && Undisturbed(steps) && KnownOffered(m.workers.keys, steps)
    ensures Follow(m, w, steps).0.Ok? ==> |OnSet(Follow(m, w, steps).0.m)| <= |OnSet(m)| + |Room(m)|
    ensures |OnSet(m)| + |Room(m)| <= |m.workers.keys|
  {
    OnOrStopped(m);
    if Follow(m, w, steps).0.Ok? {
      IntervalWithin(m, w, steps, m.workers.keys, OnSet(m) + Room(m));
      OnSetWithin(Follow(m, w, steps).0.m, OnSet(m) + Room(m));
    }
  }

  lemma RoomStartable(m: Manager)
    requires WellRun(m)
    ensures AllStartable(m, Room(m)) && forall k | k in Room(m) :: k in m.workers.keys
  {
    FilterNoDup(m.workers.keys, m.workers.states, {Stopped});
  }

  /** Unserved, every known worker that is stopped can be turned on before the next heartbeat. */
  lemma KnownStart(m: Manager, w: Window, from: real) returns (steps: seq<Step>)
    requires WellRun(m) && Listed(w.order, w.load) && Unserved(w)
    ensures Plausible(m, steps, from) && KnownOffered(m.workers.keys, steps)
    ensures var outcome := Follow(m, w, steps).0;
      && outcome.Ok? && |OnSet(outcome.m)| == |OnSet(m)| + |Room(m)|
      && forall k | k in Room(m) || On(m.workers, k) :: On(outcome.m.workers, k)
  {
    RoomStartable(m);
    steps := UnservedStarts(m, w, from, Room(m));
  }

  /** With known machines only, the bound fails exactly in the unlimited branch, when enough known
      workers are stopped: one, or two if nobody is on. */
  lemma KnownBounds(m: Manager, w: Window, from: real)
    requires WellRun(m) && Apart(m, w) && Listed(w.order, w.load)
    ensures (forall steps | Plausible(m, steps, from) && KnownOffered(m.workers.keys, steps) :: Bounded(m, w, steps))
       <==> !Unserved(w) || |Room(m)| == 0 || |OnSet(m)| + |Room(m)| <= 1
  {
    IntervalBounds(m, w, from);
    if Unserved(w) {
      var most := KnownStart(m, w, from);
      if |Room(m)| == 0 || |OnSet(m)| + |Room(m)| <= 1 {
        forall steps | Plausible(m, steps, from) && KnownOffered(m.workers.keys, steps)
          ensures Bounded(m, w, steps)
        {
          IntervalCeiling(m, w, steps);
        }
      } else {
        assert !Bounded(m, w, most);
      }
    }
  }
}
