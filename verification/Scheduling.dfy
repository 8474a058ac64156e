/** What the scheduler can do between two heartbeats of the node manager, and what stops it. */
module Scheduling {
  import opened Queues
  import opened PoolModel
  import opened LoadWindow
  import opened InstanceModel
  import opened Liveness

  /** The scheduler's surroundings and its turns: a machine is heard of, the node manager's heartbeat
      renews the window, the states are updated from the cloud, or the scheduler takes a turn. */
  datatype Step =
    | Heard(id: InstanceId, sent: real, now: real)
    | Summarised(id: InstanceId, sent: real, h: Summary, now: real)
    | Updated(report: seq<Description>, now: real)
    | Scheduled(pick: Option<InstanceId>, now: real)

  ghost predicate ListedSteps(steps: seq<Step>) {
    forall i | 0 <= i < |steps| && steps[i].Summarised? :: Listed(steps[i].h.order, steps[i].h.load)
  }

  /** The steps lie between two heartbeats of the node manager. */
  ghost predicate Between(steps: seq<Step>) {
    forall i | 0 <= i < |steps| :: !steps[i].Summarised?
  }

  /** Nor does an update from the cloud fall among them. */
  ghost predicate Undisturbed(steps: seq<Step>) {
    forall i | 0 <= i < |steps| :: !steps[i].Summarised? && !steps[i].Updated?
  }

  /** The clock runs from a given time on, and heartbeats are not sent in the future. */
  ghost predicate Timed(steps: seq<Step>, from: real) {
    && (forall i | 0 <= i < |steps| :: from <= steps[i].now)
    && (forall i | 0 <= i < |steps| && (steps[i].Heard? || steps[i].Summarised?) :: steps[i].sent <= steps[i].now)
    && (forall i, j | 0 <= i < j < |steps| :: steps[i].now <= steps[j].now)
  }

  /** The state at the end, or where a KeyError ended the scheduler, and the actions taken. */
  ghost function Follow(m: Manager, w: Window, steps: seq<Step>): (Outcome, seq<Action>)
    requires Listed(w.order, w.load) && ListedSteps(steps)
    decreases |steps|
  {
    if steps == [] then (Ok(m), [])
    else
      ListedTail(steps);
      match steps[0]
      case Heard(id, sent, now) => Follow(NoteHeartBeat(m, id, sent, now), w, steps[1..])
      case Summarised(id, sent, h, now) => Follow(NoteHeartBeat(m, id, sent, now), Update(w, h), steps[1..])
      case Updated(report, _) => Follow(UpdateInstances(m, true, report), w, steps[1..])
      case Scheduled(pick, now) =>
        var (outcome, action) := Turn(m, w, pick, now);
        if outcome.KeyError? then (outcome, [])
        else
          var (end, actions) := Follow(outcome.m, w, steps[1..]);
          (end, [action] + actions)
  }

  lemma ListedTail(steps: seq<Step>)
    requires steps != []
    ensures ListedSteps(steps) ==> ListedSteps(steps[1..])
    ensures Between(steps) ==> Between(steps[1..]) && ListedSteps(steps)
    ensures Undisturbed(steps) ==> Undisturbed(steps[1..]) && Between(steps)
  {
    assert forall i | 0 <= i < |steps[1..]| :: steps[1..][i] == steps[i + 1];
  }

  /** The window alone settles whether the scheduler may create, and whether it may kill. */
  ghost predicate Creating(w: Window) {
    w.samples != [] && ((w.samples[|w.samples| - 1] > 0.0 && w.order == []) || ExactMean(w.samples) > 5.005)
  }

  ghost predicate Killing(w: Window) {
    w.samples != [] && !(w.samples[|w.samples| - 1] > 0.0 && w.order == []) && ExactMean(w.samples) < 0.995
  }

  ghost predicate Allowed(w: Window, a: Action) {
    match a
    case Create => Creating(w)
    case Kill(v) =>
      Killing(w) && (w.order != [] ==> (forall k | k in w.order :: k in w.load) && v == LeastLoaded(w.order, w.load))
    case Nothing => true
  }

  lemma DecisionAllowed(w: Window, current: seq<WorkerId>, maxWorkers: nat)
    requires Listed(w.order, w.load)
    ensures Allowed(w, GetAction(w, current, maxWorkers))
  {
    if w.samples != [] {
      RoundedTests(ExactMean(w.samples));
    }
  }

  lemma {:induction false} ActionsAllowed(m: Manager, w: Window, steps: seq<Step>)
    requires Listed(w.order, w.load) && ListedSteps(steps) && Between(steps)
    ensures forall i | 0 <= i < |Follow(m, w, steps).1| :: Allowed(w, Follow(m, w, steps).1[i])
    decreases |steps|
  {
    if steps != [] {
      ListedTail(steps);
      match steps[0]
      case Heard(id, sent, now) => ActionsAllowed(NoteHeartBeat(m, id, sent, now), w, steps[1..]);
      case Updated(report, _) => ActionsAllowed(UpdateInstances(m, true, report), w, steps[1..]);
      case Scheduled(pick, now) =>
        var (outcome, action) := Turn(m, w, pick, now);
        if outcome.Ok? {
          var checked := CheckAllLiving(m, now).m;
          DecisionAllowed(w, OnSet(checked), |checked.workers.keys|);
          ActionsAllowed(outcome.m, w, steps[1..]);
        }
    }
  }

  /** Between two node manager heartbeats, whatever the cloud reports in the meantime, the scheduler
      never both creates and kills, and while some worker is reported to have work, all
      its kills name the one with the least. */
  lemma NoThrashing(m: Manager, w: Window, steps: seq<Step>)
    requires Listed(w.order, w.load) && ListedSteps(steps) && Between(steps)
    ensures var actions := Follow(m, w, steps).1;
      && (forall i, j | 0 <= i < |actions| && 0 <= j < |actions| :: !(actions[i].Create? && actions[j].Kill?))
      && (w.order != [] ==>
            forall i | 0 <= i < |actions| && actions[i].Kill? :: actions[i].w == LeastLoaded(w.order, w.load))
  {
    ActionsAllowed(m, w, steps);
  }

  /** Changing one state changes how many are wanted by at most one, up or down as it becomes wanted. */
  lemma {:induction false} FilterOne(
    keys: seq<InstanceId>, states: States, wanted: set<InstanceState>, id: InstanceId, state: InstanceState)
    requires NoDup(keys)
    ensures |Filter(keys, states[id := state], wanted)|
         <= |Filter(keys, states, wanted)| + (if state in wanted then 1 else 0)
  {
    if keys != [] {
      NoDupTail(keys);
      if keys[0] == id {
        SameFilter(keys[1..], states, states[id := state], wanted);
      } else {
        FilterOne(keys[1..], states, wanted, id, state);
      }
    }
  }

  lemma {:induction false} FilterLast(keys: seq<InstanceId>, states: States, wanted: set<InstanceState>, id: InstanceId)
    ensures |Filter(keys + [id], states, wanted)|
         <= |Filter(keys, states, wanted)| + (if id in states && states[id] in wanted then 1 else 0)
  {
    if keys == [] {
      assert keys + [id] == [id] && Filter([id][1..], states, wanted) == [];
    } else {
      assert (keys + [id])[1..] == keys[1..] + [id];
      FilterLast(keys[1..], states, wanted, id);
    }
  }

  lemma SetStateSize(m: Manager, id: InstanceId, state: InstanceState)
    requires Tidy(m)
    ensures |OnSet(SetState(m, id, WorkerNode, state))| <= |OnSet(m)| + (if state in {Pending, Running} then 1 else 0)
  {
    var n := m.workers;
    var states := n.states[id := state];
    if id in n.states {
      FilterOne(n.keys, n.states, {Pending, Running}, id, state);
    } else {
      SameFilter(n.keys, n.states, states, {Pending, Running});
      FilterLast(n.keys, states, {Pending, Running}, id);
    }
  }

  lemma SetStateOn(m: Manager, id: InstanceId, state: InstanceState)
    ensures var r := SetState(m, id, WorkerNode, state);
      && r.nodeManagers == m.nodeManagers
      && (forall k | k != id :: On(r.workers, k) <==> On(m.workers, k))
      && (On(r.workers, id) <==> state in {Pending, Running})
  {
  }

  lemma SetStateOnSet(m: Manager, id: InstanceId, state: InstanceState)
    requires Tidy(m)
    ensures var r := SetState(m, id, WorkerNode, state);
      && Tidy(r) && r.nodeManagers == m.nodeManagers
      && |OnSet(r)| <= |OnSet(m)| + (if state in {Pending, Running} then 1 else 0)
      && (forall k | k != id :: On(r.workers, k) <==> On(m.workers, k))
      && (On(r.workers, id) <==> state in {Pending, Running})
  {
    SetStateSize(m, id, state);
    SetStateTidy(m, id, WorkerNode, state);
    SetStateOn(m, id, state);
  }

  /** What an action does to the workers that are on. */
  lemma ApplyOnSet(m: Manager, action: Action, pick: Option<InstanceId>, now: real)
    requires Tidy(m)
    ensures var r := Apply(m, action, pick, now);
      && Tidy(r) && r.nodeManagers == m.nodeManagers
      && (forall k | k in r.workers.keys ::
            k in m.workers.keys || (action.Kill? && action.w == k) || (action.Create? && pick == Some(k)))
      && |OnSet(r)| <= |OnSet(m)| + (if action.Create? then 1 else 0)
      && (forall k :: On(m.workers, k) && !(action.Kill? && action.w == k) ==> On(r.workers, k))
      && (forall k :: On(r.workers, k) ==> On(m.workers, k) || (action.Create? && pick == Some(k)))
  {
    match action
    case Create =>
      if pick.Some? {
        SetStateOnSet(m, pick.value, Pending);
      }
    case Kill(v) => SetStateOnSet(m, v, Stopping);
    case Nothing =>
  }

  /** No machine is listed under both types, nor reported as a worker when it is a node manager. */
  ghost predicate Apart(m: Manager, w: Window) {
    Disjoint(m) && forall k | k in w.order :: k !in m.nodeManagers.keys
  }

  lemma TurnIs(m: Manager, w: Window, pick: Option<InstanceId>, now: real)
    requires Tidy(m) && Disjoint(m) && Listed(w.order, w.load) && Turn(m, w, pick, now).0.Ok?
    ensures CheckAllLiving(m, now).Ok?
    ensures Turn(m, w, pick, now) == (Ok(Apply(CheckAllLiving(m, now).m, Decide(m, w), pick, now)), Decide(m, w))
  {
    CheckAllEffect(m, now);
    SameOnSet(m, CheckAllLiving(m, now).m);
  }

  lemma DecisionApart(w: Window, current: seq<WorkerId>, maxWorkers: nat)
    requires Listed(w.order, w.load)
    ensures var action := GetAction(w, current, maxWorkers); action.Kill? ==> action.w in w.order || action.w in current
  {
  }

  /** A turn that does not fail decides from the workers that were on when it began. */
  lemma TurnDecides(m: Manager, w: Window, pick: Option<InstanceId>, now: real)
    requires Tidy(m) && Apart(m, w) && Listed(w.order, w.load) && Turn(m, w, pick, now).0.Ok?
    requires pick.Some? ==> pick.value !in m.nodeManagers.keys
    ensures var (outcome, action) := Turn(m, w, pick, now);
      && action == Decide(m, w) && Tidy(outcome.m)
      && outcome.m.nodeManagers.keys == m.nodeManagers.keys && Apart(outcome.m, w)
      && |OnSet(outcome.m)| <= |OnSet(m)| + (if action.Create? then 1 else 0)
      && (forall k :: On(m.workers, k) && !(action.Kill? && action.w == k) ==> On(outcome.m.workers, k))
      && (forall k :: On(outcome.m.workers, k) ==> On(m.workers, k) || (action.Create? && pick == Some(k)))
  {
    TurnIs(m, w, pick, now);
    CheckAllEffect(m, now);
    var checked := CheckAllLiving(m, now).m;
    SameOnSet(m, checked);
    DecisionApart(w, OnSet(m), |m.workers.keys|);
    ApplyOnSet(checked, Decide(m, w), pick, now);
  }

  /** The cloud offers worker machines only. */
  ghost predicate WorkersOffered(m: Manager, steps: seq<Step>) {
    forall i | 0 <= i < |steps| && steps[i].Scheduled? && steps[i].pick.Some? ::
      steps[i].pick.value !in m.nodeManagers.keys
  }

  lemma OfferedTail(m: Manager, steps: seq<Step>)
    requires WorkersOffered(m, steps) && steps != []
    ensures WorkersOffered(m, steps[1..])
    ensures steps[0].Scheduled? && steps[0].pick.Some? ==> steps[0].pick.value !in m.nodeManagers.keys
  {
    assert forall i | 0 <= i < |steps[1..]| :: steps[1..][i] == steps[i + 1];
  }

  /** The branch that creates without a look at the workers that are on: the last heartbeat reported a
      positive total and nobody busy. An idle member counts as a running task, so an idle farm is in
      this branch, too. */
  ghost predicate Unserved(w: Window) {
    w.samples != [] && w.samples[|w.samples| - 1] > 0.0 && w.order == []
  }

  /** In that branch every turn that does not fail creates, even at the limit of max_workers; in every
      other case it creates only if some worker that it knows is off. */
  lemma CreatesUnlimited(m: Manager, w: Window, pick: Option<InstanceId>, now: real)
    requires Tidy(m) && Disjoint(m) && Listed(w.order, w.load) && Turn(m, w, pick, now).0.Ok?
    ensures var action := Turn(m, w, pick, now).1;
      && (Unserved(w) ==> action.Create?)
      && (!Unserved(w) && action.Create? ==> exists k | k in m.workers.keys :: !On(m.workers, k))
  {
    CheckAllEffect(m, now);
    var checked := CheckAllLiving(m, now).m;
    SameOnSet(m, checked);
    ActionMeaning(w, OnSet(m), |m.workers.keys|);
    if !(exists k | k in m.workers.keys :: !On(m.workers, k)) {
      AllWanted(m.workers.keys, m.workers.states, {Pending, Running});
    }
  }

  lemma {:induction false} AllWanted(keys: seq<InstanceId>, states: States, wanted: set<InstanceState>)
    requires forall k | k in keys :: k in states && states[k] in wanted
    ensures Filter(keys, states, wanted) == keys
  {
    if keys != [] {
      AllWanted(keys[1..], states, wanted);
    }
  }

  lemma {:induction false} IntervalKeeps(m: Manager, w: Window, steps: seq<Step>, bound: nat)
    requires Tidy(m) && Apart(m, w) && Listed(w.order, w.load) && WorkersOffered(m, steps)
    requires ListedSteps(steps) && Undisturbed(steps) && Follow(m, w, steps).0.Ok?
    requires !Unserved(w) && |OnSet(m)| <= bound && |w.order| + 1 <= bound
    ensures |OnSet(Follow(m, w, steps).0.m)| <= bound
    decreases |steps|
  {
    if steps != [] {
      ListedTail(steps);
      OfferedTail(m, steps);
      match steps[0]
      case Heard(id, sent, now) => IntervalKeeps(NoteHeartBeat(m, id, sent, now), w, steps[1..], bound);
      case Scheduled(pick, now) =>
        TurnDecides(m, w, pick, now);
        IntervalKeeps(Turn(m, w, pick, now).0.m, w, steps[1..], bound);
    }
  }

  /** Between two node manager heartbeats, while some workers are reported busy, nobody but the least
      loaded of them is turned off. */
  lemma {:induction false} IntervalSpares(m: Manager, w: Window, steps: seq<Step>, k: InstanceId)
    requires Tidy(m) && Apart(m, w) && Listed(w.order, w.load) && WorkersOffered(m, steps)
    requires ListedSteps(steps) && Undisturbed(steps)
    requires w.order != [] && On(m.workers, k) && k != LeastLoaded(w.order, w.load)
    ensures Follow(m, w, steps).0.Ok? ==> On(Follow(m, w, steps).0.m.workers, k)
    decreases |steps|
  {
    if steps != [] {
      ListedTail(steps);
      OfferedTail(m, steps);
      match steps[0]
      case Heard(id, sent, now) => IntervalSpares(NoteHeartBeat(m, id, sent, now), w, steps[1..], k);
      case Scheduled(pick, now) =>
        if Turn(m, w, pick, now).0.Ok? {
          TurnDecides(m, w, pick, now);
          DecisionAllowed(w, OnSet(m), |m.workers.keys|);
          IntervalSpares(Turn(m, w, pick, now).0.m, w, steps[1..], k);
        }
    }
  }

  /** Nobody hears of the worker, and the cloud does not report it off. */
  ghost predicate StaysSilent(steps: seq<Step>, id: InstanceId, since: real) {
    forall i | 0 <= i < |steps| ::
      && steps[i].now >= since
      && (steps[i].Heard? || steps[i].Summarised? ==> steps[i].id != id)
      && (steps[i].Updated? ==> LeavesOn(steps[i].report, id))
  }

  /** A worker that lapsed stays so until it is heard of or reported off, and the next turn then fails. */
  lemma {:induction false} LapsedStops(m: Manager, w: Window, steps: seq<Step>, id: InstanceId, since: real)
    requires Tidy(m) && Listed(w.order, w.load) && ListedSteps(steps)
    requires Lapsed(m, id, WorkerNode, since) && StaysSilent(steps, id, since)
    requires exists i :: 0 <= i < |steps| && steps[i].Scheduled?
    ensures Follow(m, w, steps).0.KeyError? && Follow(m, w, steps).1 == []
    decreases |steps|
  {
    ListedTail(steps);
    assert forall i | 0 <= i < |steps[1..]| :: steps[1..][i] == steps[i + 1];
    if steps[0].Scheduled? {
      assert Lapsed(m, id, WorkerNode, steps[0].now);
      LapsedFails(m, id, steps[0].now);
    } else {
      var i :| 0 <= i < |steps| && steps[i].Scheduled?;
      assert steps[1..][i - 1].Scheduled?;
      match steps[0]
      case Heard(other, sent, now) => LapsedStops(NoteHeartBeat(m, other, sent, now), w, steps[1..], id, since);
      case Summarised(other, sent, h, now) =>
        LapsedStops(NoteHeartBeat(m, other, sent, now), Update(w, h), steps[1..], id, since);
      case Updated(report, _) =>
        DescribedLapsed(m, report, id, since);
        LapsedStops(UpdateInstances(m, true, report), w, steps[1..], id, since);
    }
  }

  /** A worker goes silent: the turn that notices leaves it on, with no charge open, unless it kills it. */
  lemma SilentLapses(m: Manager, w: Window, pick: Option<InstanceId>, now: real, id: InstanceId)
    requires Tidy(m) && Apart(m, w) && Listed(w.order, w.load) && Overdue(m, id, now)
    requires Turn(m, w, pick, now).0.Ok? && Turn(m, w, pick, now).1 != Kill(id)
    ensures Lapsed(Turn(m, w, pick, now).0.m, id, WorkerNode, now)
  {
    CheckAllEffect(m, now);
    var checked := CheckAllLiving(m, now).m;
    ApplyOnSet(checked, Decide(checked, w), pick, now);
  }

  /** The scheduler does not outlive a silent worker: if a turn neither fails nor kills it, then, unless
      it is heard of again or the cloud reports it off, the next turn raises KeyError and ends the loop,
      whatever else is heard of and whatever the node manager reports in the meantime. */
  lemma SilentWorkerEndsScheduler(
    m: Manager, w: Window, pick: Option<InstanceId>, now: real, id: InstanceId, steps: seq<Step>)
    requires Tidy(m) && Apart(m, w) && Listed(w.order, w.load) && ListedSteps(steps)
    requires pick.Some? ==> pick.value !in m.nodeManagers.keys
    requires Overdue(m, id, now) && Turn(m, w, pick, now).0.Ok? && Turn(m, w, pick, now).1 != Kill(id)
    requires StaysSilent(steps, id, now) && exists i :: 0 <= i < |steps| && steps[i].Scheduled?
    ensures var end := Follow(Turn(m, w, pick, now).0.m, w, steps); end.0.KeyError? && end.1 == []
  {
    TurnDecides(m, w, pick, now);
    SilentLapses(m, w, pick, now, id);
    LapsedStops(Turn(m, w, pick, now).0.m, w, steps, id, now);
  }
}
