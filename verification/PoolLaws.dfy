/** What each pool handler does to the tasks the pool holds, counted with multiplicity. */
module PoolLaws {
  import opened Queues
  import opened PoolModel

  /** Tasks in assignment queues, tasks there behind a queue's head, tasks in processing queues. */
  ghost function Held(p: Pool): multiset<TaskId>
    requires WellKeyed(p)
  {
    Collect(Whole, p.keys, p.assignment)
  }

  ghost function HeldBehind(p: Pool): multiset<TaskId>
    requires WellKeyed(p)
  {
    Collect(Behind, p.keys, p.assignment)
  }

  ghost function InHand(p: Pool): multiset<TaskId>
    requires WellKeyed(p)
  {
    Collect(Whole, p.keys, p.processing)
  }

  /** Only the two dictionaries' values may differ. */
  ghost predicate SameFrame(p: Pool, r: Pool) {
    r == p.(assignment := r.assignment, processing := r.processing)
  }

  /** A theft that succeeds: a longest queue of at least two, never the thief's own, loses its last
      task to the thief. A theft that fails: nobody has two. */
  lemma StealShape(p: Pool, thief: WorkerId) returns (victim: WorkerId)
    requires WellKeyed(p) && thief in p.keys && p.assignment[thief] == []
    ensures victim in p.keys && forall w | w in p.keys :: |p.assignment[w]| <= |p.assignment[victim]|
    ensures var (r, task) := Steal(p, thief);
      match task
      case None => r == p && |p.assignment[victim]| <= 1
      case Some(t) =>
        && WellKeyed(r) && victim != thief && |p.assignment[victim]| >= 2
        && (var rest := p.assignment[victim][..|p.assignment[victim]| - 1];
            && p.assignment[victim] == rest + [t]
            && r == p.(assignment := p.assignment[victim := rest][thief := [t]]))
  {
    victim := Longest(p.keys, p.assignment);
    var loot := p.assignment[victim];
    if |loot| >= 2 {
      assert [] + [loot[|loot| - 1]] == [loot[|loot| - 1]];
    }
  }

  /** As a multiset nothing changes hands, but one task stops being behind a queue's head. */
  lemma StealCounts(p: Pool, thief: WorkerId)
    requires WellKeyed(p) && thief in p.keys && p.assignment[thief] == []
    ensures var (r, task) := Steal(p, thief);
      task.Some? ==> Held(r) == Held(p) && HeldBehind(r) + multiset{task.value} == HeldBehind(p)
  {
    var victim := StealShape(p, thief);
    var (r, task) := Steal(p, thief);
    if task.Some? {
      var loot := p.assignment[victim];
      assert loot == loot[..|loot| - 1] + [task.value];
      CollectMove(Whole, p.keys, p.assignment, victim, thief, loot[..|loot| - 1], task.value);
      CollectMove(Behind, p.keys, p.assignment, victim, thief, loot[..|loot| - 1], task.value);
    }
  }

  lemma NextTaskShape(p: Pool, w: WorkerId)
    requires WellKeyed(p) && w in p.keys
    ensures var (r, task) := NextTask(p, w);
      match task
      case None => r == p && p.assignment[w] == []
      case Some(t) => SameFrame(p, r) && WellKeyed(r) && r.processing == p.processing[w := p.processing[w] + [t]]
  {
    if p.assignment[w] == [] {
      var _ := StealShape(p, w);
    }
  }

  /** What is found is appended to the worker's processing queue; its own next task leaves the
      assignment queue, a stolen one stays in it. */
  lemma NextTaskCounts(p: Pool, w: WorkerId)
    requires WellKeyed(p) && w in p.keys
    ensures var (r, task) := NextTask(p, w);
      task.Some? ==>
        && WellKeyed(r) && InHand(r) == InHand(p) + multiset{task.value}
        && (if p.assignment[w] != [] then Held(r) + multiset{task.value} == Held(p) && HeldBehind(r) <= HeldBehind(p)
            else Held(r) == Held(p) && HeldBehind(r) + multiset{task.value} == HeldBehind(p))
  {
    var (r, task) := NextTask(p, w);
    NextTaskShape(p, w);
    if task.Some? {
      CollectGain(Whole, p.keys, p.processing, w, p.processing[w] + [task.value], multiset{task.value});
      if p.assignment[w] != [] {
        PopHeadCounts(p, w);
      } else {
        StealCounts(p, w);
      }
    }
  }

  lemma PopHeadCounts(p: Pool, w: WorkerId)
    requires WellKeyed(p) && w in p.keys && p.assignment[w] != []
    ensures var r := p.(assignment := p.assignment[w := p.assignment[w][1..]]);
      WellKeyed(r) && Held(r) + multiset{p.assignment[w][0]} == Held(p) && HeldBehind(r) <= HeldBehind(p)
  {
    CollectPop(Whole, p.keys, p.assignment, w);
    CollectPop(Behind, p.keys, p.assignment, w);
  }

  /** A worker that asks is refused exactly when its own queue is empty and no queue holds two tasks:
      a lone task waits for its own worker. */
  lemma RefusedExactlyWhen(p: Pool, w: WorkerId)
    requires WellKeyed(p) && w in p.keys
    ensures NextTask(p, w).1.None? <==> p.assignment[w] == [] && forall v | v in p.keys :: |p.assignment[v]| <= 1
  {
    if p.assignment[w] == [] {
      var victim := StealShape(p, w);
    }
  }

  /** A worker's work in order: what it has been handed, then what waits for it. */
  function Line(p: Pool, w: WorkerId): seq<TaskId>
    requires WellKeyed(p) && w in p.keys
  {
    p.processing[w] + p.assignment[w]
  }

  /** Work is started in the order it was assigned: handing out its own task leaves a worker's line as
      it is; a theft shortens the victim's line by its end and adds the task to the thief's twice. No
      other line changes. */
  lemma WorkStartsInOrder(p: Pool, w: WorkerId)
    requires WellKeyed(p) && w in p.keys
    ensures var (r, task) := NextTask(p, w);
      && WellKeyed(r) && r.keys == p.keys
      && (p.assignment[w] != [] ==> forall v | v in p.keys :: Line(r, v) == Line(p, v))
      && (p.assignment[w] == [] && task.Some? ==>
            && Line(r, w) == Line(p, w) + [task.value, task.value]
            && exists victim | victim in p.keys && victim != w ::
                 && Line(p, victim) == Line(r, victim) + [task.value]
                 && forall v | v in p.keys && v != w && v != victim :: Line(r, v) == Line(p, v))
  {
    var (r, task) := NextTask(p, w);
    NextTaskShape(p, w);
    if p.assignment[w] != [] {
      OwnTaskKeepsLine(p, w);
    } else {
      var victim := StealShape(p, w);
      if task.Some? {
        var loot := p.assignment[victim];
        assert loot == loot[..|loot| - 1] + [task.value];
        StolenTaskLines(p, r, w, victim, loot[..|loot| - 1], task.value);
      }
    }
  }

  lemma OwnTaskKeepsLine(p: Pool, w: WorkerId)
    requires WellKeyed(p) && w in p.keys && p.assignment[w] != []
    ensures var r := NextTask(p, w).0;
      WellKeyed(r) && r.keys == p.keys && forall v | v in p.keys :: Line(r, v) == Line(p, v)
  {
    assert p.assignment[w] == [p.assignment[w][0]] + p.assignment[w][1..];
  }

  lemma StolenTaskLines(p: Pool, r: Pool, w: WorkerId, victim: WorkerId, rest: seq<TaskId>, t: TaskId)
    requires WellKeyed(p) && WellKeyed(r) && r.keys == p.keys && w in p.keys && victim in p.keys && victim != w
    requires p.assignment[w] == [] && p.assignment[victim] == rest + [t]
    requires r.assignment == p.assignment[victim := rest][w := [t]]
    requires r.processing == p.processing[w := p.processing[w] + [t]]
    ensures Line(r, w) == Line(p, w) + [t, t] && Line(p, victim) == Line(r, victim) + [t]
    ensures forall v | v in p.keys && v != w && v != victim :: Line(r, v) == Line(p, v)
  {
  }

  lemma DispatchOneCounts(p: Pool, now: real)
    requires WellKeyed(p) && p.keys != [] && p.tasks != []
    ensures var r := DispatchOne(p, now); var t := p.tasks[0];
      && Held(r) == Held(p) + multiset{t}
      && HeldBehind(r) <= HeldBehind(p) + multiset{t}
      && multiset(p.tasks) == multiset(r.tasks) + multiset{t}
  {
    var w := Shortest(p.keys, p.assignment);
    assert p.tasks == [p.tasks[0]] + p.tasks[1..];
    CollectPut(Whole, p.keys, p.assignment, w, p.tasks[0]);
    CollectPut(Behind, p.keys, p.assignment, w, p.tasks[0]);
  }

  /** The dispatch loop ends with the pool empty unless there is no member. */
  lemma {:induction false} DispatchShape(p: Pool, now: real)
    requires Valid(p)
    ensures var r := Dispatch(p, now);
      && r == p.(tasks := r.tasks, assignment := r.assignment, assignTime := r.assignTime, allAssigned := r.allAssigned)
      && r.allAssigned - p.allAssigned == |p.tasks| - |r.tasks|
      && (if p.keys == [] then r == p else r.tasks == [])
    decreases |p.tasks|
  {
    if p.tasks == [] || p.running + p.pending == [] {
      if p.keys != [] {
        assert p.keys[0] in p.running + p.pending;
      }
    } else {
      assert (p.running + p.pending)[0] in p.keys;
      DispatchShape(DispatchOne(p, now), now);
    }
  }

  /** It only moves tasks from the pool to assignment queues. */
  lemma {:induction false} DispatchCounts(p: Pool, now: real)
    requires Valid(p)
    ensures var r := Dispatch(p, now);
      && Held(r) + multiset(r.tasks) == Held(p) + multiset(p.tasks)
      && HeldBehind(r) + multiset(r.tasks) <= HeldBehind(p) + multiset(p.tasks)
    decreases |p.tasks|
  {
    if !(p.tasks == [] || p.running + p.pending == []) {
      assert (p.running + p.pending)[0] in p.keys;
      var one := DispatchOne(p, now);
      DispatchOneCounts(p, now);
      DispatchCounts(one, now);
    }
  }

  lemma {:induction false} DispatchKeepsStamp(p: Pool, now: real, t: TaskId)
    requires Valid(p) && t !in p.tasks
    ensures var r := Dispatch(p, now);
      && (t in r.assignTime <==> t in p.assignTime)
      && (t in p.assignTime ==> r.assignTime[t] == p.assignTime[t])
    decreases |p.tasks|
  {
    if !(p.tasks == [] || p.running + p.pending == []) {
      assert (p.running + p.pending)[0] in p.keys && p.tasks[0] in p.tasks;
      DispatchKeepsStamp(DispatchOne(p, now), now, t);
    }
  }

  lemma {:induction false} DispatchSetsStamp(p: Pool, now: real, t: TaskId)
    requires Valid(p) && t in p.tasks && p.running + p.pending != []
    ensures var r := Dispatch(p, now); t in r.assignTime && r.assignTime[t] == now
    decreases |p.tasks|
  {
    assert (p.running + p.pending)[0] in p.keys;
    var one := DispatchOne(p, now);
    if t in one.tasks {
      DispatchSetsStamp(one, now, t);
    } else {
      assert t == p.tasks[0];
      DispatchKeepsStamp(one, now, t);
    }
  }

  /** Every dispatched task is stamped with the present time, whatever stamp it had; every other task
      keeps the stamp it had, or has none. */
  lemma DispatchStamps(p: Pool, now: real, t: TaskId)
    requires Valid(p)
    ensures var r := Dispatch(p, now);
      if t in p.tasks && t !in r.tasks then t in r.assignTime && r.assignTime[t] == now
      else (t in r.assignTime <==> t in p.assignTime) && (t in p.assignTime ==> r.assignTime[t] == p.assignTime[t])
  {
    if t !in p.tasks {
      DispatchKeepsStamp(p, now, t);
    } else if p.running + p.pending != [] {
      DispatchSetsStamp(p, now, t);
      DispatchShape(p, now);
      assert (p.running + p.pending)[0] in p.keys;
    }
  }

  lemma RequeueOneCounts(p: Pool, w: WorkerId)
    requires WellKeyed(p) && w in p.keys
    ensures var r := RequeueOne(p, w);
      && Held(p) == Held(r) + multiset(p.assignment[w])
      && HeldBehind(r) <= HeldBehind(p)
      && InHand(p) == InHand(r) + multiset(p.processing[w])
      && multiset(r.tasks) == multiset(p.processing[w]) + (multiset(p.tasks) + multiset(p.assignment[w]))
  {
    CollectDelete(Whole, p.keys, p.assignment, w);
    CollectDelete(Behind, p.keys, p.assignment, w);
    CollectDelete(Whole, p.keys, p.processing, w);
  }

  lemma {:induction false} RequeueAllShape(p: Pool, stopped: seq<WorkerId>)
    requires WellKeyed(p) && NoDup(stopped) && forall w | w in stopped :: w in p.keys
    ensures var r := RequeueAll(p, stopped);
      && r.assignTime == p.assignTime
      && (forall w | w in r.keys :: r.processing[w] == p.processing[w] && r.assignment[w] == p.assignment[w])
    decreases |stopped|
  {
    if stopped != [] {
      NoDupTail(stopped);
      RequeueAllShape(RequeueOne(p, stopped[0]), stopped[1..]);
    }
  }

  /** Requeueing moves exactly the departed workers' queues back into the pool; the counter falls
      by the assignment queues alone. */
  lemma {:induction false} RequeueAllCounts(p: Pool, stopped: seq<WorkerId>)
    requires WellKeyed(p) && NoDup(stopped) && forall w | w in stopped :: w in p.keys
    ensures var r := RequeueAll(p, stopped);
      var returned := Collect(Whole, stopped, p.assignment);
      var requeued := Collect(Whole, stopped, p.processing);
      && Held(p) == Held(r) + returned
      && HeldBehind(r) <= HeldBehind(p)
      && InHand(p) == InHand(r) + requeued
      && multiset(r.tasks) == requeued + (multiset(p.tasks) + returned)
      && r.allAssigned == p.allAssigned - |returned|
    decreases |stopped|
  {
    if stopped != [] {
      var w, rest := stopped[0], stopped[1..];
      NoDupTail(stopped);
      var one := RequeueOne(p, w);
      RequeueOneCounts(p, w);
      RequeueAllCounts(one, rest);
      CollectSame(Whole, rest, one.assignment, p.assignment);
      CollectSame(Whole, rest, one.processing, p.processing);
      var r := RequeueAll(p, stopped);
      Chain(Held(p), Held(one), Held(r), multiset(p.assignment[w]), Collect(Whole, rest, p.assignment));
      Chain(InHand(p), InHand(one), InHand(r), multiset(p.processing[w]), Collect(Whole, rest, p.processing));
      Nest(Collect(Whole, rest, p.processing), multiset(p.processing[w]), multiset(p.tasks),
           multiset(p.assignment[w]), Collect(Whole, rest, p.assignment));
    }
  }

  lemma Chain(
    a: multiset<TaskId>, b: multiset<TaskId>, c: multiset<TaskId>, first: multiset<TaskId>, second: multiset<TaskId>)
    requires a == b + first && b == c + second
    ensures a == c + (first + second)
  {
  }

  lemma Nest(a: multiset<TaskId>, b: multiset<TaskId>, c: multiset<TaskId>, d: multiset<TaskId>, e: multiset<TaskId>)
    ensures a + ((b + (c + d)) + e) == (b + a) + (c + (d + e))
  {
  }

  lemma {:induction false} AdmitAllShape(p: Pool, joined: seq<WorkerId>)
    requires WellKeyed(p)
    ensures var r := AdmitAll(p, joined);
      && r == p.(keys := r.keys, assignment := r.assignment, processing := r.processing)
      && (forall w | w in p.keys && w !in joined ::
            r.processing[w] == p.processing[w] && r.assignment[w] == p.assignment[w])
      && (forall w | w in joined :: r.processing[w] == [] && r.assignment[w] == [])
    decreases |joined|
  {
    if joined != [] {
      AdmitAllShape(Admit(p, joined[0]), joined[1..]);
    }
  }

  lemma AdmitCounts(p: Pool, w: WorkerId)
    requires WellKeyed(p) && w !in p.keys
    ensures var r := Admit(p, w);
      Held(r) == Held(p) && HeldBehind(r) == HeldBehind(p) && InHand(r) == InHand(p)
  {
    CollectAdmit(Whole, p.keys, p.assignment, w);
    CollectAdmit(Behind, p.keys, p.assignment, w);
    CollectAdmit(Whole, p.keys, p.processing, w);
  }

  lemma {:induction false} AdmitAllCounts(p: Pool, joined: seq<WorkerId>)
    requires WellKeyed(p) && NoDup(joined) && forall w | w in joined :: w !in p.keys
    ensures var r := AdmitAll(p, joined);
      Held(r) == Held(p) && HeldBehind(r) == HeldBehind(p) && InHand(r) == InHand(p)
    decreases |joined|
  {
    if joined != [] {
      NoDupTail(joined);
      AdmitCounts(p, joined[0]);
      AdmitAllCounts(Admit(p, joined[0]), joined[1..]);
    }
  }

  /** A membership change keeps every queue of a worker that stays, starts every new one empty. */
  lemma MembershipShape(p: Pool, running: seq<WorkerId>, pending: seq<WorkerId>)
    requires Valid(p) && NoDup(running + pending)
    ensures var r := OnMembership(p, running, pending);
      && r.assignTime == p.assignTime
      && (forall w | w in r.keys && w in p.keys ::
            r.processing[w] == p.processing[w] && r.assignment[w] == p.assignment[w])
      && (forall w | w in r.keys && w !in p.keys :: r.processing[w] == [] && r.assignment[w] == [])
  {
    var renamed := p.(running := running, pending := pending);
    NoDupKeepOut(p.running + p.pending, running + pending);
    var middle := RequeueAll(renamed, Stopped(p, running, pending));
    RequeueAllShape(renamed, Stopped(p, running, pending));
    AdmitAllShape(middle, Joined(p, running, pending));
  }

  lemma MembershipCounts(p: Pool, running: seq<WorkerId>, pending: seq<WorkerId>)
    requires Valid(p) && NoDup(running + pending)
    ensures var r := OnMembership(p, running, pending);
      var gone := Stopped(p, running, pending);
      var returned := Collect(Whole, gone, p.assignment);
      var requeued := Collect(Whole, gone, p.processing);
      && Held(p) == Held(r) + returned
      && HeldBehind(r) <= HeldBehind(p)
      && InHand(p) == InHand(r) + requeued
      && multiset(r.tasks) == requeued + (multiset(p.tasks) + returned)
      && r.allAssigned == p.allAssigned - |returned|
  {
    var renamed := p.(running := running, pending := pending);
    var gone, joined := Stopped(p, running, pending), Joined(p, running, pending);
    NoDupKeepOut(p.running + p.pending, running + pending);
    NoDupKeepOut(running + pending, p.running + p.pending);
    var middle := RequeueAll(renamed, gone);
    RequeueAllCounts(renamed, gone);
    AdmitAllShape(middle, joined);
    AdmitAllCounts(middle, joined);
  }
}
