/** What each handler of the node manager answers and leaves behind, case by case, in terms of the pool
    it found. */
module HandlerLaws {
  import opened Queues
  import opened Packets
  import opened PoolModel
  import opened PoolLaws
  import opened WorkerModel
  import opened Protocol

  /** The first key, in order, with a longest queue. */
  ghost predicate FirstLongest(keys: seq<WorkerId>, queues: Queues, w: WorkerId)
    requires forall k | k in keys :: k in queues
  {
    exists i :: 0 <= i < |keys| && keys[i] == w
      && (forall j | 0 <= j < |keys| :: |queues[keys[j]]| <= |queues[keys[i]]|)
      && (forall j | 0 <= j < i :: |queues[keys[j]]| < |queues[keys[i]]|)
  }

  /** The first key, in order, with a shortest queue. */
  ghost predicate FirstShortest(keys: seq<WorkerId>, queues: Queues, w: WorkerId)
    requires forall k | k in keys :: k in queues
  {
    exists i :: 0 <= i < |keys| && keys[i] == w
      && (forall j | 0 <= j < |keys| :: |queues[keys[i]]| <= |queues[keys[j]]|)
      && (forall j | 0 <= j < i :: |queues[keys[i]]| < |queues[keys[j]]|)
  }

  /** There is work for the worker: its own, or some that can be stolen. */
  ghost predicate WorkFor(p: Pool, w: WorkerId)
    requires WellKeyed(p) && w in p.keys
  {
    p.assignment[w] != [] || exists v | v in p.keys :: |p.assignment[v]| >= 2
  }

  /** The task leaves the head of the worker's own queue. */
  ghost predicate OwnTaken(p: Pool, w: WorkerId, t: TaskId, queues: Queues)
    requires WellKeyed(p) && w in p.keys
  {
    && queues.Keys == p.assignment.Keys && p.assignment[w] == [t] + queues[w]
    && forall v | v in p.keys && v != w :: queues[v] == p.assignment[v]
  }

  /** The task leaves the end of the victim's queue and becomes the thief's whole queue. */
  ghost predicate Stolen(p: Pool, w: WorkerId, t: TaskId, queues: Queues, victim: WorkerId)
    requires WellKeyed(p) && w in p.keys
  {
    && FirstLongest(p.keys, p.assignment, victim) && victim != w && queues.Keys == p.assignment.Keys
    && victim in p.keys && |p.assignment[victim]| >= 2 && p.assignment[victim] == queues[victim] + [t]
    && p.assignment[w] == [] && queues[w] == [t]
    && forall v | v in p.keys && v != w && v != victim :: queues[v] == p.assignment[v]
  }

  /** What becomes of the assignment queues when the worker is handed a task. */
  ghost predicate Taken(p: Pool, w: WorkerId, t: TaskId, queues: Queues)
    requires WellKeyed(p) && w in p.keys
  {
    if p.assignment[w] != [] then OwnTaken(p, w, t, queues)
    else exists victim :: Stolen(p, w, t, queues, victim)
  }

  lemma LongestIsFirst(keys: seq<WorkerId>, queues: Queues)
    requires keys != [] && forall k | k in keys :: k in queues
    ensures FirstLongest(keys, queues, Longest(keys, queues))
  {
    var w := Longest(keys, queues);
    var i :| 0 <= i < |keys| && keys[i] == w && forall j | 0 <= j < i :: |queues[keys[j]]| < |queues[w]|;
    forall j | 0 <= j < |keys|
      ensures |queues[keys[j]]| <= |queues[keys[i]]|
    {
      assert keys[j] in keys;
    }
  }

  lemma StealExactly(p: Pool, w: WorkerId)
    requires WellKeyed(p) && w in p.keys && p.assignment[w] == []
    ensures var (r, task) := Steal(p, w);
      match task
      case None => r == p && forall v | v in p.keys :: |p.assignment[v]| <= 1
      case Some(t) =>
        r == p.(assignment := r.assignment) && Stolen(p, w, t, r.assignment, Longest(p.keys, p.assignment))
  {
    LongestIsFirst(p.keys, p.assignment);
    var victim := Longest(p.keys, p.assignment);
    var loot := p.assignment[victim];
    if |loot| >= 2 {
      assert loot == loot[..|loot| - 1] + [loot[|loot| - 1]];
      assert [] + [loot[|loot| - 1]] == [loot[|loot| - 1]];
    }
  }

  lemma NextTaskExactly(p: Pool, w: WorkerId)
    requires WellKeyed(p) && w in p.keys
    ensures var (r, task) := NextTask(p, w);
      && (task.Some? <==> WorkFor(p, w))
      && match task
         case None => r == p
         case Some(t) =>
           && r == p.(assignment := r.assignment, processing := p.processing[w := p.processing[w] + [t]])
           && Taken(p, w, t, r.assignment)
  {
    if p.assignment[w] == [] {
      StealExactly(p, w);
    } else {
      assert p.assignment[w] == [p.assignment[w][0]] + p.assignment[w][1..];
    }
  }

  /** A heartbeat is answered with a task if and only if it asks, comes from a member, and there is work
      for that member. The task is the head of the member's own queue, or else the last of the first
      longest queue, and moves to the end of what the member has in hand. Any other heartbeat changes
      nothing and comes back. */
  lemma HeartBeatExactly(p: Pool, w: WorkerId, noHbTask: bool)
    requires WellKeyed(p)
    ensures var (r, answer) := OnHeartBeat(p, w, noHbTask);
      && (answer.Task? <==> !noHbTask && w in p.keys && WorkFor(p, w))
      && (if answer.Task? then
            && r == p.(assignment := r.assignment, processing := p.processing[w := p.processing[w] + [answer.task]])
            && Taken(p, w, answer.task, r.assignment)
          else r == p && answer == HeartBeat(w, noHbTask))
  {
    if w in p.keys {
      NextTaskExactly(p, w);
    }
  }

  /** A report of a non-member changes nothing and comes back. A member's report fails if nothing is in
      its hand, and, having taken off the head and lowered the counter, if its task has no stamp. */
  lemma DoneRefused(p: Pool, w: WorkerId, task: TaskId, now: real)
    requires Valid(p)
    ensures var (r, outcome) := OnDone(p, w, task, now);
      && (outcome.Crash? <==> w in p.keys && (p.processing[w] == [] || task !in p.assignTime))
      && (w !in p.keys ==> r == p && outcome == Reply(Done(w, task)))
      && (w in p.keys && p.processing[w] == [] ==> r == p)
      && (w in p.keys && p.processing[w] != [] && task !in p.assignTime ==>
            r == p.(processing := p.processing[w := p.processing[w][1..]], allAssigned := p.allAssigned - 1))
  {
  }

  /** Any other report takes the head off what the member has in hand and lowers the counter. It is
      answered with a task if and only if there is work for the member, by the rule for heartbeats;
      otherwise it comes back. */
  lemma DoneExactly(p: Pool, w: WorkerId, task: TaskId, now: real)
    requires Valid(p) && w in p.keys && p.processing[w] != [] && task in p.assignTime
    ensures var (r, outcome) := OnDone(p, w, task, now);
      var rest := p.processing[w][1..];
      && outcome.Reply? && (outcome.packet.Task? <==> WorkFor(p, w))
      && (if outcome.packet.Task? then
            && Taken(p, w, outcome.packet.task, r.assignment)
            && r == p.(assignment := r.assignment, processing := p.processing[w := rest + [outcome.packet.task]],
                       allAssigned := p.allAssigned - 1)
          else
            && outcome.packet == Done(w, task)
            && r == p.(processing := p.processing[w := rest], allAssigned := p.allAssigned - 1))
  {
    var popped := p.(processing := p.processing[w := p.processing[w][1..]], allAssigned := p.allAssigned - 1);
    DoneIsNext(p, w, task, now);
    NextTaskExactly(popped, w);
    SameWork(p, popped, w);
    var (r, next) := NextTask(popped, w);
    if next.Some? {
      SameTaken(p, popped, w, next.value, r.assignment);
      TwiceSet(p.processing, w, p.processing[w][1..], p.processing[w][1..] + [next.value]);
    }
  }

  lemma TwiceSet(queues: Queues, w: WorkerId, a: seq<TaskId>, b: seq<TaskId>)
    ensures queues[w := a][w := b] == queues[w := b]
  {
  }

  /** A report that is accepted ends in the search for the member's next task. */
  lemma DoneIsNext(p: Pool, w: WorkerId, task: TaskId, now: real)
    requires Valid(p) && w in p.keys && p.processing[w] != [] && task in p.assignTime
    ensures var popped := p.(processing := p.processing[w := p.processing[w][1..]], allAssigned := p.allAssigned - 1);
      && WellKeyed(popped)
      && var (r, next) := NextTask(popped, w);
      OnDone(p, w, task, now) == (r, Reply(if next.Some? then Task(next.value) else Done(w, task)))
  {
    assert w in p.running + p.pending && w in p.processing;
    var popped := PopDone(p, w);
    assert OnDone(p, w, task, now) == match NextTask(popped, w).1
      case Some(t) => (NextTask(popped, w).0, Reply(Task(t)))
      case None => (NextTask(popped, w).0, Reply(Done(w, task)));
  }

  lemma SameWork(p: Pool, q: Pool, w: WorkerId)
    requires WellKeyed(p) && WellKeyed(q) && q.keys == p.keys && q.assignment == p.assignment && w in p.keys
    ensures WorkFor(p, w) <==> WorkFor(q, w)
  {
  }

  lemma SameTaken(p: Pool, q: Pool, w: WorkerId, t: TaskId, queues: Queues)
    requires WellKeyed(p) && WellKeyed(q) && q.keys == p.keys && q.assignment == p.assignment && w in p.keys
    requires Taken(q, w, t, queues)
    ensures Taken(p, w, t, queues)
  {
    if p.assignment[w] == [] {
      var victim :| Stolen(q, w, t, queues, victim);
      assert Stolen(p, w, t, queues, victim);
    }
  }

  /** A command other than a report is sent back. */
  lemma CommandEchoed(p: Pool, t: TaskId, now: real)
    requires WellKeyed(p)
    ensures OnPacket(p, Task(t), now) == (p, Reply(Task(t)))
  {
  }

  /** A worker's heartbeat, once served, brings work exactly if the worker had not noted a task when it
      made the heartbeat, is a member, and there is work for it. What was buffered before stays ahead. */
  lemma BeatAsksExactly(k: Worker, w: WorkerId, p: Pool, now: real)
    requires WellKeyed(p)
    ensures var r := Beat(k, w);
      && |r.buffer| == |k.buffer| + 1 && r.buffer[..|k.buffer|] == k.buffer && r == k.(buffer := r.buffer)
      && var outcome := OnPacket(p, r.buffer[|k.buffer|], now).1;
      && outcome.Reply? && (outcome.packet.Task? <==> !k.taskCommandReceived && w in p.keys && WorkFor(p, w))
      && (!outcome.packet.Task? ==> outcome.packet == HeartBeat(w, k.taskCommandReceived))
  {
    HeartBeatExactly(p, w, k.taskCommandReceived);
  }

  lemma ShortestIsFirst(keys: seq<WorkerId>, queues: Queues)
    requires keys != [] && forall k | k in keys :: k in queues
    ensures FirstShortest(keys, queues, Shortest(keys, queues))
  {
    var w := Shortest(keys, queues);
    var i :| 0 <= i < |keys| && keys[i] == w && forall j | 0 <= j < i :: |queues[w]| < |queues[keys[j]]|;
    forall j | 0 <= j < |keys|
      ensures |queues[keys[i]]| <= |queues[keys[j]]|
    {
      assert keys[j] in keys;
    }
  }

  /** The task goes to the end of the worker's queue. */
  ghost predicate PutInto(p: Pool, w: WorkerId, t: TaskId, queues: Queues)
    requires WellKeyed(p)
  {
    w in p.keys && FirstShortest(p.keys, p.assignment, w) && queues == p.assignment[w := p.assignment[w] + [t]]
  }

  /** One turn of the dispatch loop: the task that waited longest goes to the end of the first shortest
      queue and is stamped with the present time, whatever its stamp was. */
  lemma DispatchOneExactly(p: Pool, now: real)
    requires WellKeyed(p) && p.keys != [] && p.tasks != []
    ensures var r := DispatchOne(p, now);
      var t := p.tasks[0];
      && p.tasks == [t] + r.tasks && r.allAssigned == p.allAssigned + 1
      && t in r.assignTime && r.assignTime[t] == now
      && (forall x | x != t :: x in r.assignTime <==> x in p.assignTime)
      && (forall x | x in p.assignTime && x != t :: r.assignTime[x] == p.assignTime[x])
      && r == p.(tasks := r.tasks, assignment := r.assignment, assignTime := r.assignTime, allAssigned := r.allAssigned)
      && exists w :: PutInto(p, w, t, r.assignment)
  {
    ShortestIsFirst(p.keys, p.assignment);
    assert p.tasks == [p.tasks[0]] + p.tasks[1..];
    assert PutInto(p, Shortest(p.keys, p.assignment), p.tasks[0], DispatchOne(p, now).assignment);
  }

  /** Leaving out is done key by key and keeps the order. */
  lemma {:induction false} KeepOutSplits(a: seq<WorkerId>, b: seq<WorkerId>, drop: seq<WorkerId>)
    ensures KeepOut(a + b, drop) == KeepOut(a, drop) + KeepOut(b, drop)
  {
    if a == [] {
      assert a + b == b;
    } else {
      assert (a + b)[0] == a[0] && (a + b)[1..] == a[1..] + b;
      KeepOutSplits(a[1..], b, drop);
    }
  }

  lemma {:induction false} WithoutIsKeepOut(keys: seq<WorkerId>, key: WorkerId)
    ensures Without(keys, key) == KeepOut(keys, [key])
  {
    if keys != [] {
      WithoutIsKeepOut(keys[1..], key);
    }
  }

  lemma {:induction false} KeepOutTwice(keys: seq<WorkerId>, a: seq<WorkerId>, b: seq<WorkerId>)
    ensures KeepOut(KeepOut(keys, a), b) == KeepOut(keys, a + b)
  {
    if keys != [] {
      KeepOutTwice(keys[1..], a, b);
    }
  }

  lemma RequeueOneKeys(p: Pool, stopped: seq<WorkerId>)
    requires WellKeyed(p) && stopped != [] && NoDup(stopped) && forall w | w in stopped :: w in p.keys
    ensures var one := RequeueOne(p, stopped[0]);
      && one.keys == KeepOut(p.keys, [stopped[0]])
      && NoDup(stopped[1..]) && (forall w | w in stopped[1..] :: w in one.keys)
      && RequeueAll(p, stopped) == RequeueAll(one, stopped[1..])
  {
    NoDupTail(stopped);
    WithoutIsKeepOut(p.keys, stopped[0]);
  }

  lemma {:induction false} RequeueAllKeys(p: Pool, stopped: seq<WorkerId>)
    requires WellKeyed(p) && NoDup(stopped) && forall w | w in stopped :: w in p.keys
    ensures RequeueAll(p, stopped).keys == KeepOut(p.keys, stopped)
    decreases |stopped|
  {
    if stopped == [] {
      KeepOutNothing(p.keys);
    } else {
      RequeueOneKeys(p, stopped);
      RequeueAllKeys(RequeueOne(p, stopped[0]), stopped[1..]);
      KeepOutTwice(p.keys, [stopped[0]], stopped[1..]);
      AppendOne([], stopped);
    }
  }

  lemma {:induction false} KeepOutNothing(keys: seq<WorkerId>)
    ensures KeepOut(keys, []) == keys
  {
    if keys != [] {
      KeepOutNothing(keys[1..]);
    }
  }

  lemma AdmitOneKeys(p: Pool, joined: seq<WorkerId>)
    requires WellKeyed(p) && joined != [] && NoDup(joined) && forall w | w in joined :: w !in p.keys
    ensures var one := Admit(p, joined[0]);
      && one.keys == p.keys + [joined[0]]
      && NoDup(joined[1..]) && (forall w | w in joined[1..] :: w !in one.keys)
      && AdmitAll(p, joined) == AdmitAll(one, joined[1..])
  {
    NoDupTail(joined);
    assert joined[0] in joined;
  }

  lemma AppendOne(keys: seq<WorkerId>, more: seq<WorkerId>)
    ensures keys + [] == keys
    ensures more != [] ==> (keys + [more[0]]) + more[1..] == keys + more && [more[0]] + more[1..] == more
  {
  }

  lemma {:induction false} AdmitAllKeys(p: Pool, joined: seq<WorkerId>)
    requires WellKeyed(p) && NoDup(joined) && forall w | w in joined :: w !in p.keys
    ensures AdmitAll(p, joined).keys == p.keys + joined
    decreases |joined|
  {
    AppendOne(p.keys, joined);
    if joined != [] {
      AdmitOneKeys(p, joined);
      AdmitAllKeys(Admit(p, joined[0]), joined[1..]);
    }
  }

  /** The order in which ties are broken after a membership change: those who stay, as they were, then
      those who join, in the order of the lists. */
  lemma MembershipOrder(p: Pool, running: seq<WorkerId>, pending: seq<WorkerId>)
    requires Valid(p) && NoDup(running + pending)
    ensures OnMembership(p, running, pending).keys
         == KeepOut(p.keys, Stopped(p, running, pending)) + Joined(p, running, pending)
  {
    var renamed := p.(running := running, pending := pending);
    NoDupKeepOut(p.running + p.pending, running + pending);
    NoDupKeepOut(running + pending, p.running + p.pending);
    RequeueAllKeys(renamed, Stopped(p, running, pending));
    var middle := RequeueAll(renamed, Stopped(p, running, pending));
    AdmitAllKeys(middle, Joined(p, running, pending));
  }

  /** The reported allocation is the keys in their order, the members without any work left out. */
  lemma {:induction false} BusyIsKeepOut(p: Pool, keys: seq<WorkerId>, without: seq<WorkerId>)
    requires WellKeyed(p) && forall w | w in keys :: w in p.keys && (w in without <==> Load(p, w) == 0)
    ensures Busy(p, keys) == KeepOut(keys, without)
  {
    if keys != [] {
      BusyIsKeepOut(p, keys[1..], without);
    }
  }
}
