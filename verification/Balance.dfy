/** How well dispatching, stealing and requeueing place the work. */
module Balance {
  import opened Queues
  import opened PoolModel
  import opened PoolLaws

  function Total(keys: seq<WorkerId>, queues: Queues): nat
    requires forall k | k in keys :: k in queues
  {
    if keys == [] then 0 else |queues[keys[0]]| + Total(keys[1..], queues)
  }

  function Squares(keys: seq<WorkerId>, queues: Queues): nat
    requires forall k | k in keys :: k in queues
  {
    if keys == [] then 0 else |queues[keys[0]]| * |queues[keys[0]]| + Squares(keys[1..], queues)
  }

  ghost predicate Covers(keys: seq<WorkerId>, queues: Queues) {
    forall k | k in keys :: k in queues
  }

  /** The length of a longest and of a shortest queue. */
  function Peak(keys: seq<WorkerId>, queues: Queues): nat
    requires keys != [] && Covers(keys, queues)
  {
    |queues[Longest(keys, queues)]|
  }

  function Floor(keys: seq<WorkerId>, queues: Queues): nat
    requires keys != [] && Covers(keys, queues)
  {
    |queues[Shortest(keys, queues)]|
  }

  /** Some way of adding tasks to the queues of p, as many as dispatching does. */
  ghost predicate Alternative(p: Pool, now: real, other: Queues)
    requires Valid(p)
  {
    var r := Dispatch(p, now);
    && Covers(p.keys, other)
    && (forall w | w in p.keys && w in p.assignment :: |p.assignment[w]| <= |other[w]|)
    && r.keys == p.keys && Total(p.keys, other) == Total(p.keys, r.assignment)
  }

  lemma {:induction false} TotalPut(keys: seq<WorkerId>, queues: Queues, w: WorkerId, t: TaskId)
    requires NoDup(keys) && w in keys && Covers(keys, queues)
    ensures Total(keys, queues[w := queues[w] + [t]]) == Total(keys, queues) + 1
  {
    if keys[0] == w {
      TotalSame(keys[1..], queues, queues[w := queues[w] + [t]]);
    } else {
      TotalPut(keys[1..], queues, w, t);
    }
  }

  lemma {:induction false} TotalSame(keys: seq<WorkerId>, a: Queues, b: Queues)
    requires forall k | k in keys :: k in a && k in b && a[k] == b[k]
    ensures Total(keys, a) == Total(keys, b)
  {
    if keys != [] {
      TotalSame(keys[1..], a, b);
    }
  }

  lemma {:induction false} TotalMonotone(keys: seq<WorkerId>, a: Queues, b: Queues)
    requires forall k | k in keys :: k in a && k in b && |a[k]| <= |b[k]|
    ensures Total(keys, a) <= Total(keys, b)
    ensures (exists k | k in keys :: |a[k]| < |b[k]|) ==> Total(keys, a) < Total(keys, b)
  {
    if keys != [] {
      TotalMonotone(keys[1..], a, b);
      if exists k | k in keys :: |a[k]| < |b[k]| {
        var k :| k in keys && |a[k]| < |b[k]|;
        assert k == keys[0] || k in keys[1..];
      }
    }
  }

  /** Dispatching only appends to queues. */
  lemma {:induction false} DispatchGrows(p: Pool, now: real, w: WorkerId)
    requires Valid(p) && w in p.keys
    ensures var r := Dispatch(p, now); r.keys == p.keys && p.assignment[w] <= r.assignment[w]
    decreases |p.tasks|
  {
    if !(p.tasks == [] || p.running + p.pending == []) {
      assert (p.running + p.pending)[0] in p.keys;
      var one := DispatchOne(p, now);
      assert p.assignment[w] <= one.assignment[w];
      DispatchGrows(one, now, w);
      assert Dispatch(p, now) == Dispatch(one, now);
    }
  }

  /** a can be obtained from b by leaving elements out. */
  ghost predicate Subsequence(a: seq<TaskId>, b: seq<TaskId>) {
    if a == [] then true
    else b != [] && (if a[0] == b[0] then Subsequence(a[1..], b[1..]) else Subsequence(a, b[1..]))
  }

  /** Tasks are dispatched in the order in which they wait: what a queue gains is taken from the pool
      in the pool's order. */
  lemma {:induction false} DispatchInOrder(p: Pool, now: real, w: WorkerId)
    requires Valid(p) && w in p.keys
    ensures var r := Dispatch(p, now);
      && r.keys == p.keys && |p.assignment[w]| <= |r.assignment[w]|
      && Subsequence(r.assignment[w][|p.assignment[w]|..], p.tasks)
    decreases |p.tasks|
  {
    DispatchGrows(p, now, w);
    if p.tasks == [] || p.running + p.pending == [] {
      assert p.assignment[w][|p.assignment[w]|..] == [];
    } else {
      assert (p.running + p.pending)[0] in p.keys;
      var one := DispatchOne(p, now);
      DispatchInOrder(one, now, w);
      DispatchGrows(one, now, w);
      var r := Dispatch(one, now);
      assert Dispatch(p, now) == r;
      if w == Shortest(p.keys, p.assignment) {
        GainsHead(p.assignment[w], one.assignment[w], r.assignment[w], p.tasks);
      } else {
        Skip(r.assignment[w][|p.assignment[w]|..], p.tasks);
      }
    }
  }

  lemma GainsHead(start: seq<TaskId>, one: seq<TaskId>, end: seq<TaskId>, tasks: seq<TaskId>)
    requires tasks != [] && one == start + [tasks[0]] && one <= end && Subsequence(end[|one|..], tasks[1..])
    ensures Subsequence(end[|start|..], tasks)
  {
    var gain := end[|start|..];
    assert gain[0] == one[|start|] && gain[1..] == end[|one|..];
  }

  lemma {:induction false} Skip(a: seq<TaskId>, b: seq<TaskId>)
    requires b != [] && Subsequence(a, b[1..])
    ensures Subsequence(a, b)
    decreases |b|, 0
  {
    if a != [] && a[0] == b[0] {
      DropFirst(a, b[1..]);
    }
  }

  lemma {:induction false} DropFirst(a: seq<TaskId>, b: seq<TaskId>)
    requires a != [] && Subsequence(a, b)
    ensures Subsequence(a[1..], b)
    decreases |b|, 1
  {
    if a[0] == b[0] {
      Skip(a[1..], b);
    } else {
      DropFirst(a, b[1..]);
      Skip(a[1..], b);
    }
  }

  /** A queue that got a task ends at most one above any other. */
  lemma {:induction false} DispatchLevels(p: Pool, now: real, v: WorkerId, w: WorkerId)
    requires Valid(p) && v in p.keys && w in p.keys
    ensures var r := Dispatch(p, now);
      r.keys == p.keys && (|p.assignment[w]| < |r.assignment[w]| ==> |r.assignment[w]| <= |r.assignment[v]| + 1)
    decreases |p.tasks|
  {
    if !(p.tasks == [] || p.running + p.pending == []) {
      assert (p.running + p.pending)[0] in p.keys;
      var one := DispatchOne(p, now);
      assert |p.assignment[w]| < |one.assignment[w]| ==> |one.assignment[w]| <= |p.assignment[v]| + 1;
      assert |p.assignment[v]| <= |one.assignment[v]|;
      DispatchLevels(one, now, v, w);
      DispatchGrows(one, now, v);
      DispatchGrows(one, now, w);
      assert Dispatch(p, now) == Dispatch(one, now);
    }
  }

  lemma DispatchLevel(p: Pool, now: real)
    requires Valid(p)
    ensures var r := Dispatch(p, now); r.keys == p.keys && Level(p.keys, p.assignment, r.assignment)
  {
    var r := Dispatch(p, now);
    DispatchTotal(p, now);
    forall w | w in p.keys
      ensures |p.assignment[w]| <= |r.assignment[w]|
    {
      DispatchGrows(p, now, w);
    }
    forall v, w | v in p.keys && w in p.keys && |p.assignment[w]| < |r.assignment[w]|
      ensures |r.assignment[w]| <= |r.assignment[v]| + 1
    {
      DispatchLevels(p, now, v, w);
    }
  }

  lemma {:induction false} DispatchTotal(p: Pool, now: real)
    requires Valid(p)
    ensures var r := Dispatch(p, now);
      r.keys == p.keys && Total(p.keys, r.assignment) == Total(p.keys, p.assignment) + |p.tasks| - |r.tasks|
    decreases |p.tasks|
  {
    if !(p.tasks == [] || p.running + p.pending == []) {
      assert (p.running + p.pending)[0] in p.keys;
      TotalPut(p.keys, p.assignment, Shortest(p.keys, p.assignment), p.tasks[0]);
      DispatchTotal(DispatchOne(p, now), now);
    }
  }

  /** The dispatch loop is optimal: however else as many tasks are added to the same queues, the
      longest queue is no shorter and the shortest no longer than after dispatching. */
  lemma DispatchIsOptimal(p: Pool, now: real, other: Queues)
    requires Valid(p) && p.keys != [] && Alternative(p, now, other)
    ensures var r := Dispatch(p, now);
      && Peak(p.keys, r.assignment) <= Peak(p.keys, other)
      && Floor(p.keys, r.assignment) >= Floor(p.keys, other)
  {
    var r := Dispatch(p, now);
    DispatchLevel(p, now);
    LowPeak(p.keys, p.assignment, r.assignment, other);
    HighFloor(p.keys, p.assignment, r.assignment, other);
  }

  ghost predicate Level(keys: seq<WorkerId>, start: Queues, end: Queues) {
    && Covers(keys, start) && Covers(keys, end)
    && (forall w | w in keys :: |start[w]| <= |end[w]|)
    && (forall v, w | v in keys && w in keys && |start[w]| < |end[w]| :: |end[w]| <= |end[v]| + 1)
  }

  lemma LowPeak(keys: seq<WorkerId>, start: Queues, end: Queues, other: Queues)
    requires keys != [] && Level(keys, start, end) && Covers(keys, other)
    requires (forall w | w in keys :: |start[w]| <= |other[w]|) && Total(keys, other) == Total(keys, end)
    ensures Peak(keys, end) <= Peak(keys, other)
  {
    var top := Longest(keys, end);
    if Peak(keys, end) > Peak(keys, other) {
      assert |start[top]| <= |other[top]| < |end[top]|;
      assert forall w | w in keys :: |other[w]| <= |end[w]|;
      TotalMonotone(keys, other, end);
    }
  }

  lemma HighFloor(keys: seq<WorkerId>, start: Queues, end: Queues, other: Queues)
    requires keys != [] && Level(keys, start, end) && Covers(keys, other)
    requires (forall w | w in keys :: |start[w]| <= |other[w]|) && Total(keys, other) == Total(keys, end)
    ensures Floor(keys, end) >= Floor(keys, other)
  {
    var low := Shortest(keys, end);
    if Floor(keys, end) < Floor(keys, other) {
      forall w | w in keys
        ensures |end[w]| <= |other[w]|
      {
        assert |start[w]| < |end[w]| ==> |end[w]| <= |end[low]| + 1;
      }
      TotalMonotone(keys, end, other);
    }
  }

  /** After dispatching, queue lengths differ by at most one, or by no more than before. */
  lemma DispatchSpread(p: Pool, now: real)
    requires Valid(p) && p.keys != []
    ensures var r := Dispatch(p, now);
      && r.keys == p.keys
      && (Peak(p.keys, r.assignment) - Floor(p.keys, r.assignment) <= 1
          || Peak(p.keys, r.assignment) - Floor(p.keys, r.assignment)
             <= Peak(p.keys, p.assignment) - Floor(p.keys, p.assignment))
  {
    DispatchLevel(p, now);
    var r := Dispatch(p, now);
    var top, low := Longest(p.keys, r.assignment), Shortest(p.keys, r.assignment);
    assert |p.assignment[low]| <= |r.assignment[low]| && |p.assignment[top]| <= |r.assignment[top]|;
  }

  lemma {:induction false} SquaresUpdate(keys: seq<WorkerId>, queues: Queues, w: WorkerId, queue: seq<TaskId>)
    requires NoDup(keys) && w in keys && Covers(keys, queues)
    ensures Squares(keys, queues[w := queue]) + |queues[w]| * |queues[w]| == Squares(keys, queues) + |queue| * |queue|
  {
    if keys[0] == w {
      SquaresSame(keys[1..], queues, queues[w := queue]);
    } else {
      SquaresUpdate(keys[1..], queues, w, queue);
    }
  }

  lemma {:induction false} SquaresSame(keys: seq<WorkerId>, a: Queues, b: Queues)
    requires forall k | k in keys :: k in a && k in b && a[k] == b[k]
    ensures Squares(keys, a) == Squares(keys, b)
  {
    if keys != [] {
      SquaresSame(keys[1..], a, b);
    }
  }

  /** A theft by a worker without tasks leaves its victim at least one, keeps every queue between the
      old shortest and the old longest, and lowers the sum of squares by twice one less than the peak. */
  lemma StealBalances(p: Pool, thief: WorkerId)
    requires WellKeyed(p) && thief in p.keys && p.assignment[thief] == []
    ensures var (r, task) := Steal(p, thief);
      task.Some? ==> WellKeyed(r) && r.keys == p.keys && Balances(p.keys, p.assignment, r.assignment, thief)
  {
    var victim := StealShape(p, thief);
    var (r, task) := Steal(p, thief);
    if task.Some? {
      MoveBalances(p.keys, p.assignment, victim, thief, p.assignment[victim][..|p.assignment[victim]| - 1], task.value);
    }
  }

  ghost predicate Balances(keys: seq<WorkerId>, before: Queues, after: Queues, thief: WorkerId)
    requires keys != [] && Covers(keys, before) && Covers(keys, after)
  {
    && Peak(keys, before) >= 2
    && (forall w | w in keys :: |after[w]| < |before[w]| ==> w != thief && |after[w]| >= 1)
    && (forall w | w in keys :: Floor(keys, before) <= |after[w]| <= Peak(keys, before))
    && Squares(keys, after) == Squares(keys, before) - 2 * (Peak(keys, before) - 1)
  }

  lemma MoveBalances(
    keys: seq<WorkerId>, queues: Queues, victim: WorkerId, thief: WorkerId, rest: seq<TaskId>, t: TaskId)
    requires NoDup(keys) && victim in keys && thief in keys && victim != thief && Covers(keys, queues)
    requires queues[thief] == [] && |queues[victim]| == |rest| + 1 >= 2
    requires forall w | w in keys :: |queues[w]| <= |queues[victim]|
    ensures Balances(keys, queues, queues[victim := rest][thief := [t]], thief)
  {
    assert Peak(keys, queues) == |queues[victim]| && Floor(keys, queues) == 0;
    MoveSquares(keys, queues, victim, thief, rest, t);
  }

  lemma MoveSquares(
    keys: seq<WorkerId>, queues: Queues, victim: WorkerId, thief: WorkerId, rest: seq<TaskId>, t: TaskId)
    requires NoDup(keys) && victim in keys && thief in keys && victim != thief && Covers(keys, queues)
    requires queues[thief] == [] && |queues[victim]| == |rest| + 1
    ensures Squares(keys, queues[victim := rest][thief := [t]]) == Squares(keys, queues) - 2 * |rest|
  {
    SquaresUpdate(keys, queues, victim, rest);
    SquaresUpdate(keys, queues[victim := rest], thief, [t]);
    assert |queues[victim]| * |queues[victim]| == |rest| * |rest| + 2 * |rest| + 1;
  }

  /** Departed workers' queues in the order the loop leaves them: interrupted work of the last first,
      unstarted work of the first first. */
  function Interrupted(stopped: seq<WorkerId>, processing: Queues): seq<TaskId>
    requires Covers(stopped, processing)
  {
    if stopped == [] then [] else Interrupted(stopped[1..], processing) + processing[stopped[0]]
  }

  function Unstarted(stopped: seq<WorkerId>, assignment: Queues): seq<TaskId>
    requires Covers(stopped, assignment)
  {
    if stopped == [] then [] else assignment[stopped[0]] + Unstarted(stopped[1..], assignment)
  }

  lemma {:induction false} RequeueAllOrder(p: Pool, stopped: seq<WorkerId>, processing: Queues, assignment: Queues)
    requires WellKeyed(p) && NoDup(stopped) && forall w | w in stopped :: w in p.keys
    requires forall w | w in stopped ::
      && w in processing && w in assignment
      && processing[w] == p.processing[w] && assignment[w] == p.assignment[w]
    ensures RequeueAll(p, stopped).tasks == Interrupted(stopped, processing) + p.tasks + Unstarted(stopped, assignment)
    decreases |stopped|
  {
    if stopped == [] {
      assert [] + p.tasks + [] == p.tasks;
    } else {
      NoDupTail(stopped);
      var one := RequeueOne(p, stopped[0]);
      var rest := stopped[1..];
      RequeueAllOrder(one, rest, processing, assignment);
      Nested(Interrupted(rest, processing), processing[stopped[0]], p.tasks,
             assignment[stopped[0]], Unstarted(rest, assignment));
    }
  }

  lemma Nested(a: seq<TaskId>, b: seq<TaskId>, c: seq<TaskId>, d: seq<TaskId>, e: seq<TaskId>)
    ensures a + (b + (c + d)) + e == (a + b) + c + (d + e)
  {
  }

  /** Requeue order: interrupted work goes ahead of the waiting work, unstarted work behind it. */
  lemma RequeueOrder(p: Pool, running: seq<WorkerId>, pending: seq<WorkerId>)
    requires Valid(p) && NoDup(running + pending)
    ensures var stopped := Stopped(p, running, pending);
      && Covers(stopped, p.processing) && Covers(stopped, p.assignment)
      && OnMembership(p, running, pending).tasks
         == Interrupted(stopped, p.processing) + p.tasks + Unstarted(stopped, p.assignment)
  {
    var stopped := Stopped(p, running, pending);
    var renamed := p.(running := running, pending := pending);
    NoDupKeepOut(p.running + p.pending, running + pending);
    RequeueAllOrder(renamed, stopped, p.processing, p.assignment);
    AdmitAllShape(RequeueAll(renamed, stopped), Joined(p, running, pending));
  }
}
