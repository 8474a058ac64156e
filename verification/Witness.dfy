/** A short run with two workers and two tasks, in which a task is handed out twice and the reported
    backlog of the finished farm is negative. */
module Witness {
  import opened Queues
  import opened Packets
  import opened PoolModel
  import opened WorkerModel
  import opened Farm
  import opened Runs
  import Balance
  import Completion

  const A := WorkerId(1)
  const B := WorkerId(2)
  const T := TaskId(1)
  const U := TaskId(2)
  const V := TaskId(3)

  /** An idle worker's heartbeat, from its making to its answer. */
  lemma Ask(s: Farm, w: WorkerId) returns (r: Farm)
    requires Reachable(s) && Valid(s.pool) && WorkerOf(s, w) == Blank
    ensures Reachable(r)
    ensures var (p', answer) := OnHeartBeat(s.pool, w, false);
      r == Farm(p', s.workers[w := Blank.(channel := Answer(answer))], s.now,
                Served(s.log, s.pool, HeartBeat(w, false), Reply(answer)))
  {
    var s1 := Next(s, EmitBeat(w));
    Extend(s, EmitBeat(w));
    assert WorkerOf(s1, w).buffer == [HeartBeat(w, false)];
    var s2 := Next(s1, Send(w));
    Extend(s1, Send(w));
    assert WorkerOf(s2, w) == Blank.(channel := Request(HeartBeat(w, false)));
    Extend(s2, Serve(w));
    r := Next(s2, Serve(w));
    assert r.workers == s.workers[w := WorkerOf(r, w)];
  }

  /** A task on its way to an otherwise idle worker, until its report is on the way back. */
  lemma ReportSent(s: Farm, w: WorkerId, t: TaskId, told: bool) returns (r: Farm)
    requires Reachable(s) && Valid(s.pool)
    requires WorkerOf(s, w) == Blank.(taskCommandReceived := told, channel := Answer(Task(t)))
    ensures Reachable(r)
    ensures r == SetWorker(s, w, Blank.(taskCommandReceived := true, channel := Request(Done(w, t))))
  {
    var busy := Blank.(taskCommandReceived := true);
    var s1 := Next(s, Receive(w));
    Extend(s, Receive(w));
    assert WorkerOf(s1, w) == busy.(queue := [t]);
    var s2 := Next(s1, RunTask(w, true));
    Extend(s1, RunTask(w, true));
    assert WorkerOf(s2, w) == busy.(buffer := [Done(w, t)]);
    Extend(s2, Send(w));
    r := Next(s2, Send(w));
    assert WorkerOf(r, w) == busy.(channel := Request(Done(w, t)));
    assert r.workers == s.workers[w := WorkerOf(r, w)];
  }

  /** The same, until the answer to its report. */
  lemma Report(s: Farm, w: WorkerId, t: TaskId, told: bool) returns (r: Farm)
    requires Reachable(s) && Valid(s.pool)
    requires WorkerOf(s, w) == Blank.(taskCommandReceived := told, channel := Answer(Task(t)))
    requires OnDone(s.pool, w, t, s.now).1.Reply?
    ensures Reachable(r)
    ensures var (p', outcome) := OnDone(s.pool, w, t, s.now);
      r == Farm(p', s.workers[w := Blank.(taskCommandReceived := true, channel := Answer(outcome.packet))], s.now,
                Served(s.log, s.pool, Done(w, t), outcome))
  {
    var sent := ReportSent(s, w, t, told);
    Extend(sent, Serve(w));
    r := Next(sent, Serve(w));
    assert r.workers == s.workers[w := WorkerOf(r, w)];
  }

  /** One worker joins, nobody leaves. */
  lemma JoinOne(p: Pool, joiner: WorkerId)
    requires Valid(p) && p.pending == [] && joiner !in p.keys && p.running == p.keys
    ensures NoDup(p.keys + [joiner] + [])
    ensures OnMembership(p, p.keys + [joiner], []) ==
            p.(keys := p.keys + [joiner], running := p.keys + [joiner],
               assignment := p.assignment[joiner := []], processing := p.processing[joiner := []])
    ensures Stopped(p, p.keys + [joiner], []) == []
    ensures Joined(p, p.keys + [joiner], []) == [joiner]
  {
    var current := p.keys + [joiner];
    assert p.running + p.pending == p.keys && current + [] == current;
    Outside(p.keys, current);
    OnlyLast(p.keys, p.keys, joiner);
    var renamed := p.(running := current, pending := []);
    assert RequeueAll(renamed, []) == renamed;
    assert AdmitAll(renamed, [joiner]) == AdmitAll(Admit(renamed, joiner), [joiner][1..]);
  }

  lemma {:induction false} Outside(xs: seq<WorkerId>, drop: seq<WorkerId>)
    requires forall x | x in xs :: x in drop
    ensures KeepOut(xs, drop) == []
  {
    if xs != [] {
      Outside(xs[1..], drop);
    }
  }

  lemma {:induction false} OnlyLast(xs: seq<WorkerId>, drop: seq<WorkerId>, last: WorkerId)
    requires last !in drop && forall x | x in xs :: x in drop
    ensures KeepOut(xs + [last], drop) == [last]
  {
    if xs == [] {
      assert xs + [last] == [last] && KeepOut([last][1..], drop) == [];
    } else {
      assert (xs + [last])[1..] == xs[1..] + [last];
      OnlyLast(xs[1..], drop, last);
    }
  }

  function At(
    tasks: seq<TaskId>, counter: int, keys: seq<WorkerId>, assignment: Queues, processing: Queues, stamped: bool): Pool
  {
    Pool(tasks, counter, keys, assignment, processing, keys, [], if stamped then map[T := 0.0, U := 0.0] else map[])
  }

  const Alone := At([], 0, [A], map[A := []], map[A := []], false)
  const Loaded := At([], 2, [A], map[A := [T, U]], map[A := []], true)
  const Joint := At([], 2, [A, B], map[A := [T, U], B := []], map[A := [], B := []], true)
  const Robbed := At([], 2, [A, B], map[A := [T], B := [U]], map[A := [], B := [U]], true)
  const Again := At([], 1, [A, B], map[A := [T], B := []], map[A := [], B := [U]], true)
  const Rested := At([], 0, [A, B], map[A := [T], B := []], map[A := [], B := []], true)
  const Asked := At([], 0, [A, B], map[A := [], B := []], map[A := [T], B := []], true)
  const Emptied := At([], -1, [A, B], map[A := [], B := []], map[A := [], B := []], true)

  lemma Loading()
    ensures var p := Alone.(tasks := [T, U]); Valid(p) && Dispatch(p, 0.0) == Loaded
  {
    var p := Alone.(tasks := [T, U]);
    assert p.running + p.pending == [A];
    assert [] + [T] == [T] && [T] + [U] == [T, U] && [T, U][1..] == [U] && [U][1..] == [];
    var one := DispatchOne(p, 0.0);
    assert p.assignment[A := [T]] == map[A := [T]] && p.assignTime[T := 0.0] == map[T := 0.0];
    assert one == At([U], 1, [A], map[A := [T]], map[A := []], false).(assignTime := map[T := 0.0]);
    var two := DispatchOne(one, 0.0);
    assert map[A := [T]][A := [T, U]] == Loaded.assignment && map[T := 0.0][U := 0.0] == Loaded.assignTime;
    assert two == Loaded;
    assert Dispatch(two, 0.0) == two;
    assert Dispatch(one, 0.0) == Dispatch(two, 0.0);
  }

  lemma Longest2(queues: Queues)
    requires A in queues && B in queues
    ensures Longest([A, B], queues) == if |queues[B]| > |queues[A]| then B else A
  {
    assert [A, B][1..] == [B];
    assert Longest([B], queues) == B;
  }

  /** B's heartbeat steals U from A, and a copy stays in B's assignment queue. */
  lemma Theft()
    ensures Valid(Joint) && OnHeartBeat(Joint, B, false) == (Robbed, Task(U))
  {
    TheftFromA();
    assert [] + [U] == [U] && Joint.processing[B := [U]] == Robbed.processing;
    assert NextTask(Joint, B) == (Robbed, Some(U));
  }

  lemma TheftFromA()
    ensures Valid(Joint) && Steal(Joint, B) == (Joint.(assignment := Robbed.assignment), Some(U))
  {
    Longest2(Joint.assignment);
    assert [T, U][..1] == [T] && [] + [U] == [U];
    assert Joint.assignment[A := [T]][B := [U]] == Robbed.assignment;
  }

  /** B's report of U is answered with the copy of U. */
  lemma SecondHandOut()
    ensures Valid(Robbed) && OnDone(Robbed, B, U, 0.0) == (Again, Reply(Task(U)))
  {
    var popped := Robbed.(processing := map[A := [], B := []], allAssigned := 1);
    assert [U][1..] == [] && [] + [U] == [U];
    assert Robbed.processing[B := []] == popped.processing && popped.processing[B := [U]] == Again.processing;
    assert Robbed.assignment[B := []] == Again.assignment;
    assert B in Robbed.running + Robbed.pending;
    assert NextTask(popped, B) == (Again, Some(U));
  }

  lemma NothingForB()
    ensures WellKeyed(Rested) && NextTask(Rested, B) == (Rested, None)
  {
    Longest2(Rested.assignment);
  }

  lemma Rest()
    ensures Valid(Again) && OnDone(Again, B, U, 0.0) == (Rested, Reply(Done(B, U)))
  {
    assert [U][1..] == [] && Again.processing[B := []] == Rested.processing;
    assert B in Again.running + Again.pending;
    NothingForB();
  }

  lemma LastTaskAsked()
    ensures Valid(Rested) && OnHeartBeat(Rested, A, false) == (Asked, Task(T))
  {
    assert [T][1..] == [] && [] + [T] == [T];
    assert Rested.assignment[A := []] == Asked.assignment && Rested.processing[A := [T]] == Asked.processing;
    assert NextTask(Rested, A) == (Asked, Some(T));
  }

  lemma NothingLeft()
    ensures Valid(Emptied) && NextTask(Emptied, A) == (Emptied, None)
  {
    Longest2(Emptied.assignment);
  }

  lemma LastTaskDone()
    ensures Valid(Asked) && OnDone(Asked, A, T, 0.0) == (Emptied, Reply(Done(A, T)))
  {
    assert [T][1..] == [] && Asked.processing[A := []] == Emptied.processing;
    assert A in Asked.running + Asked.pending;
    NothingLeft();
  }

  const Two := EmptyLog.(registered := multiset{T, U}, dispatched := 2)

  lemma ReachAlone()
    ensures Reachable(Farm(Alone, map[], 0.0, EmptyLog))
  {
    assert Run(Start, [], Start);
    JoinOne(EmptyPool, A);
    assert [] + [A] == [A];
    Extend(Start, Membership([A], []));
    assert Next(Start, Membership([A], [])) == Farm(Alone, map[], 0.0, EmptyLog);
  }

  lemma ReachWaiting()
    ensures Reachable(Farm(Alone.(tasks := [T, U]), map[], 0.0, EmptyLog.(registered := multiset{T, U})))
  {
    ReachAlone();
    var s1 := Farm(Alone, map[], 0.0, EmptyLog);
    Extend(s1, Register(T));
    var s2 := Farm(Alone.(tasks := [T]), map[], 0.0, EmptyLog.(registered := multiset{T}));
    assert Next(s1, Register(T)) == s2;
    Extend(s2, Register(U));
    assert Next(s2, Register(U)) == Farm(Alone.(tasks := [T, U]), map[], 0.0, EmptyLog.(registered := multiset{T, U}));
  }

  lemma ReachLoaded()
    ensures Reachable(Farm(Loaded, map[], 0.0, Two))
  {
    ReachWaiting();
    Loading();
    var s := Farm(Alone.(tasks := [T, U]), map[], 0.0, EmptyLog.(registered := multiset{T, U}));
    Extend(s, RunDispatch);
    assert Next(s, RunDispatch) == Farm(Loaded, map[], 0.0, Two);
  }

  lemma ReachJoint()
    ensures Reachable(Farm(Joint, map[], 0.0, Two))
  {
    ReachLoaded();
    var s := Farm(Loaded, map[], 0.0, Two);
    JoinOne(Loaded, B);
    assert [A] + [B] == [A, B];
    Extend(s, Membership([A, B], []));
    assert Next(s, Membership([A, B], [])) == Farm(Joint, map[], 0.0, Two);
  }

  /** B has stolen U, and is being handed it for the first time. */
  lemma FirstHandOut() returns (s: Farm)
    ensures Reachable(s)
    ensures s == Farm(Robbed, map[B := Blank.(channel := Answer(Task(U)))], 0.0,
                      Two.(handed := multiset{U}, stolen := multiset{U}))
  {
    ReachJoint();
    Theft();
    s := Ask(Farm(Joint, map[], 0.0, Two), B);
  }

  /** Exactly-once is false: U is handed out twice, though nobody ever leaves. */
  lemma HandedOutTwice() returns (s: Farm)
    ensures Reachable(s) && s.log.registered == multiset{T, U} && s.log.requeued == multiset{} == s.log.returned
    ensures s.log.handed[U] == 2 && s.log.stolen == multiset{U}
    ensures s == Farm(Again, s.workers, 0.0, s.log) && WorkerOf(s, A) == Blank && s.log.finished == multiset{U}
    ensures WorkerOf(s, B) == Blank.(taskCommandReceived := true, channel := Answer(Task(U)))
  {
    var stolen := FirstHandOut();
    SecondHandOut();
    s := Report(stolen, B, U, false);
  }

  /** B has run out of work; A has not asked for any. */
  lemma OneLeft() returns (s: Farm)
    ensures Reachable(s) && s == Farm(Rested, s.workers, 0.0, s.log)
    ensures WorkerOf(s, A) == Blank && !WorkerOf(s, B).failed
    ensures s.log.stolen == multiset{U} && s.log.requeued == multiset{} && s.log.registered == multiset{T, U}
  {
    var s1 := HandedOutTwice();
    Rest();
    s := Report(s1, B, U, true);
  }

  /** A has been sent the last task. */
  lemma LastSent() returns (s: Farm)
    ensures Reachable(s) && s == Farm(Asked, s.workers, 0.0, s.log)
    ensures WorkerOf(s, A) == Blank.(channel := Answer(Task(T))) && !WorkerOf(s, B).failed
    ensures s.log.stolen == multiset{U} && s.log.requeued == multiset{} && s.log.registered == multiset{T, U}
  {
    var s1 := OneLeft();
    LastTaskAsked();
    s := Ask(s1, A);
  }

  /** When both tasks are finished and every queue is empty, the reported backlog is minus one. */
  lemma NegativeBacklog() returns (s: Farm)
    ensures Reachable(s) && s.pool == Emptied && s.log.stolen == multiset{U}
    ensures s.log.requeued == multiset{} && s.log.registered == multiset{T, U}
    ensures WellKeyed(s.pool) && GenerateHeartBeat(s.pool).waiting == -1
  {
    var s1 := LastSent();
    LastTaskDone();
    s := Report(s1, A, T, false);
  }

  /** B leaves with U on its way, runs it all the same, and sends its report. */
  lemma UndrainedOutsider() returns (s: Farm)
    ensures Reachable(s) && B !in s.pool.keys
    ensures WorkerOf(s, B).channel == Request(Done(B, U))
  {
    var s0 := HandedOutTwice();
    assert NoDup([A] + []) && Joined(s0.pool, [A], []) == [] by {
      Outside([A] + [], s0.pool.running + s0.pool.pending);
    }
    Extend(s0, Membership([A], []));
    var s1 := Next(s0, Membership([A], []));
    assert WorkerOf(s1, B) == WorkerOf(s0, B) && B !in s1.pool.running + s1.pool.pending;
    s := ReportSent(s1, B, U, true);
  }

  /** B is taken back while that report is on its way: it meets an empty queue, and the exception closes
      the connection that carries it. */
  lemma CrashedConnection() returns (s: Farm, joined: Farm)
    ensures Reachable(s) && Valid(s.pool) && Possible(s, Membership([A, B], []))
    ensures joined == Next(s, Membership([A, B], [])) && Valid(joined.pool)
    ensures WorkerOf(joined, B).channel == Request(Done(B, U)) && WorkerOf(Next(joined, Serve(B)), B).channel.Closed?
  {
    s := UndrainedOutsider();
    MembershipAgreement(s);
    ReachableSafe(s);
    assert B in [A, B] + [] && B !in s.pool.running + s.pool.pending;
    UndrainedJoinCrashes(s, [A, B], [], B);
    joined := Next(s, Membership([A, B], []));
  }

  /** A fails at the last task: though B is a member in good order, the work cannot be finished before
      the members change. */
  lemma StuckFarm() returns (s: Farm)
    ensures Reachable(s) && A in s.pool.keys && B in s.pool.keys
    ensures WorkerOf(s, A).failed && !WorkerOf(s, B).failed && !Completion.CanFinish(s)
  {
    var s0 := LastSent();
    Extend(s0, Receive(A));
    var s1 := Next(s0, Receive(A));
    assert WorkerOf(s1, A) == Blank.(taskCommandReceived := true, queue := [T]);
    Extend(s1, RunTask(A, false));
    s := Next(s1, RunTask(A, false));
    assert WorkerOf(s, A).failed && s.pool == Asked;
    Completion.FinishesExactlyWhen(s);
  }

  /** Both leave the finished farm. */
  lemma Departure(s: Farm) returns (r: Farm)
    requires Reachable(s) && s.pool == Emptied && s.log.requeued == multiset{}
    ensures Reachable(r) && Valid(r.pool) && r.pool.tasks == [] && r.pool.keys == []
    ensures r.log.stolen == s.log.stolen && r.log.requeued == multiset{} && r.log.registered == s.log.registered
  {
    LeaveBoth();
    Runs.EmptyQueues([A, B], Emptied.processing);
    Extend(s, Membership([], []));
    MembershipParts(s, [], []);
    r := Next(s, Membership([], []));
  }

  /** After the negative backlog both workers leave and a task arrives. */
  lemma AbandonedTask() returns (s: Farm)
    ensures Reachable(s) && WellKeyed(s.pool) && s.pool.tasks == [V] && s.pool.keys == []
    ensures s.log.stolen == multiset{U} && s.log.requeued == multiset{}
  {
    var s0 := NegativeBacklog();
    var s1 := Departure(s0);
    Extend(s1, Register(V));
    s := Next(s1, Register(V));
    assert [] + [V] == [V];
  }

  lemma LeaveBoth()
    ensures Valid(Emptied) && Stopped(Emptied, [], []) == [A, B]
    ensures Joined(Emptied, [], []) == []
    ensures OnMembership(Emptied, [], []).tasks == [] && OnMembership(Emptied, [], []).keys == []
  {
    assert KeepOut([B], []) == [B] + KeepOut([B][1..], []);
    assert KeepOut([A, B], []) == [A] + KeepOut([A, B][1..], []);
    assert Emptied.running + Emptied.pending == [A, B] && [A, B][1..] == [B];
    Balance.RequeueOrder(Emptied, [], []);
    var r := OnMembership(Emptied, [], []);
    KeyCount(r.keys, {});
    assert Balance.Interrupted([B], Emptied.processing) == Balance.Interrupted([B][1..], Emptied.processing) + [];
    assert Balance.Interrupted([A, B], Emptied.processing) == [];
    assert Balance.Unstarted([B], Emptied.assignment) == [] + Balance.Unstarted([B][1..], Emptied.assignment);
    assert Balance.Unstarted([A, B], Emptied.assignment) == [];
  }
}
