/** Releasing benchmark tasks into the pool at their times, one tick a second. */
module TimedRelease {
  import opened Queues
  import opened PoolModel
  import opened PoolLaws
  import opened TaskPools
  import opened Farm
  import opened Runs

  /** A benchmark row: its time, which need not be whole, and the id that registering it yields. */
  datatype Job = Job(time: real, task: TaskId)

  /** `sorted(tasks, key=time)`. */
  function SortByTime(jobs: seq<Job>): seq<Job> {
    if jobs == [] then [] else Insert(jobs[0], SortByTime(jobs[1..]))
  }

  function Insert(job: Job, jobs: seq<Job>): seq<Job> {
    if jobs == [] || job.time <= jobs[0].time then [job] + jobs
    else [jobs[0]] + Insert(job, jobs[1..])
  }

  ghost predicate Sorted(jobs: seq<Job>) {
    forall i, j | 0 <= i < j < |jobs| :: jobs[i].time <= jobs[j].time
  }

  function AtTime(jobs: seq<Job>, time: real): seq<Job> {
    if jobs == [] then [] else Match(jobs[0], time) + AtTime(jobs[1..], time)
  }

  function Match(job: Job, time: real): seq<Job> {
    if job.time == time then [job] else []
  }

  /** Every time is at least, or below, a bound. */
  ghost predicate From(jobs: seq<Job>, bound: real) {
    forall i | 0 <= i < |jobs| :: jobs[i].time >= bound
  }

  ghost predicate Before(jobs: seq<Job>, bound: real) {
    forall i | 0 <= i < |jobs| :: jobs[i].time < bound
  }

  lemma {:induction false} InsertKeeps(job: Job, jobs: seq<Job>)
    ensures multiset(Insert(job, jobs)) == multiset(jobs) + multiset{job}
  {
    if !(jobs == [] || job.time <= jobs[0].time) {
      InsertKeeps(job, jobs[1..]);
      assert jobs == [jobs[0]] + jobs[1..];
    }
  }

  lemma {:induction false} InsertSorted(job: Job, jobs: seq<Job>)
    requires Sorted(jobs)
    ensures Sorted(Insert(job, jobs)) && Insert(job, jobs) != []
    ensures Insert(job, jobs)[0] == job || (jobs != [] && Insert(job, jobs)[0] == jobs[0])
  {
    if !(jobs == [] || job.time <= jobs[0].time) {
      InsertSorted(job, jobs[1..]);
      var rest := Insert(job, jobs[1..]);
      assert jobs[0].time <= rest[0].time;
      assert forall j | 0 <= j < |rest| :: rest[0].time <= rest[j].time;
    }
  }

  lemma {:induction false} InsertStable(job: Job, jobs: seq<Job>, time: real)
    requires Sorted(jobs)
    ensures AtTime(Insert(job, jobs), time) == Match(job, time) + AtTime(jobs, time)
  {
    if jobs == [] || job.time <= jobs[0].time {
      AtTimeCons(job, jobs, time);
    } else {
      SortedTail(jobs, 1);
      InsertStable(job, jobs[1..], time);
      AtTimeCons(jobs[0], Insert(job, jobs[1..]), time);
      Slide(Match(jobs[0], time), Match(job, time), AtTime(jobs[1..], time));
    }
  }

  lemma Slide(a: seq<Job>, b: seq<Job>, c: seq<Job>)
    requires a == [] || b == []
    ensures a + (b + c) == b + (a + c)
  {
  }

  lemma SortedTail(jobs: seq<Job>, k: nat)
    requires Sorted(jobs) && k <= |jobs|
    ensures Sorted(jobs[k..])
  {
  }

  lemma AtTimeCons(job: Job, jobs: seq<Job>, time: real)
    ensures AtTime([job] + jobs, time) == Match(job, time) + AtTime(jobs, time)
  {
    assert ([job] + jobs)[1..] == jobs;
  }

  lemma {:induction false} SortKeeps(jobs: seq<Job>)
    ensures multiset(SortByTime(jobs)) == multiset(jobs)
  {
    if jobs != [] {
      SortKeeps(jobs[1..]);
      InsertKeeps(jobs[0], SortByTime(jobs[1..]));
      assert jobs == [jobs[0]] + jobs[1..];
    }
  }

  lemma {:induction false} SortSorts(jobs: seq<Job>)
    ensures Sorted(SortByTime(jobs))
  {
    if jobs != [] {
      SortSorts(jobs[1..]);
      InsertSorted(jobs[0], SortByTime(jobs[1..]));
    }
  }

  lemma {:induction false} SortStable(jobs: seq<Job>, time: real)
    ensures AtTime(SortByTime(jobs), time) == AtTime(jobs, time)
  {
    if jobs != [] {
      SortSorts(jobs[1..]);
      SortStable(jobs[1..], time);
      InsertStable(jobs[0], SortByTime(jobs[1..]), time);
    }
  }

  /** Sorting keeps the tasks, orders them by time, and is stable. */
  lemma SortIsStable(jobs: seq<Job>, time: real)
    ensures Sorted(SortByTime(jobs)) && multiset(SortByTime(jobs)) == multiset(jobs)
    ensures AtTime(SortByTime(jobs), time) == AtTime(jobs, time)
  {
    SortSorts(jobs);
    SortKeeps(jobs);
    SortStable(jobs, time);
  }

  /** How many tasks at the head are due exactly at a tick. */
  function Due(jobs: seq<Job>, tick: nat): (n: nat)
    ensures n <= |jobs|
  {
    if jobs == [] || jobs[0].time != tick as real then 0 else 1 + Due(jobs[1..], tick)
  }

  function TasksOf(jobs: seq<Job>): seq<TaskId> {
    seq(|jobs|, i requires 0 <= i < |jobs| => jobs[i].task)
  }

  /** The pool with more tasks waiting. */
  function Gain(p: Pool, tasks: seq<TaskId>): Pool {
    p.(tasks := p.tasks + tasks)
  }

  /** The inner loop of create_full_taskpool, from one await to the next. */
  method ReleaseDue(pool: TaskPool, jobs: seq<Job>, tick: nat) returns (rest: seq<Job>)
    modifies pool
    ensures rest == jobs[Due(jobs, tick)..]
    ensures pool.View() == Gain(old(pool.View()), TasksOf(jobs[..Due(jobs, tick)]))
  {
    rest := jobs;
    var n := 0;
    while rest != [] && rest[0].time == tick as real
      invariant 0 <= n <= |jobs| && rest == jobs[n..]
      invariant Due(jobs, tick) == n + Due(rest, tick)
      invariant pool.View() == Gain(old(pool.View()), TasksOf(jobs[..n]))
    {
      pool.tasks := pool.tasks + [rest[0].task];
      assert TasksOf(jobs[..n + 1]) == TasksOf(jobs[..n]) + [rest[0].task];
      rest := rest[1..];
      n := n + 1;
    }
  }

  /** How many tasks the outer loop has released after its first n ticks, starting at tick 0. */
  function Released(jobs: seq<Job>, n: nat): (k: nat)
    ensures k <= |jobs|
  {
    if n == 0 then 0
    else
      var before := Released(jobs, n - 1);
      before + Due(jobs[before..], n - 1)
  }

  lemma {:induction false} ReleasedStays(jobs: seq<Job>, done: nat, n: nat)
    requires done <= n && Released(jobs, done) == |jobs|
    ensures Released(jobs, n) == |jobs|
  {
    if done < n {
      ReleasedStays(jobs, done, n - 1);
    }
  }

  lemma SplitTasks(jobs: seq<Job>, k: nat, due: nat)
    requires k + due <= |jobs|
    ensures TasksOf(jobs[..k]) + TasksOf(jobs[k..][..due]) == TasksOf(jobs[..k + due])
    ensures jobs[k..][due..] == jobs[k + due..]
  {
  }

  lemma TickGains(p: Pool, jobs: seq<Job>, n: nat)
    ensures var k, next := Released(jobs, n), Released(jobs, n + 1);
      var due := Due(jobs[k..], n);
      && Gain(Gain(p, TasksOf(jobs[..k])), TasksOf(jobs[k..][..due])) == Gain(p, TasksOf(jobs[..next]))
      && jobs[k..][due..] == jobs[next..]
  {
    var k := Released(jobs, n);
    var due := Due(jobs[k..], n);
    SplitTasks(jobs, k, due);
    assert (p.tasks + TasksOf(jobs[..k])) + TasksOf(jobs[k..][..due]) == p.tasks + TasksOf(jobs[..k + due]);
  }

  /** create_full_taskpool as far as its first ticks, with nothing else happening at its awaits: the
      pool gains exactly what is released by then, in the order of times. */
  method ReleaseFor(pool: TaskPool, jobs: seq<Job>, ticks: nat) returns (rest: seq<Job>)
    modifies pool
    ensures var sorted := SortByTime(jobs); var k := Released(sorted, ticks);
      rest == sorted[k..] && pool.View() == Gain(old(pool.View()), TasksOf(sorted[..k]))
  {
    var sorted := SortByTime(jobs);
    rest := sorted;
    var currentTime := 0;
    assert Gain(pool.View(), TasksOf(sorted[..0])) == pool.View();
    while rest != [] && currentTime < ticks
      invariant 0 <= currentTime <= ticks && rest == sorted[Released(sorted, currentTime)..]
      invariant pool.View() == Gain(old(pool.View()), TasksOf(sorted[..Released(sorted, currentTime)]))
      decreases ticks - currentTime
    {
      TickGains(old(pool.View()), sorted, currentTime);
      rest := ReleaseDue(pool, rest, currentTime);
      currentTime := currentTime + 1;
    }
    if rest == [] {
      ReleasedStays(sorted, currentTime, ticks);
    }
  }

  /** Times that a tick can meet. */
  ghost predicate Whole(time: real) {
    time >= 0.0 && time == time.Floor as real
  }

  /** Nothing that the loop never releases comes before a tick. */
  ghost predicate Clear(jobs: seq<Job>, n: nat) {
    forall i | 0 <= i < |jobs| && jobs[i].time < n as real :: Whole(jobs[i].time)
  }

  lemma SplitSorted(jobs: seq<Job>, k: nat)
    requires Sorted(jobs) && k <= |jobs|
    ensures Sorted(jobs[k..]) && forall i, j | 0 <= i < k <= j < |jobs| :: jobs[i].time <= jobs[j].time
  {
  }

  lemma {:induction false} DueAreDue(jobs: seq<Job>, tick: nat)
    ensures forall i | 0 <= i < Due(jobs, tick) :: jobs[i].time == tick as real
    ensures Due(jobs, tick) < |jobs| ==> jobs[Due(jobs, tick)].time != tick as real
  {
    if jobs != [] && jobs[0].time == tick as real {
      DueAreDue(jobs[1..], tick);
    }
  }

  /** Whatever has been released after n ticks had a tick of those as its time. */
  lemma {:induction false} ReleasedMetTicks(jobs: seq<Job>, n: nat)
    ensures forall i | 0 <= i < Released(jobs, n) :: Whole(jobs[i].time) && jobs[i].time < n as real
  {
    if n > 0 {
      var k := Released(jobs, n - 1);
      ReleasedMetTicks(jobs, n - 1);
      DueAreDue(jobs[k..], n - 1);
      assert forall i | k <= i < Released(jobs, n) :: jobs[i] == jobs[k..][i - k];
    }
  }

  /** After n ticks exactly the tasks with a time below n have been released, if all of these can be;
      otherwise the loop is stuck at one that cannot. */
  lemma {:induction false} ReleasedOnTime(jobs: seq<Job>, n: nat)
    requires Sorted(jobs)
    ensures var k := Released(jobs, n);
      && Before(jobs[..k], n as real)
      && (if Clear(jobs, n) then From(jobs[k..], n as real) else k < |jobs| && jobs[k].time < n as real)
  {
    var k := Released(jobs, n);
    ReleasedMetTicks(jobs, n);
    if Clear(jobs, n) {
      AllClear(jobs, n);
    } else {
      var i :| 0 <= i < |jobs| && jobs[i].time < n as real && !Whole(jobs[i].time);
      assert i >= k;
      SplitSorted(jobs, k);
    }
  }

  lemma {:induction false} AllClear(jobs: seq<Job>, n: nat)
    requires Sorted(jobs) && Clear(jobs, n)
    ensures From(jobs[Released(jobs, n)..], n as real)
  {
    if n == 0 {
      assert forall i | 0 <= i < |jobs| :: jobs[i].time < 0.0 ==> Whole(jobs[i].time);
    } else {
      AllClear(jobs, n - 1);
      NextTick(jobs, Released(jobs, n - 1), n);
    }
  }

  lemma NextTick(jobs: seq<Job>, k: nat, n: nat)
    requires Sorted(jobs) && Clear(jobs, n) && n > 0 && k <= |jobs| && From(jobs[k..], (n - 1) as real)
    ensures From(jobs[k + Due(jobs[k..], n - 1)..], n as real)
  {
    var next := k + Due(jobs[k..], n - 1);
    DueAreDue(jobs[k..], n - 1);
    if next < |jobs| {
      assert jobs[k..][next - k] == jobs[next];
      WholeAbove(jobs[next].time, n);
    }
    FromHead(jobs, next, n as real);
  }

  lemma WholeAbove(time: real, n: nat)
    requires n > 0 && time >= (n - 1) as real && time != (n - 1) as real && (time < n as real ==> Whole(time))
    ensures time >= n as real
  {
    if time < n as real {
      NothingBetween(time.Floor, n);
    }
  }

  lemma NothingBetween(k: int, n: nat)
    requires n > 0 && (n - 1) as real < k as real
    ensures k as real >= n as real
  {
    var difference := (k - n) as real;
    assert difference == k as real - n as real && difference > -1.0;
    assert k - n > -1;
  }

  lemma FromHead(jobs: seq<Job>, next: nat, bound: real)
    requires Sorted(jobs) && next <= |jobs| && (next < |jobs| ==> jobs[next].time >= bound)
    ensures From(jobs[next..], bound)
  {
    assert forall i | 0 <= i < |jobs| - next :: jobs[next..][i] == jobs[next + i];
  }

  lemma ClearSorted(jobs: seq<Job>, n: nat)
    ensures Clear(jobs, n) <==> Clear(SortByTime(jobs), n)
  {
    SortIsStable(jobs, 0.0);
    ClearBag(jobs, n);
    ClearBag(SortByTime(jobs), n);
  }

  lemma ClearBag(jobs: seq<Job>, n: nat)
    ensures Clear(jobs, n) <==> forall j | j in multiset(jobs) :: j.time < n as real ==> Whole(j.time)
  {
    assert forall i | 0 <= i < |jobs| :: jobs[i] in multiset(jobs);
  }

  /** At tick n the loop releases exactly the tasks whose time is n, in their original order, unless it
      is stuck; then it releases none. */
  lemma ReleasedAtTick(jobs: seq<Job>, n: nat)
    ensures var left := SortByTime(jobs)[Released(SortByTime(jobs), n)..];
      left[..Due(left, n)] == if Clear(jobs, n) then AtTime(jobs, n as real) else []
  {
    var sorted := SortByTime(jobs);
    SortIsStable(jobs, n as real);
    ClearSorted(jobs, n);
    ReleasedOnTime(sorted, n);
    if Clear(jobs, n) {
      TickReleases(sorted, Released(sorted, n), n);
    }
  }

  lemma TickReleases(jobs: seq<Job>, k: nat, n: nat)
    requires Sorted(jobs) && k <= |jobs| && Before(jobs[..k], n as real) && From(jobs[k..], n as real)
    ensures jobs[k..][..Due(jobs[k..], n)] == AtTime(jobs, n as real)
  {
    var left := jobs[k..];
    var due := Due(left, n);
    SplitSorted(jobs, k);
    DueAreDue(left, n);
    LaterOnes(left, due, n);
    AtTimeSlice(jobs[..k], left[..due], left[due..], n as real);
    Glue(jobs, k, due);
  }

  lemma LaterOnes(left: seq<Job>, due: nat, n: nat)
    requires Sorted(left) && From(left, n as real) && due <= |left|
    requires due < |left| ==> left[due].time != n as real
    ensures forall i | 0 <= i < |left[due..]| :: left[due..][i].time != n as real
  {
    SplitSorted(left, due);
  }

  lemma Glue(jobs: seq<Job>, k: nat, due: nat)
    requires k + due <= |jobs|
    ensures jobs[..k] + (jobs[k..][..due] + jobs[k..][due..]) == jobs
  {
  }

  lemma AtTimeSlice(early: seq<Job>, due: seq<Job>, late: seq<Job>, time: real)
    requires Before(early, time)
    requires forall i | 0 <= i < |due| :: due[i].time == time
    requires forall i | 0 <= i < |late| :: late[i].time != time
    ensures AtTime(early + (due + late), time) == due
  {
    AtTimeAppend(early, due + late, time);
    AtTimeAppend(due, late, time);
    AtTimeNone(early, time);
    AtTimeNone(late, time);
    AtTimeAll(due, time);
  }

  lemma {:induction false} AtTimeAppend(a: seq<Job>, b: seq<Job>, time: real)
    ensures AtTime(a + b, time) == AtTime(a, time) + AtTime(b, time)
  {
    if a == [] {
      assert a + b == b;
    } else {
      var first := Match(a[0], time);
      assert (a + b)[0] == a[0] && (a + b)[1..] == a[1..] + b;
      AtTimeAppend(a[1..], b, time);
      assert AtTime(a + b, time) == first + AtTime(a[1..] + b, time);
      assert AtTime(a, time) == first + AtTime(a[1..], time);
    }
  }

  lemma {:induction false} AtTimeNone(jobs: seq<Job>, time: real)
    requires forall i | 0 <= i < |jobs| :: jobs[i].time != time
    ensures AtTime(jobs, time) == []
  {
    if jobs != [] {
      AtTimeNone(jobs[1..], time);
    }
  }

  lemma {:induction false} AtTimeAll(jobs: seq<Job>, time: real)
    requires forall i | 0 <= i < |jobs| :: jobs[i].time == time
    ensures AtTime(jobs, time) == jobs
  {
    if jobs != [] {
      AtTimeAll(jobs[1..], time);
    }
  }

  /** The outer loop is done after n ticks exactly when every time is a whole number in [0, n): it takes
      one tick more than the latest time, and one negative or fractional time keeps it from ever ending. */
  lemma ReleaseEnds(jobs: seq<Job>, n: nat)
    ensures var sorted := SortByTime(jobs);
      Released(sorted, n) == |sorted| <==> forall i | 0 <= i < |jobs| :: Whole(jobs[i].time) && jobs[i].time < n as real
  {
    var sorted := SortByTime(jobs);
    SortIsStable(jobs, 0.0);
    ReleasedMetTicks(sorted, n);
    ReleasedOnTime(sorted, n);
    MetBag(jobs, n);
    MetBag(sorted, n);
    if Released(sorted, n) < |sorted| {
      assert sorted[Released(sorted, n)..][0] == sorted[Released(sorted, n)];
    }
  }

  lemma MetBag(jobs: seq<Job>, n: nat)
    ensures (forall i | 0 <= i < |jobs| :: Whole(jobs[i].time) && jobs[i].time < n as real) <==>
      (forall j | j in multiset(jobs) :: Whole(j.time) && j.time < n as real)
  {
    assert forall i | 0 <= i < |jobs| :: jobs[i] in multiset(jobs);
  }

  /** The tasks registered by the events of a run, in order. */
  function Registrations(events: seq<Event>): seq<TaskId> {
    if events == [] then []
    else (if events[0].Register? then [events[0].task] else []) + Registrations(events[1..])
  }

  lemma RegisteredByStep(s: Farm, e: Event)
    requires Valid(s.pool) && Possible(s, e)
    ensures Next(s, e).log.registered == s.log.registered + if e.Register? then multiset{e.task} else multiset{}
  {
  }

  lemma {:induction false} RegisteredByRun(s: Farm, events: seq<Event>, r: Farm)
    requires Run(s, events, r)
    ensures r.log.registered == s.log.registered + multiset(Registrations(events))
    decreases |events|
  {
    if events != [] {
      RegisteredByStep(s, events[0]);
      RegisteredByRun(Next(s, events[0]), events[1..], r);
    }
  }

  /** Whatever else happens at the loop's awaits: when a run of the farm has registered what the loop
      releases in its first n ticks, then these tasks, and a copy for each theft, are what waits, is
      queued, is in hand or is finished. */
  lemma ReleasedInRun(jobs: seq<Job>, n: nat, events: seq<Event>, r: Farm)
    requires Run(Start, events, r)
    requires Registrations(events) == TasksOf(SortByTime(jobs)[..Released(SortByTime(jobs), n)])
    ensures WellKeyed(r.pool)
    ensures multiset(r.pool.tasks) + Held(r.pool) + InHand(r.pool) + r.log.finished
         == multiset(TasksOf(SortByTime(jobs)[..Released(SortByTime(jobs), n)])) + r.log.stolen
  {
    RegisteredByRun(Start, events, r);
    assert Reachable(r);
    Conservation(r);
  }
}
