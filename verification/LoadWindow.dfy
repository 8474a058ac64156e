/** The sliding window of load samples and the decision taken from it. */
module LoadWindow {
  import opened Queues
  import opened PoolModel

  const WINDOW_SIZE: nat := 2
  const MAX_JOBS_PER_WORKER: real := 5.0
  const MIN_JOBS_PER_WORKER: real := 1.0

  datatype Action = Nothing | Create | Kill(w: WorkerId)

  /** The samples, oldest first, and the last reported allocation in its order. */
  datatype Window = Window(samples: seq<real>, order: seq<WorkerId>, load: map<WorkerId, nat>)

  const NoWindow := Window([], [], map[])

  /** The allocation lists each worker once. */
  ghost predicate Listed(order: seq<WorkerId>, load: map<WorkerId, nat>) {
    NoDup(order) && forall w :: w in order <==> w in load
  }

  function Sample(h: Summary): real {
    var total := (h.waiting + h.running) as real;
    if |h.order| > 0 then total / |h.order| as real else total
  }

  function Update(w: Window, h: Summary): Window {
    var samples := w.samples + [Sample(h)];
    Window(if |samples| > WINDOW_SIZE then samples[1..] else samples, h.order, h.load)
  }

  function Sum(values: seq<real>): real {
    if values == [] then 0.0 else Sum(values[..|values| - 1]) + values[|values| - 1]
  }

  /** `round(x, 2)`: to the nearest hundredth, halves to the even one. */
  function Round2(x: real): real {
    var below := (x * 100.0).Floor;
    var over := x * 100.0 - below as real;
    var hundredths := if over < 0.5 || (over == 0.5 && below % 2 == 0) then below else below + 1;
    hundredths as real / 100.0
  }

  function ExactMean(values: seq<real>): real
    requires values != []
  {
    Sum(values) / |values| as real
  }

  function Mean(values: seq<real>): real
    requires values != []
  {
    Round2(ExactMean(values))
  }

  /** `min(allocation, key=allocation.get)`: the first least loaded worker in the allocation's order. */
  function LeastLoaded(order: seq<WorkerId>, load: map<WorkerId, nat>): (w: WorkerId)
    requires order != [] && forall w | w in order :: w in load
    ensures w in order && forall v | v in order :: load[w] <= load[v]
    ensures exists i :: 0 <= i < |order| && order[i] == w && forall j | 0 <= j < i :: load[w] < load[order[j]]
  {
    if |order| == 1 then order[0]
    else
      var rest := LeastLoaded(order[1..], load);
      if load[rest] < load[order[0]] then
        assert exists i :: 0 <= i < |order| && order[i] == rest
                           && forall j | 0 <= j < i :: load[rest] < load[order[j]] by {
          var i :| 0 <= i < |order[1..]| && order[1..][i] == rest
                   && forall j | 0 <= j < i :: load[rest] < load[order[1..][j]];
          assert order[i + 1] == rest;
          assert forall j | 0 <= j < i + 1 :: j == 0 || order[j] == order[1..][j - 1];
        }
        rest
      else
        assert order[0] == order[0];
        order[0]
  }

  function GetAction(w: Window, current: seq<WorkerId>, maxWorkers: nat): Action
    requires Listed(w.order, w.load)
  {
    var number := |w.order|;
    if w.samples == [] then Nothing
    else
      var latest := w.samples[|w.samples| - 1];
      if latest > 0.0 && number == 0 then Create
      else
        var mean := Mean(w.samples);
        if MIN_JOBS_PER_WORKER > mean then
          if |current| == 0 then Nothing
          else if latest > 0.0 && number == 1 then Nothing
          else if |current| < number then Nothing
          else if number > 0 then Kill(LeastLoaded(w.order, w.load))
          else Kill(current[0])
        else if mean > MAX_JOBS_PER_WORKER then
          if |current| == maxWorkers then Nothing
          else if |current| > number then Nothing
          else Create
        else Nothing
  }

  /** The class the instance manager keeps. */
  class TimeWindow {
    var meanTotalTasks: seq<real>
    var order: seq<WorkerId>
    var workerAllocation: map<WorkerId, nat>

    function View(): Window
      reads this
    {
      Window(meanTotalTasks, order, workerAllocation)
    }

    constructor ()
      ensures View() == NoWindow
    {
      meanTotalTasks, order, workerAllocation := [], [], map[];
    }

    method UpdateNodeManager(h: Summary)
      modifies this
      ensures View() == Update(old(View()), h)
    {
      var numWorkers := |h.order|;
      if numWorkers > 0 {
        meanTotalTasks := meanTotalTasks + [(h.waiting + h.running) as real / numWorkers as real];
      } else {
        meanTotalTasks := meanTotalTasks + [(h.waiting + h.running) as real];
      }
      order, workerAllocation := h.order, h.load;
      if |meanTotalTasks| > WINDOW_SIZE {
        meanTotalTasks := meanTotalTasks[1..];
      }
    }
  }

  function Updates(w: Window, hs: seq<Summary>): Window {
    if hs == [] then w else Update(Updates(w, hs[..|hs| - 1]), hs[|hs| - 1])
  }

  function Samples(hs: seq<Summary>): seq<real> {
    seq(|hs|, i requires 0 <= i < |hs| => Sample(hs[i]))
  }

  function LastOf(values: seq<real>, n: nat): seq<real> {
    if |values| <= n then values else values[|values| - n..]
  }

  /** After any heartbeats the window holds exactly the last WINDOW_SIZE samples. */
  lemma {:induction false} WindowIsLast(w: Window, hs: seq<Summary>)
    requires |w.samples| <= WINDOW_SIZE
    ensures Updates(w, hs).samples == LastOf(w.samples + Samples(hs), WINDOW_SIZE)
  {
    if hs == [] {
      assert w.samples + Samples(hs) == w.samples;
    } else {
      var front := hs[..|hs| - 1];
      WindowIsLast(w, front);
      assert Samples(hs) == Samples(front) + [Sample(hs[|hs| - 1])];
      var all := w.samples + Samples(front);
      assert w.samples + Samples(hs) == all + [Sample(hs[|hs| - 1])];
    }
  }

  /** The rounded tests in terms of the exact value: each threshold moves by half a hundredth, and
      the two halfway points round to the threshold itself. */
  lemma RoundedTests(x: real)
    ensures MIN_JOBS_PER_WORKER > Round2(x) <==> x < 0.995
    ensures Round2(x) > MAX_JOBS_PER_WORKER <==> x > 5.005
  {
    var below := (x * 100.0).Floor;
    var over := x * 100.0 - below as real;
    var hundredths := if over < 0.5 || (over == 0.5 && below % 2 == 0) then below else below + 1;
    assert Round2(x) == hundredths as real / 100.0;
    assert MIN_JOBS_PER_WORKER > Round2(x) <==> hundredths <= 99;
    assert Round2(x) > MAX_JOBS_PER_WORKER <==> hundredths >= 501;
  }

  /** When each action is taken, in terms of the exact mean, and whom a kill names; before the first
      heartbeat there is none. */
  lemma ActionMeaning(w: Window, current: seq<WorkerId>, maxWorkers: nat)
    requires Listed(w.order, w.load)
    ensures var action, number := GetAction(w, current, maxWorkers), |w.order|;
      if w.samples == [] then action.Nothing?
      else
        var latest, mean := w.samples[|w.samples| - 1], ExactMean(w.samples);
        && (action.Create? <==>
              (latest > 0.0 && number == 0) || (mean > 5.005 && |current| != maxWorkers && |current| <= number))
        && (action.Kill? <==> mean < 0.995 && |current| >= number && |current| > 0 && !(latest > 0.0 && number <= 1))
        && (action.Kill? ==> action.w == if number > 0 then LeastLoaded(w.order, w.load) else current[0])
  {
    if w.samples != [] {
      RoundedTests(ExactMean(w.samples));
    }
  }
}
