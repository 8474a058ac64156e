/** Identifiers, and dictionaries of task queues kept with the insertion order of their keys. */
module Queues {
  datatype TaskId = TaskId(uuid: nat)
  datatype WorkerId = WorkerId(instance: nat)
  datatype Option<+T> = None | Some(value: T)

  type Queues = map<WorkerId, seq<TaskId>>

  /** The two views of a queue that the counting arguments need. */
  datatype Part = Whole | Behind

  ghost predicate NoDup<T>(s: seq<T>) {
    forall i, j :: 0 <= i < j < |s| ==> s[i] != s[j]
  }

  /** All the tasks of a queue, or only those behind its head. */
  function See(part: Part, queue: seq<TaskId>): multiset<TaskId> {
    match part
    case Whole => multiset(queue)
    case Behind => if queue == [] then multiset{} else multiset(queue[1..])
  }

  /** The tasks seen in the queues of the given keys, with multiplicity. */
  function Collect(part: Part, keys: seq<WorkerId>, queues: Queues): multiset<TaskId>
    requires forall k | k in keys :: k in queues
  {
    if keys == [] then multiset{}
    else See(part, queues[keys[0]]) + Collect(part, keys[1..], queues)
  }

  /** `del dictionary[key]` on the key order. */
  function Without(keys: seq<WorkerId>, key: WorkerId): (r: seq<WorkerId>)
    ensures forall k :: k in r <==> k in keys && k != key
  {
    if keys == [] then []
    else if keys[0] == key then Without(keys[1..], key)
    else [keys[0]] + Without(keys[1..], key)
  }

  /** `[x for x in xs if x not in drop]`. */
  function KeepOut(xs: seq<WorkerId>, drop: seq<WorkerId>): (r: seq<WorkerId>)
    ensures forall k :: k in r <==> k in xs && k !in drop
  {
    if xs == [] then []
    else if xs[0] in drop then KeepOut(xs[1..], drop)
    else [xs[0]] + KeepOut(xs[1..], drop)
  }

  /** `min(lengths, key=lengths.get)`: the first key, in insertion order, with a shortest queue. */
  function Shortest(keys: seq<WorkerId>, queues: Queues): (w: WorkerId)
    requires keys != [] && forall k | k in keys :: k in queues
    ensures w in keys
    ensures forall k | k in keys :: |queues[w]| <= |queues[k]|
    ensures exists i :: 0 <= i < |keys| && keys[i] == w && forall j | 0 <= j < i :: |queues[w]| < |queues[keys[j]]|
  {
    if |keys| == 1 then keys[0]
    else
      var rest := Shortest(keys[1..], queues);
      if |queues[rest]| < |queues[keys[0]]| then
        assert exists i :: 0 <= i < |keys| && keys[i] == rest
                           && forall j | 0 <= j < i :: |queues[rest]| < |queues[keys[j]]| by {
          var i :| 0 <= i < |keys[1..]| && keys[1..][i] == rest
                   && forall j | 0 <= j < i :: |queues[rest]| < |queues[keys[1..][j]]|;
          assert keys[i + 1] == rest;
          assert forall j | 0 <= j < i + 1 :: j == 0 || keys[j] == keys[1..][j - 1];
        }
        rest
      else
        assert keys[0] == keys[0];
        keys[0]
  }

  /** `max(lengths, key=lengths.get)`: the first key, in insertion order, with a longest queue. */
  function Longest(keys: seq<WorkerId>, queues: Queues): (w: WorkerId)
    requires keys != [] && forall k | k in keys :: k in queues
    ensures w in keys
    ensures forall k | k in keys :: |queues[k]| <= |queues[w]|
    ensures exists i :: 0 <= i < |keys| && keys[i] == w && forall j | 0 <= j < i :: |queues[keys[j]]| < |queues[w]|
  {
    if |keys| == 1 then keys[0]
    else
      var rest := Longest(keys[1..], queues);
      if |queues[rest]| > |queues[keys[0]]| then
        assert exists i :: 0 <= i < |keys| && keys[i] == rest
                           && forall j | 0 <= j < i :: |queues[keys[j]]| < |queues[rest]| by {
          var i :| 0 <= i < |keys[1..]| && keys[1..][i] == rest
                   && forall j | 0 <= j < i :: |queues[keys[1..][j]]| < |queues[rest]|;
          assert keys[i + 1] == rest;
          assert forall j | 0 <= j < i + 1 :: j == 0 || keys[j] == keys[1..][j - 1];
        }
        rest
      else
        assert keys[0] == keys[0];
        keys[0]
  }

  lemma NoDupTail<T>(s: seq<T>)
    requires NoDup(s) && s != []
    ensures NoDup(s[1..]) && s[0] !in s[1..]
  {
  }

  lemma NoDupCons<T>(x: T, s: seq<T>)
    requires NoDup(s) && x !in s
    ensures NoDup([x] + s)
  {
  }

  lemma NoDupAppend<T>(a: seq<T>, b: seq<T>)
    requires NoDup(a) && NoDup(b) && forall i | 0 <= i < |a| :: a[i] !in b
    ensures NoDup(a + b)
  {
    forall i, j | 0 <= i < j < |a + b|
      ensures (a + b)[i] != (a + b)[j]
    {
      if i < |a| <= j {
        assert (a + b)[j] == b[j - |a|];
      }
    }
  }

  lemma {:induction false} NoDupWithout(keys: seq<WorkerId>, key: WorkerId)
    requires NoDup(keys)
    ensures NoDup(Without(keys, key))
  {
    if keys != [] {
      NoDupWithout(keys[1..], key);
      if keys[0] != key {
        NoDupCons(keys[0], Without(keys[1..], key));
      }
    }
  }

  lemma {:induction false} NoDupKeepOut(xs: seq<WorkerId>, drop: seq<WorkerId>)
    requires NoDup(xs)
    ensures NoDup(KeepOut(xs, drop))
  {
    if xs != [] {
      NoDupKeepOut(xs[1..], drop);
    }
  }

  lemma Exchange<T>(h: multiset<T>, a: multiset<T>, b: multiset<T>, c: multiset<T>, d: multiset<T>)
    requires a + b == c + d
    ensures (h + a) + b == (h + c) + d
  {
    assert (h + a) + b == h + (a + b);
    assert (h + c) + d == h + (c + d);
  }

  lemma {:induction false} KeyCount(keys: seq<WorkerId>, s: set<WorkerId>)
    requires NoDup(keys) && forall k :: k in keys <==> k in s
    ensures |s| == |keys|
  {
    if keys == [] {
      assert s == {};
    } else {
      NoDupTail(keys);
      KeyCount(keys[1..], s - {keys[0]});
    }
  }

  /** Keys that agree on every queue collect the same tasks. */
  lemma {:induction false} CollectSame(part: Part, keys: seq<WorkerId>, a: Queues, b: Queues)
    requires forall k | k in keys :: k in a && k in b && a[k] == b[k]
    ensures Collect(part, keys, a) == Collect(part, keys, b)
  {
    if keys != [] {
      CollectSame(part, keys[1..], a, b);
    }
  }

  /** Replacing one queue exchanges exactly what is seen of it. */
  lemma {:induction false} CollectUpdate(
    part: Part, keys: seq<WorkerId>, queues: Queues, w: WorkerId, queue: seq<TaskId>)
    requires NoDup(keys) && w in keys && forall k | k in keys :: k in queues
    ensures Collect(part, keys, queues[w := queue]) + See(part, queues[w])
         == Collect(part, keys, queues) + See(part, queue)
  {
    if keys[0] == w {
      CollectSame(part, keys[1..], queues, queues[w := queue]);
    } else {
      CollectUpdate(part, keys[1..], queues, w, queue);
      var after := queues[w := queue];
      var head := See(part, queues[keys[0]]);
      assert after[keys[0]] == queues[keys[0]];
      assert Collect(part, keys, after) == head + Collect(part, keys[1..], after);
      assert Collect(part, keys, queues) == head + Collect(part, keys[1..], queues);
      Exchange(head, Collect(part, keys[1..], after), See(part, queues[w]),
               Collect(part, keys[1..], queues), See(part, queue));
    }
  }

  lemma CollectGain(
    part: Part, keys: seq<WorkerId>, queues: Queues, w: WorkerId, queue: seq<TaskId>, gain: multiset<TaskId>)
    requires NoDup(keys) && w in keys && forall k | k in keys :: k in queues
    requires See(part, queue) == See(part, queues[w]) + gain
    ensures Collect(part, keys, queues[w := queue]) == Collect(part, keys, queues) + gain
  {
    CollectUpdate(part, keys, queues, w, queue);
    Cancel(Collect(part, keys, queues[w := queue]), See(part, queues[w]), Collect(part, keys, queues), gain);
  }

  lemma CollectLoss(
    part: Part, keys: seq<WorkerId>, queues: Queues, w: WorkerId, queue: seq<TaskId>, loss: multiset<TaskId>)
    requires NoDup(keys) && w in keys && forall k | k in keys :: k in queues
    requires See(part, queues[w]) == See(part, queue) + loss
    ensures Collect(part, keys, queues[w := queue]) + loss == Collect(part, keys, queues)
  {
    CollectUpdate(part, keys, queues, w, queue);
    Cancel(Collect(part, keys, queues), See(part, queue), Collect(part, keys, queues[w := queue]), loss);
  }

  lemma Cancel<T>(a: multiset<T>, b: multiset<T>, c: multiset<T>, d: multiset<T>)
    requires a + b == c + (b + d)
    ensures a == c + d
  {
    forall x
      ensures a[x] == (c + d)[x]
    {
      assert (a + b)[x] == (c + (b + d))[x];
    }
  }

  lemma {:induction false} CollectAppend(part: Part, keys: seq<WorkerId>, queues: Queues, w: WorkerId)
    requires w in queues && forall k | k in keys :: k in queues
    ensures Collect(part, keys + [w], queues) == Collect(part, keys, queues) + See(part, queues[w])
  {
    if keys == [] {
      assert keys + [w] == [w];
      assert Collect(part, [w], queues) == See(part, queues[w]) + Collect(part, [], queues);
    } else {
      assert (keys + [w])[1..] == keys[1..] + [w];
      CollectAppend(part, keys[1..], queues, w);
    }
  }

  /** Deleting a key takes exactly its queue away. */
  lemma {:induction false} CollectWithout(part: Part, keys: seq<WorkerId>, queues: Queues, w: WorkerId)
    requires NoDup(keys) && w in keys && forall k | k in keys :: k in queues
    ensures Collect(part, keys, queues) == Collect(part, Without(keys, w), queues) + See(part, queues[w])
  {
    if keys[0] == w {
      WithoutAbsent(keys[1..], w);
    } else {
      CollectWithout(part, keys[1..], queues, w);
    }
  }

  lemma {:induction false} WithoutAbsent(keys: seq<WorkerId>, w: WorkerId)
    requires w !in keys
    ensures Without(keys, w) == keys
  {
    if keys != [] {
      WithoutAbsent(keys[1..], w);
    }
  }

  /** A new key with an empty queue adds nothing. */
  lemma CollectAdmit(part: Part, keys: seq<WorkerId>, queues: Queues, w: WorkerId)
    requires w !in keys && forall k | k in keys :: k in queues
    ensures Collect(part, keys + [w], queues[w := []]) == Collect(part, keys, queues)
  {
    CollectAppend(part, keys, queues[w := []], w);
    CollectSame(part, keys, queues, queues[w := []]);
  }

  /** A removed key takes nothing but its queue. */
  lemma CollectDelete(part: Part, keys: seq<WorkerId>, queues: Queues, w: WorkerId)
    requires NoDup(keys) && w in keys && forall k | k in keys :: k in queues
    ensures Collect(part, keys, queues) == Collect(part, Without(keys, w), queues - {w}) + See(part, queues[w])
  {
    CollectWithout(part, keys, queues, w);
    CollectSame(part, Without(keys, w), queues, queues - {w});
  }

  /** The last task of a queue of at least two, moved to an empty queue. */
  lemma CollectMove(
    part: Part, keys: seq<WorkerId>, queues: Queues, victim: WorkerId, thief: WorkerId, rest: seq<TaskId>, t: TaskId)
    requires NoDup(keys) && victim in keys && thief in keys && victim != thief && forall k | k in keys :: k in queues
    requires queues[thief] == [] && queues[victim] == rest + [t] && rest != []
    ensures var moved := Collect(part, keys, queues[victim := rest][thief := [t]]);
      match part
      case Whole => moved == Collect(part, keys, queues)
      case Behind => moved + multiset{t} == Collect(part, keys, queues)
  {
    assert queues[victim][1..] == rest[1..] + [t];
    CollectLoss(part, keys, queues, victim, rest, multiset{t});
    CollectGain(part, keys, queues[victim := rest], thief, [t], if part.Whole? then multiset{t} else multiset{});
  }

  /** The task taken from the head of a queue. */
  lemma CollectPop(part: Part, keys: seq<WorkerId>, queues: Queues, w: WorkerId)
    requires NoDup(keys) && w in keys && w in queues && queues[w] != [] && forall k | k in keys :: k in queues
    ensures var popped := Collect(part, keys, queues[w := queues[w][1..]]);
      match part
      case Whole => popped + multiset{queues[w][0]} == Collect(part, keys, queues)
      case Behind => popped <= Collect(part, keys, queues)
  {
    var queue := queues[w];
    assert queue == [queue[0]] + queue[1..];
    if part.Whole? {
      CollectLoss(part, keys, queues, w, queue[1..], multiset{queue[0]});
    } else if |queue| == 1 {
      CollectLoss(part, keys, queues, w, queue[1..], multiset{});
    } else {
      assert queue[1..] == [queue[1]] + queue[1..][1..];
      CollectLoss(part, keys, queues, w, queue[1..], multiset{queue[1]});
    }
  }

  /** A task put at the end of a queue. */
  lemma CollectPut(part: Part, keys: seq<WorkerId>, queues: Queues, w: WorkerId, t: TaskId)
    requires NoDup(keys) && w in keys && forall k | k in keys :: k in queues
    ensures var put := Collect(part, keys, queues[w := queues[w] + [t]]);
      match part
      case Whole => put == Collect(part, keys, queues) + multiset{t}
      case Behind => put <= Collect(part, keys, queues) + multiset{t}
  {
    var queue := queues[w] + [t];
    if part.Behind? && queues[w] == [] {
      assert queue[1..] == [];
      CollectGain(part, keys, queues, w, queue, multiset{});
    } else {
      assert part.Behind? ==> queue[1..] == queues[w][1..] + [t];
      CollectGain(part, keys, queues, w, queue, multiset{t});
    }
  }

  lemma {:induction false} BehindWithin(keys: seq<WorkerId>, queues: Queues)
    requires forall k | k in keys :: k in queues
    ensures Collect(Behind, keys, queues) <= Collect(Whole, keys, queues)
  {
    if keys != [] {
      var queue := queues[keys[0]];
      if queue != [] {
        assert queue == [queue[0]] + queue[1..];
      }
      BehindWithin(keys[1..], queues);
    }
  }

  /** A queued task is collected. */
  lemma CollectContains(keys: seq<WorkerId>, queues: Queues, w: WorkerId)
    requires NoDup(keys) && w in keys && forall k | k in keys :: k in queues
    ensures multiset(queues[w]) <= Collect(Whole, keys, queues)
  {
    CollectWithout(Whole, keys, queues, w);
  }
}
