/** Which partitions of a topic a task reads: the global partition table in id order,
    dealt out by striding. */
module Allocation {
  import opened Wrappers

  datatype Broker = Broker(host: string, port: int)

  datatype Partition = Partition(host: Broker, id: int)

  /** The ordered partition list of a table: ids ascend, and every entry is listed. */
  ghost predicate Lists(ps: seq<Partition>, table: map<int, Broker>) {
    && (forall i, j :: 0 <= i < j < |ps| ==> ps[i].id < ps[j].id)
    && (forall i :: 0 <= i < |ps| ==> ps[i].id in table && table[ps[i].id] == ps[i].host)
    && (forall id :: id in table ==> Partition(table[id], id) in ps)
  }

  class GlobalPartitionInformation {
    var partitionMap: map<int, Broker>

    constructor ()
      ensures partitionMap == map[]
    {
      partitionMap := map[];
    }

    method AddPartition(partitionId: int, broker: Broker)
      modifies this
      ensures partitionMap == old(partitionMap)[partitionId := broker]
    {
      partitionMap := partitionMap[partitionId := broker];
    }

    method GetOrderedPartitions() returns (partitions: seq<Partition>)
      ensures Lists(partitions, partitionMap)
    {
      partitions := [];
      var rest := partitionMap.Keys;
      while rest != {}
        invariant rest <= partitionMap.Keys
        invariant forall i, j :: 0 <= i < j < |partitions| ==> partitions[i].id < partitions[j].id
        invariant forall i :: 0 <= i < |partitions| ==>
                    partitions[i].id in partitionMap && partitionMap[partitions[i].id] == partitions[i].host
        invariant forall i, id :: 0 <= i < |partitions| && id in rest ==> partitions[i].id < id
        invariant forall id :: id in partitionMap ==> id in rest || Partition(partitionMap[id], id) in partitions
        decreases |rest|
      {
        var id := Smallest(rest);
        partitions := partitions + [Partition(partitionMap[id], id)];
        rest := rest - {id};
      }
    }
  }

  /** Every `step`-th element from index `i` on. */
  function Share<T>(ps: seq<T>, step: nat, i: nat): seq<T>
    requires step > 0
    decreases |ps| - i
  {
    if i >= |ps| then [] else [ps[i]] + Share(ps, step, i + step)
  }

  /** None is the rejected call: the task index must be below the number of tasks. */
  method CalculatePartitionsForTask(info: GlobalPartitionInformation, totalTasks: int, taskIndex: nat)
    returns (r: Option<seq<Partition>>, ghost ordered: seq<Partition>)
    ensures r.None? <==> taskIndex >= totalTasks
    ensures r.Some? ==> Lists(ordered, info.partitionMap) && r.value == Share(ordered, totalTasks, taskIndex)
  {
    ordered := [];
    if taskIndex >= totalTasks {
      return None, [];
    }
    var partitions := info.GetOrderedPartitions();
    ordered := partitions;
    var taskPartitions := [];
    var i := taskIndex;
    while i < |partitions|
      invariant taskPartitions + Share(partitions, totalTasks, i) == Share(partitions, totalTasks, taskIndex)
      decreases |partitions| - i
    {
      taskPartitions := taskPartitions + [partitions[i]];
      i := i + totalTasks;
    }
    r := Some(taskPartitions);
  }

  /** Position `q` of a task's list holds the partition at `i + q * step`: order is kept. */
  lemma {:induction false} ShareAt<T>(ps: seq<T>, step: nat, i: nat, q: nat)
    requires step > 0 && q < |Share(ps, step, i)|
    ensures i + q * step < |ps| && Share(ps, step, i)[q] == ps[i + q * step]
    decreases q
  {
    if q > 0 {
      ShareAt(ps, step, i + step, q - 1);
      assert i + step + (q - 1) * step == i + q * step;
    }
  }

  lemma {:induction false} ShareShrinks<T>(ps: seq<T>, step: nat, i: nat, j: nat)
    requires step > 0 && i <= j
    ensures |Share(ps, step, j)| <= |Share(ps, step, i)|
    decreases |ps| - i
  {
    if j < |ps| {
      ShareShrinks(ps, step, i + step, j + step);
    }
  }

  /** The lists of any two tasks differ in length by at most one. */
  lemma Balanced<T>(ps: seq<T>, tasks: nat, a: nat, b: nat)
    requires a < tasks && b < tasks
    ensures |Share(ps, tasks, a)| <= |Share(ps, tasks, b)| + 1
  {
    if a >= b {
      ShareShrinks(ps, tasks, b, a);
    } else {
      ShareShrinks(ps, tasks, b, a + tasks);
    }
  }

  /** The lists of tasks 0..t, one after the other. */
  function Dealt<T>(ps: seq<T>, tasks: nat, t: nat): seq<T>
    requires tasks > 0
  {
    if t == 0 then [] else Dealt(ps, tasks, t - 1) + Share(ps, tasks, t - 1)
  }

  /** `d` is a nonnegative multiple of the stride. */
  predicate OnStride(d: int, step: nat)
    requires step > 0
    decreases d
  {
    d == 0 || (d >= step && OnStride(d - step, step))
  }

  lemma {:induction false} ShareGrows<T>(ps: seq<T>, p: T, step: nat, i: nat)
    requires step > 0
    ensures Share(ps + [p], step, i) == Share(ps, step, i) + (if OnStride(|ps| - i, step) then [p] else [])
    decreases |ps| - i
  {
    if i < |ps| {
      ShareGrows(ps, p, step, i + step);
    }
  }

  /** Whose turn it is after counting off `n` times among the tasks. */
  function Turn(n: nat, tasks: nat): (t: nat)
    requires tasks > 0
    ensures t < tasks
    decreases n
  {
    if n < tasks then n else Turn(n - tasks, tasks)
  }

  lemma {:induction false} TurnIsRemainder(n: nat, tasks: nat)
    requires tasks > 0
    ensures Turn(n, tasks) == n % tasks
    decreases n
  {
    if n >= tasks {
      TurnIsRemainder(n - tasks, tasks);
      ModShift(n - tasks, tasks);
    } else {
      ModUnique(n, tasks, 0, n);
    }
  }

  /** A stride from task `t` meets place `n` just when it is the turn of `t`. */
  lemma {:induction false} StrideMeetsTurn(n: nat, tasks: nat, t: nat)
    requires t < tasks
    ensures OnStride(n - t, tasks) <==> Turn(n, tasks) == t
    decreases n
  {
    if n >= tasks {
      StrideMeetsTurn(n - tasks, tasks, t);
    }
  }

  lemma ModShift(d: nat, step: nat)
    requires step > 0
    ensures (d + step) % step == d % step
  {
    assert (d / step + 1) * step == d / step * step + step;
    ModUnique(d + step, step, d / step + 1, d % step);
  }

  lemma AtLeastOneStep(a: int, step: nat)
    requires a >= 1
    ensures a * step >= step
  {
  }

  lemma ModUnique(n: int, step: nat, q: int, r: nat)
    requires step > 0 && r < step && n == q * step + r
    ensures n % step == r && n / step == q
  {
    var q', r' := n / step, n % step;
    assert (q - q') * step == r' - r by {
      assert n == q' * step + r';
      assert (q - q') * step == q * step - q' * step;
    }
    assert (q' - q) * step == r - r' by {
      assert (q' - q) * step == -((q - q') * step);
    }
    if q > q' {
      AtLeastOneStep(q - q', step);
    } else if q < q' {
      AtLeastOneStep(q' - q, step);
    }
  }

  function Dose<T>(here: bool, p: T): multiset<T> {
    if here then multiset{p} else multiset{}
  }

  function Tail<T>(here: bool, p: T): seq<T> {
    if here then [p] else []
  }

  lemma AddTail<T>(before: seq<T>, after: seq<T>, share: seq<T>, p: T, earlier: bool, now: bool)
    requires multiset(after) == multiset(before) + Dose(earlier, p) && !(earlier && now)
    ensures multiset(after + (share + Tail(now, p))) == multiset(before + share) + Dose(earlier || now, p)
  {
  }

  lemma {:induction false} DealtGrows<T>(ps: seq<T>, p: T, tasks: nat, t: nat)
    requires 0 < tasks && t <= tasks
    ensures multiset(Dealt(ps + [p], tasks, t)) == multiset(Dealt(ps, tasks, t)) + Dose(Turn(|ps|, tasks) < t, p)
    decreases t
  {
    if t > 0 {
      var before := t - 1;
      DealtGrows(ps, p, tasks, before);
      DealtStep(ps, p, tasks, before);
      assert before + 1 == t;
    } else {
      DealtNothing(ps, p, tasks);
    }
  }

  lemma DealtNothing<T>(ps: seq<T>, p: T, tasks: nat)
    requires 0 < tasks
    ensures multiset(Dealt(ps + [p], tasks, 0)) == multiset(Dealt(ps, tasks, 0)) + Dose(false, p)
  {
  }

  lemma DealtStep<T>(ps: seq<T>, p: T, tasks: nat, t: nat)
    requires t < tasks
    requires multiset(Dealt(ps + [p], tasks, t)) == multiset(Dealt(ps, tasks, t)) + Dose(Turn(|ps|, tasks) < t, p)
    ensures multiset(Dealt(ps + [p], tasks, t + 1)) == multiset(Dealt(ps, tasks, t + 1))
            + Dose(Turn(|ps|, tasks) < t + 1, p)
  {
    var turn := Turn(|ps|, tasks);
    ShareGrows(ps, p, tasks, t);
    StrideMeetsTurn(|ps|, tasks, t);
    AddTail(Dealt(ps, tasks, t), Dealt(ps + [p], tasks, t), Share(ps, tasks, t), p, turn < t, turn == t);
    assert Share(ps + [p], tasks, t) == Share(ps, tasks, t) + Tail(turn == t, p);
  }

  /** The lists of all tasks together hold every partition exactly as often as the ordered list does. */
  lemma {:induction false} PartitionOfTheList<T>(ps: seq<T>, tasks: nat)
    requires tasks > 0
    ensures multiset(Dealt(ps, tasks, tasks)) == multiset(ps)
    decreases |ps|
  {
    if |ps| == 0 {
      NothingDealt(ps, tasks, tasks);
    } else {
      var front, p := ps[..|ps| - 1], ps[|ps| - 1];
      assert ps == front + [p];
      PartitionOfTheList(front, tasks);
      DealtGrows(front, p, tasks, tasks);
    }
  }

  lemma {:induction false} NothingDealt<T>(ps: seq<T>, tasks: nat, t: nat)
    requires tasks > 0 && ps == []
    ensures Dealt(ps, tasks, t) == []
    decreases t
  {
    if t > 0 {
      NothingDealt(ps, tasks, t - 1);
    }
  }

  /** Where a listed partition that a task has stands in the ordered list. */
  lemma OwnedPlace(ps: seq<Partition>, table: map<int, Broker>, tasks: nat, t: nat, k: nat)
    requires Lists(ps, table) && t < tasks && k < |ps| && ps[k] in Share(ps, tasks, t)
    ensures k % tasks == t
  {
    hide Share;
    var q :| 0 <= q < |Share(ps, tasks, t)| && Share(ps, tasks, t)[q] == ps[k];
    ShareAt(ps, tasks, t, q);
    SamePlace(ps, table, t + q * tasks, k);
    ModUnique(k, tasks, q, t);
  }

  lemma SamePlace(ps: seq<Partition>, table: map<int, Broker>, j: nat, k: nat)
    requires Lists(ps, table) && j < |ps| && k < |ps| && ps[j] == ps[k]
    ensures j == k
  {
  }

  /** A partition goes to one task only: the one its place in the ordered list points at. */
  lemma OwnerIff(ps: seq<Partition>, table: map<int, Broker>, tasks: nat, t: nat, k: nat)
    requires Lists(ps, table) && t < tasks && k < |ps|
    ensures ps[k] in Share(ps, tasks, t) <==> k % tasks == t
  {
    hide Share, Lists;
    if ps[k] in Share(ps, tasks, t) {
      OwnedPlace(ps, table, tasks, t, k);
    }
    if k % tasks == t {
      PlaceOf(k, tasks);
      ShareHas(ps, tasks, t, k / tasks);
    }
  }

  lemma PlaceOf(k: nat, tasks: nat)
    requires tasks > 0
    ensures k % tasks + (k / tasks) * tasks == k && k / tasks >= 0
  {
  }

  lemma {:induction false} ShareHas<T>(ps: seq<T>, step: nat, i: nat, q: nat)
    requires step > 0 && i + q * step < |ps|
    ensures ps[i + q * step] in Share(ps, step, i)
    decreases q
  {
    if q > 0 {
      assert i + step + (q - 1) * step == i + q * step;
      ShareHas(ps, step, i + step, q - 1);
    } else {
      assert Share(ps, step, i)[0] == ps[i];
    }
  }

  lemma Farther(a: nat, b: nat, step: nat)
    requires a < b && step > 0
    ensures a * step < b * step
  {
  }

  /** What a task is given: distinct ids, each with the broker the table names. */
  lemma ShareOfTable(ps: seq<Partition>, table: map<int, Broker>, tasks: nat, t: nat)
    requires Lists(ps, table) && t < tasks
    ensures var mine := Share(ps, tasks, t);
            && (forall a, b :: 0 <= a < b < |mine| ==> mine[a].id < mine[b].id)
            && (forall p :: p in mine ==> p.id in table && table[p.id] == p.host)
  {
    hide Share;
    var mine := Share(ps, tasks, t);
    forall a, b | 0 <= a < b < |mine|
      ensures mine[a].id < mine[b].id
    {
      ShareAt(ps, tasks, t, a);
      ShareAt(ps, tasks, t, b);
      Farther(a, b, tasks);
    }
    forall p | p in mine
      ensures p.id in table && table[p.id] == p.host
    {
      var a :| 0 <= a < |mine| && mine[a] == p;
      ShareAt(ps, tasks, t, a);
    }
  }
}
