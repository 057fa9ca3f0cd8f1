/** Applying an edit script to the mapped items of the previous array: which items are reused,
    created and queued for deletion. */
module Reconcile {
  import opened Wrappers
  import opened EditMatrix
  import opened EditScript

  /** A mapped item: the array entry it was made for and its index observable. */
  class MapItem<T> {
    const arrayEntry: T
    var indexObservable: nat

    constructor (arrayEntry: T, index: nat)
      ensures this.arrayEntry == arrayEntry && indexObservable == index
    {
      this.arrayEntry := arrayEntry;
      indexObservable := index;
    }
  }

  /** What a script does, by position: `add` and `del` hold the moved field of the added entry at a new
      position and of the deleted entry at an old one; `keep` and `home` link the positions of retained entries. */
  datatype Plan = Plan(add: map<int, Option<int>>, del: map<int, Option<int>>, keep: map<int, int>, home: map<int, int>)

  ghost function Moves<T>(script: seq<Entry<T>>): (moves: seq<Option<int>>)
    reads script
    ensures |moves| == |script| && forall k :: 0 <= k < |script| ==> moves[k] == script[k].moved
  {
    seq(|script|, k requires 0 <= k < |script| reads script => script[k].moved)
  }

  /** `moves` are the moved fields of the script's entries. */
  ghost function PlanOf<T>(script: seq<Entry<T>>, moves: seq<Option<int>>, p: nat, q: nat): Plan
    requires |script| == |moves|
    decreases |script|
  {
    if script == [] then Plan(map[], map[], map[], map[])
    else
      var rest, later := script[1..], moves[1..];
      match script[0].status
      case Added => var plan := PlanOf(rest, later, p, q + 1); plan.(add := plan.add[q := moves[0]])
      case Deleted => var plan := PlanOf(rest, later, p + 1, q); plan.(del := plan.del[p := moves[0]])
      case Retained =>
        var plan := PlanOf(rest, later, p + 1, q + 1);
        plan.(keep := plan.keep[q := p], home := plan.home[p := q])
  }

  /** The plan covers the positions from `p` and `q` on: each new one is added or kept, each old one deleted
      or kept, never both. */
  ghost predicate Covers(plan: Plan, p: nat, q: nat, oldLength: nat, newLength: nat) {
    && (forall k :: q <= k < newLength <==> k in plan.add || k in plan.keep)
    && (forall k :: k in plan.add ==> k !in plan.keep)
    && (forall k :: p <= k < oldLength <==> k in plan.del || k in plan.home)
    && (forall k :: k in plan.del ==> k !in plan.home)
    && (forall k :: k in plan.keep ==> plan.keep[k] in plan.home && plan.home[plan.keep[k]] == k)
    && (forall k :: k in plan.home ==> plan.home[k] in plan.keep && plan.keep[plan.home[k]] == k)
  }

  lemma {:induction false} PlanCovers<T>(script: seq<Entry<T>>, moves: seq<Option<int>>, past: seq<T>,
                                         target: seq<T>, p: nat, q: nat)
    requires |script| == |moves| && Turns(script, past, target, p, q)
    ensures p <= |past| && q <= |target| && Covers(PlanOf(script, moves, p, q), p, q, |past|, |target|)
    decreases |script|
  {
    if script != [] {
      hide Covers;
      var rest, later := script[1..], moves[1..];
      match script[0].status
      case Added =>
        PlanCovers(rest, later, past, target, p, q + 1);
        CoversAdded(PlanOf(rest, later, p, q + 1), p, q, |past|, |target|, moves[0]);
      case Deleted =>
        PlanCovers(rest, later, past, target, p + 1, q);
        CoversDeleted(PlanOf(rest, later, p + 1, q), p, q, |past|, |target|, moves[0]);
      case Retained =>
        PlanCovers(rest, later, past, target, p + 1, q + 1);
        CoversRetained(PlanOf(rest, later, p + 1, q + 1), p, q, |past|, |target|);
    }
  }

  lemma CoversAdded(plan: Plan, p: nat, q: nat, oldLength: nat, newLength: nat, moved: Option<int>)
    requires Covers(plan, p, q + 1, oldLength, newLength) && q < newLength
    ensures Covers(plan.(add := plan.add[q := moved]), p, q, oldLength, newLength)
  {
  }

  lemma CoversDeleted(plan: Plan, p: nat, q: nat, oldLength: nat, newLength: nat, moved: Option<int>)
    requires Covers(plan, p + 1, q, oldLength, newLength) && p < oldLength
    ensures Covers(plan.(del := plan.del[p := moved]), p, q, oldLength, newLength)
  {
  }

  lemma CoversRetained(plan: Plan, p: nat, q: nat, oldLength: nat, newLength: nat)
    requires Covers(plan, p + 1, q + 1, oldLength, newLength) && p < oldLength && q < newLength
    ensures Covers(plan.(keep := plan.keep[q := p], home := plan.home[p := q]), p, q, oldLength, newLength)
  {
  }

  /** Every added or deleted entry is where the plan says, and the plan says nothing else. */
  ghost predicate Mirrors<T>(plan: Plan, script: seq<Entry<T>>, past: seq<T>, target: seq<T>)
    reads script
  {
    && (forall e :: e in script && e.status == Added ==>
          && e.index.Some? && 0 <= e.index.value < |target| && e.value == target[e.index.value]
          && e.index.value in plan.add && plan.add[e.index.value] == e.moved)
    && (forall e :: e in script && e.status == Deleted ==>
          && e.index.Some? && 0 <= e.index.value < |past| && e.value == past[e.index.value]
          && e.index.value in plan.del && plan.del[e.index.value] == e.moved)
    && (forall e :: e in script && e.status == Retained ==> e.index == None)
    && (forall k :: k in plan.add ==> ListedAt(script, Added, k))
    && (forall k :: k in plan.del ==> ListedAt(script, Deleted, k))
  }

  ghost predicate ListedAt<T>(script: seq<Entry<T>>, status: Status, k: int) {
    exists e :: e in script && e.status == status && e.index == Some(k)
  }

  lemma ListedLater<T>(e: Entry<T>, rest: seq<Entry<T>>, script: seq<Entry<T>>, status: Status, k: int)
    requires script == [e] + rest && (ListedAt(rest, status, k) || (e.status == status && e.index == Some(k)))
    ensures ListedAt(script, status, k)
  {
  }

  lemma {:induction false} PlanMirrors<T>(script: seq<Entry<T>>, past: seq<T>, target: seq<T>, p: nat, q: nat)
    requires Turns(script, past, target, p, q)
    ensures Mirrors(PlanOf(script, Moves(script), p, q), script, past, target)
    decreases |script|
  {
    if script != [] {
      var e, rest := script[0], script[1..];
      assert script == [e] + rest;
      var p' := if e.status == Added then p else p + 1;
      var q' := if e.status == Deleted then q else q + 1;
      assert Moves(script)[1..] == Moves(rest);
      PlanMirrors(rest, past, target, p', q');
      PlanCovers(rest, Moves(rest), past, target, p', q');
      var plan := PlanOf(script, Moves(script), p, q);
      forall k | k in plan.add
        ensures ListedAt(script, Added, k)
      {
        ListedLater(e, rest, script, Added, k);
      }
      forall k | k in plan.del
        ensures ListedAt(script, Deleted, k)
      {
        ListedLater(e, rest, script, Deleted, k);
      }
    }
  }

  /** Moves link one deleted old position with one added new position holding the same value. */
  ghost predicate Linked<T>(plan: Plan, past: seq<T>, target: seq<T>) {
    && (forall k :: k in plan.add && plan.add[k].Some? ==>
          var p := plan.add[k].value;
          0 <= p < |past| && 0 <= k < |target| && past[p] == target[k] && p in plan.del && plan.del[p] == Some(k))
    && (forall p :: p in plan.del && plan.del[p].Some? ==>
          plan.del[p].value in plan.add && plan.add[plan.del[p].value] == Some(p))
  }

  lemma PairingLinks<T>(script: seq<Entry<T>>, mate: map<Entry<T>, Entry<T>>, plan: Plan, past: seq<T>, target: seq<T>)
    requires Paired(script, mate) && Mirrors(plan, script, past, target)
    ensures Linked(plan, past, target)
  {
    forall k | k in plan.add && plan.add[k].Some?
      ensures var p := plan.add[k].value;
              0 <= p < |past| && 0 <= k < |target| && past[p] == target[k] && p in plan.del && plan.del[p] == Some(k)
    {
      assert ListedAt(script, Added, k);
      var x :| x in script && x.status == Added && x.index == Some(k);
      var y := mate[x];
      assert Partners(x, y) && y.status == Deleted;
    }
    forall p | p in plan.del && plan.del[p].Some?
      ensures plan.del[p].value in plan.add && plan.add[plan.del[p].value] == Some(p)
    {
      assert ListedAt(script, Deleted, p);
      var x :| x in script && x.status == Deleted && x.index == Some(p);
      var y := mate[x];
      assert Partners(x, y) && y.status == Added;
    }
  }

  /** Which old position the item at new position `k` comes from; None for a new item. */
  function Origin(plan: Plan, k: int): Option<int>
    requires k in plan.add || k in plan.keep
  {
    if k in plan.add then plan.add[k] else Some(plan.keep[k])
  }

  /** No old position is the origin of two new ones, and exactly the deleted, unmoved ones are the origin of none. */
  lemma OriginsPartition<T>(plan: Plan, past: seq<T>, target: seq<T>)
    requires Covers(plan, 0, 0, |past|, |target|) && Linked(plan, past, target)
    ensures forall j, k :: 0 <= j < k < |target| && Origin(plan, j).Some? ==> Origin(plan, j) != Origin(plan, k)
    ensures forall k :: 0 <= k < |target| && Origin(plan, k).Some? ==> 0 <= Origin(plan, k).value < |past|
    ensures forall p :: 0 <= p < |past| ==>
              ((p in plan.del && plan.del[p] == None) <==> forall k :: 0 <= k < |target| ==> Origin(plan, k) != Some(p))
  {
    forall p | 0 <= p < |past|
      ensures (p in plan.del && plan.del[p] == None) <==> forall k :: 0 <= k < |target| ==> Origin(plan, k) != Some(p)
    {
      if p in plan.del && plan.del[p].Some? {
        assert Origin(plan, plan.del[p].value) == Some(p);
      } else if p in plan.home {
        assert Origin(plan, plan.home[p]) == Some(p);
      }
    }
  }

  // ----- Interpreting the script -----

  /** From positions `p` and `q` on, `whole` says what `part` says. */
  ghost predicate EndsAs(whole: Plan, part: Plan, p: nat, q: nat) {
    && (forall k :: k >= q ==> (k in whole.add <==> k in part.add) && (k in part.add ==> whole.add[k] == part.add[k]))
    && (forall k :: k >= q ==>
          (k in whole.keep <==> k in part.keep) && (k in part.keep ==> whole.keep[k] == part.keep[k]))
    && (forall k :: k >= p ==> (k in whole.del <==> k in part.del) && (k in part.del ==> whole.del[k] == part.del[k]))
  }

  /** The script from entry `i` on still accounts for the arrays from `p` and `q` on, and the plan with it. */
  ghost predicate Remains<T>(plan: Plan, script: seq<Entry<T>>, moves: seq<Option<int>>, i: nat, past: seq<T>,
                             target: seq<T>, p: nat, q: nat) {
    && i <= |script| == |moves| && Turns(script[i..], past, target, p, q)
    && EndsAs(plan, PlanOf(script[i..], moves[i..], p, q), p, q)
  }

  // What the plan says about entry `i` of the script, and about the entries after it.

  lemma NextAdded<T>(plan: Plan, script: seq<Entry<T>>, moves: seq<Option<int>>, i: nat, past: seq<T>,
                     target: seq<T>, p: nat, q: nat)
    requires i < |script| == |moves| && Remains(plan, script, moves, i, past, target, p, q) && script[i].status == Added
    ensures q < |target| && script[i].value == target[q] && q in plan.add && plan.add[q] == moves[i]
    ensures Remains(plan, script, moves, i + 1, past, target, p, q + 1)
  {
  }

  lemma NextDeleted<T>(plan: Plan, script: seq<Entry<T>>, moves: seq<Option<int>>, i: nat, past: seq<T>,
                       target: seq<T>, p: nat, q: nat)
    requires i < |script| == |moves| && Remains(plan, script, moves, i, past, target, p, q)
             && script[i].status == Deleted
    ensures p < |past| && p in plan.del && plan.del[p] == moves[i]
    ensures Remains(plan, script, moves, i + 1, past, target, p + 1, q)
  {
  }

  lemma NextRetained<T>(plan: Plan, script: seq<Entry<T>>, moves: seq<Option<int>>, i: nat, past: seq<T>,
                        target: seq<T>, p: nat, q: nat)
    requires i < |script| == |moves| && Remains(plan, script, moves, i, past, target, p, q)
             && script[i].status == Retained
    ensures p < |past| && q < |target| && past[p] == target[q] && q in plan.keep && plan.keep[q] == p
            && q !in plan.add && p !in plan.del
    ensures Remains(plan, script, moves, i + 1, past, target, p + 1, q + 1)
  {
    var rest, later := script[i + 1..], moves[i + 1..];
    assert script[i..][0] == script[i] && script[i..][1..] == rest && moves[i..][1..] == later;
    PlanCovers(rest, later, past, target, p + 1, q + 1);
  }

  lemma RemainsAtStart<T>(script: seq<Entry<T>>, moves: seq<Option<int>>, past: seq<T>, target: seq<T>)
    requires |script| == |moves| && Turns(script, past, target, 0, 0)
    ensures Remains(PlanOf(script, moves, 0, 0), script, moves, 0, past, target, 0, 0)
  {
  }

  lemma RemainsAtEnd<T>(plan: Plan, script: seq<Entry<T>>, moves: seq<Option<int>>, past: seq<T>, target: seq<T>,
                        p: nat, q: nat)
    requires Remains(plan, script, moves, |script|, past, target, p, q)
    ensures p == |past| && q == |target|
  {
  }

  /** The items built so far: each shows its entry and index, and is the old item the plan names or a new one. */
  ghost predicate Built<T>(result: seq<MapItem<T>>, last: seq<MapItem<T>>, entries: seq<T>, plan: Plan)
    reads result
  {
    |result| <= |entries| && forall k :: 0 <= k < |result| ==>
      && result[k].arrayEntry == entries[k] && result[k].indexObservable == k
      && (k in plan.add || k in plan.keep)
      && match Origin(plan, k)
         case Some(p) => 0 <= p < |last| && result[k] == last[p]
         case None => result[k] !in last
  }

  /** The items queued for deletion so far stand at the ascending old positions `at`. */
  ghost predicate Queued<T>(deleted: seq<MapItem<T>>, at: seq<int>, last: seq<MapItem<T>>, plan: Plan, p: nat) {
    && p <= |last| && |deleted| == |at|
    && (forall m :: 0 <= m < |at| ==>
          0 <= at[m] < p && at[m] in plan.del && plan.del[at[m]] == None && deleted[m] == last[at[m]])
    && (forall m, n :: 0 <= m < n < |at| ==> at[m] < at[n])
    && (forall k :: 0 <= k < p && k in plan.del && plan.del[k] == None ==> last[k] in deleted)
  }

  /** Every old item is reused once or queued for deletion once; every other item of the result is new. */
  ghost predicate Conserves<T>(last: seq<MapItem<T>>, result: seq<MapItem<T>>, deleted: seq<MapItem<T>>) {
    && AllDistinct(result) && AllDistinct(deleted)
    && (forall m :: m in deleted ==> m in last)
    && (forall m :: m in last ==> (m in result <==> m !in deleted))
  }

  function Entries<T>(items: seq<MapItem<T>>): (r: seq<T>)
    ensures |r| == |items| && forall k :: 0 <= k < |items| ==> r[k] == items[k].arrayEntry
  {
    seq(|items|, k requires 0 <= k < |items| => items[k].arrayEntry)
  }

  /** How many items of the result are no old ones. */
  ghost function NewItems<T>(result: seq<MapItem<T>>, last: seq<MapItem<T>>): nat {
    if result == [] then 0
    else NewItems(result[..|result| - 1], last) + (if result[|result| - 1] in last then 0 else 1)
  }

  lemma NewItemsOn<T>(result: seq<MapItem<T>>, item: MapItem<T>, last: seq<MapItem<T>>)
    ensures NewItems(result + [item], last) == NewItems(result, last) + (if item in last then 0 else 1)
  {
    assert (result + [item])[..|result|] == result;
  }

  lemma EditCountOn<T>(script: seq<Entry<T>>, e: Entry<T>)
    ensures EditCount(script + [e]) == EditCount(script) + (if e.status == Retained then 0 else 1)
  {
    if script != [] {
      EditCountOn(script[1..], e);
      assert (script + [e])[1..] == script[1..] + [e];
    }
  }

  lemma CountsNext<T>(script: seq<Entry<T>>, i: nat)
    requires i < |script|
    ensures EditCount(script[..i + 1]) == EditCount(script[..i]) + (if script[i].status == Retained then 0 else 1)
  {
    assert script[..i + 1] == script[..i] + [script[i]];
    EditCountOn(script[..i], script[i]);
  }

  /** An old item takes the next place of the result. */
  method Reuse<T>(last: seq<MapItem<T>>, result: seq<MapItem<T>>, at: int, ghost entries: seq<T>, ghost plan: Plan)
    returns (longer: seq<MapItem<T>>)
    requires Built(result, last, entries, plan) && AllDistinct(result) && AllDistinct(last) && |result| < |entries|
    requires |result| in plan.add || |result| in plan.keep
    requires Origin(plan, |result|) == Some(at) && 0 <= at < |last| && last[at].arrayEntry == entries[|result|]
    requires forall k :: 0 <= k < |result| ==> Origin(plan, k) != Some(at)
    modifies last[at]
    ensures longer == result + [last[at]] && Built(longer, last, entries, plan) && AllDistinct(longer)
    ensures NewItems(longer, last) == NewItems(result, last)
  {
    hide NewItems;
    var mapData := last[at];
    forall k | 0 <= k < |result|
      ensures result[k] != mapData
    {
      var o := Origin(plan, k);
      if o.Some? {
        assert result[k] == last[o.value] && o.value != at;
      } else {
        assert mapData in last;
      }
    }
    mapData.indexObservable := |result|;
    longer := result + [mapData];
    NewItemsOn(result, mapData, last);
  }

  method Create<T>(last: seq<MapItem<T>>, result: seq<MapItem<T>>, value: T, ghost entries: seq<T>, ghost plan: Plan)
    returns (longer: seq<MapItem<T>>)
    requires Built(result, last, entries, plan) && AllDistinct(result) && |result| < |entries|
             && value == entries[|result|]
    requires |result| in plan.add && plan.add[|result|] == None
    ensures |longer| == |result| + 1 && longer[..|result|] == result && fresh(longer[|result|])
    ensures Built(longer, last, entries, plan) && AllDistinct(longer)
    ensures NewItems(longer, last) == NewItems(result, last) + 1
  {
    hide NewItems;
    var mapData := new MapItem(value, |result|);
    assert mapData !in last && mapData !in result;
    longer := result + [mapData];
    NewItemsOn(result, mapData, last);
  }

  /** Every entry of the script does what it says: an added one puts a new item at its position, or the old item
      it was moved from; a deleted one that was not moved queues its item; and a retained one keeps the item of
      its old place, which is the number of entries before it that are not added, at its new place, the number
      of those that are not deleted. */
  ghost predicate Applies<T>(script: seq<Entry<T>>, last: seq<MapItem<T>>, result: seq<MapItem<T>>,
                             toDelete: seq<MapItem<T>>)
    reads script
  {
    && (forall e :: e in script && e.status == Added ==> Placed(e, last, result))
    && (forall e :: e in script && e.status == Deleted && e.moved == None ==>
          e.index.Some? && 0 <= e.index.value < |last| && last[e.index.value] in toDelete)
    && (forall n :: 0 <= n < |script| && script[n].status == Retained ==> KeptAt(script, n, last, result))
  }

  ghost predicate Placed<T>(e: Entry<T>, last: seq<MapItem<T>>, result: seq<MapItem<T>>)
    reads e
  {
    e.index.Some? && 0 <= e.index.value < |result| &&
    match e.moved
    case None => result[e.index.value] !in last
    case Some(p) => 0 <= p < |last| && result[e.index.value] == last[p]
  }

  ghost predicate KeptAt<T>(script: seq<Entry<T>>, n: nat, last: seq<MapItem<T>>, result: seq<MapItem<T>>)
    requires n < |script|
  {
    var p, q := |Selected(script[..n], Added)|, |Selected(script[..n], Deleted)|;
    p < |last| && q < |result| && result[q] == last[p]
  }

  /** The items are queued in the order of their old places. */
  ghost predicate InOldOrder<T>(toDelete: seq<MapItem<T>>, last: seq<MapItem<T>>) {
    exists at: seq<int> :: AscendsTo(at, toDelete, last)
  }

  ghost predicate AscendsTo<T>(at: seq<int>, toDelete: seq<MapItem<T>>, last: seq<MapItem<T>>) {
    && |at| == |toDelete| && (forall k :: 0 <= k < |at| ==> 0 <= at[k] < |last| && toDelete[k] == last[at[k]])
    && (forall k, m :: 0 <= k < m < |at| ==> at[k] < at[m])
  }

  /** No item queued for deletion shows the entry of a new one. */
  ghost predicate NothingRemade<T>(last: seq<MapItem<T>>, result: seq<MapItem<T>>, toDelete: seq<MapItem<T>>) {
    forall m, n :: m in toDelete && n in result && n !in last ==> m.arrayEntry != n.arrayEntry
  }

  /** The script between the previous array and the new one is applied to the previous items: no more of them
      are replaced than the fewest edits in the band, an unchanged array keeps every item in place, and with a
      complete search for moves nothing is deleted that could have been reused. */
  method SetDomNodeChildrenFromArrayMapping<T(==)>(lastMappingResult: seq<MapItem<T>>, newArray: seq<T>,
                                                   dontLimitMoves: bool)
    returns (newMappingResult: seq<MapItem<T>>, toDelete: seq<MapItem<T>>, ghost script: seq<Entry<T>>,
             ghost mate: map<Entry<T>, Entry<T>>, ghost search: Search<T>)
    requires AllDistinct(lastMappingResult)
    modifies lastMappingResult
    ensures |newMappingResult| == |newArray|
    ensures forall k :: 0 <= k < |newArray| ==>
              newMappingResult[k].arrayEntry == newArray[k] && newMappingResult[k].indexObservable == k
    ensures Conserves(lastMappingResult, newMappingResult, toDelete) && InOldOrder(toDelete, lastMappingResult)
    ensures forall m :: m in newMappingResult ==> m in lastMappingResult || fresh(m)
    ensures forall m :: m in toDelete ==> m.indexObservable == old(m.indexObservable)
    ensures Turns(script, Entries(lastMappingResult), newArray, 0, 0) && Paired(script, mate)
    ensures LeastInBand(Entries(lastMappingResult), newArray, EditCount(script))
    ensures PrefersTheLonger(script, Entries(lastMappingResult), newArray)
    ensures MovesFound(search, script, mate, Entries(lastMappingResult), newArray, dontLimitMoves)
    ensures Applies(script, lastMappingResult, newMappingResult, toDelete)
    ensures |toDelete| + NewItems(newMappingResult, lastMappingResult) <= EditCount(script)
    ensures Entries(lastMappingResult) == newArray ==> newMappingResult == lastMappingResult && toDelete == []
    ensures var short := Shorter(Entries(lastMappingResult), newArray);
            dontLimitMoves || WithinLimit(CountOf(script, Added), CountOf(script, Deleted), short) ==>
              NothingRemade(lastMappingResult, newMappingResult, toDelete)
  {
    hide Turns, LeastInBand, PrefersTheLonger, MovesFound, Paired, Conserves, Applies, Exhausted, EditCount, CountOf;
    hide NewItems, WithinLimit, Shorter, BandSuffices, LeastOfAll, InOldOrder, NothingRemade, AllDistinct, Entries;
    var lastArray := Entries(lastMappingResult);
    var editScript;
    editScript, mate, search := CompareArrays(lastArray, newArray, dontLimitMoves);
    script := editScript;
    newMappingResult, toDelete := ApplyScript(lastMappingResult, newArray, editScript, mate);
    OutsideResult(lastMappingResult, newMappingResult, toDelete);
  }

  /** The script is interpreted over the items. */
  method ApplyScript<T>(last: seq<MapItem<T>>, newArray: seq<T>, script: seq<Entry<T>>,
                        ghost mate: map<Entry<T>, Entry<T>>)
    returns (result: seq<MapItem<T>>, toDelete: seq<MapItem<T>>)
    requires AllDistinct(last) && Turns(script, Entries(last), newArray, 0, 0) && Paired(script, mate)
    requires LeastInBand(Entries(last), newArray, EditCount(script))
    modifies last
    ensures |result| == |newArray|
    ensures forall k :: 0 <= k < |newArray| ==> result[k].arrayEntry == newArray[k] && result[k].indexObservable == k
    ensures Conserves(last, result, toDelete) && InOldOrder(toDelete, last)
    ensures forall m :: m in result ==> m in last || fresh(m)
    ensures forall m :: m in toDelete ==> m.indexObservable == old(m.indexObservable)
    ensures Applies(script, last, result, toDelete)
    ensures |toDelete| + NewItems(result, last) <= EditCount(script)
    ensures Entries(last) == newArray ==> result == last && toDelete == []
    ensures Exhausted(script, Added, Deleted) ==> NothingRemade(last, result, toDelete)
  {
    ghost var past := Entries(last);
    ghost var plan := PlanOf(script, Moves(script), 0, 0);
    PlanCovers(script, Moves(script), past, newArray, 0, 0);
    PlanMirrors(script, past, newArray, 0, 0);
    PairingLinks(script, mate, plan, past, newArray);
    hide Turns, LeastInBand, Paired, Conserves, Applies, Covers, Linked, Mirrors, Queued, PlanOf, Exhausted, EditCount;
    hide NewItems, Selected, InOldOrder, NothingRemade, Entries, AllDistinct;
    ghost var at;
    result, toDelete, at := Interpret(last, newArray, script, plan);
    PlanMirrors(script, past, newArray, 0, 0);
    ScriptApplied(script, last, result, toDelete, at, newArray, plan);
    OutsideResult(last, result, toDelete);
    if past == newArray {
      UnchangedStays(script, last, result, toDelete, newArray);
    }
  }

  lemma OutsideResult<T>(last: seq<MapItem<T>>, result: seq<MapItem<T>>, toDelete: seq<MapItem<T>>)
    requires Conserves(last, result, toDelete)
    ensures forall m :: m in toDelete ==> m in last && m !in result
  {
  }

  /** What the plan says is what the script's entries say. */
  lemma ScriptApplied<T>(script: seq<Entry<T>>, last: seq<MapItem<T>>, result: seq<MapItem<T>>,
                         toDelete: seq<MapItem<T>>, at: seq<int>, entries: seq<T>, plan: Plan)
    requires Turns(script, Entries(last), entries, 0, 0) && plan == PlanOf(script, Moves(script), 0, 0)
    requires Mirrors(plan, script, Entries(last), entries) && Covers(plan, 0, 0, |last|, |entries|)
    requires |result| == |entries| && Built(result, last, entries, plan) && Queued(toDelete, at, last, plan, |last|)
    ensures Applies(script, last, result, toDelete) && InOldOrder(toDelete, last)
    ensures Exhausted(script, Added, Deleted) ==> NothingRemade(last, result, toDelete)
  {
    hide PlanOf, Turns, Mirrors, Covers, Built, Placed, KeptAt, NothingRemade, Exhausted, Entries, Selected;
    assert AscendsTo(at, toDelete, last);
    forall n | 0 <= n < |script| && script[n].status == Retained
      ensures KeptAt(script, n, last, result)
    {
      RetainedKept(script, last, result, entries, plan, n);
    }
    AddedPlaced(script, last, result, entries, plan);
    DeletedQueued(script, last, toDelete, at, entries, plan);
    if Exhausted(script, Added, Deleted) {
      NotRemade(script, last, result, toDelete, at, entries, plan);
    }
  }

  lemma RetainedKept<T>(script: seq<Entry<T>>, last: seq<MapItem<T>>, result: seq<MapItem<T>>, entries: seq<T>,
                        plan: Plan, n: nat)
    requires Turns(script, Entries(last), entries, 0, 0) && plan == PlanOf(script, Moves(script), 0, 0)
    requires Covers(plan, 0, 0, |last|, |entries|) && |result| == |entries| && Built(result, last, entries, plan)
    requires n < |script| && script[n].status == Retained
    ensures KeptAt(script, n, last, result)
  {
    RetainedPlace(script, Moves(script), Entries(last), entries, 0, 0, n);
    hide PlanOf, Turns, Selected;
    var k := |Selected(script[..n], Deleted)|;
    assert k in plan.keep && k !in plan.add && Origin(plan, k) == Some(plan.keep[k]);
  }

  lemma DeletedQueued<T>(script: seq<Entry<T>>, last: seq<MapItem<T>>, toDelete: seq<MapItem<T>>, at: seq<int>,
                         entries: seq<T>, plan: Plan)
    requires Mirrors(plan, script, Entries(last), entries) && Queued(toDelete, at, last, plan, |last|)
    ensures forall e :: e in script && e.status == Deleted && e.moved == None ==>
              e.index.Some? && 0 <= e.index.value < |last| && last[e.index.value] in toDelete
  {
  }

  lemma AddedPlaced<T>(script: seq<Entry<T>>, last: seq<MapItem<T>>, result: seq<MapItem<T>>, entries: seq<T>,
                       plan: Plan)
    requires Mirrors(plan, script, Entries(last), entries)
    requires |result| == |entries| && Built(result, last, entries, plan)
    ensures forall e :: e in script && e.status == Added ==> Placed(e, last, result)
  {
    forall e | e in script && e.status == Added
      ensures Placed(e, last, result)
    {
      assert Origin(plan, e.index.value) == e.moved;
    }
  }

  /** Where a retained entry stands in both arrays. */
  lemma {:induction false} RetainedPlace<T>(script: seq<Entry<T>>, moves: seq<Option<int>>, past: seq<T>,
                                            target: seq<T>, p: nat, q: nat, n: nat)
    requires |script| == |moves| && Turns(script, past, target, p, q) && n < |script| && script[n].status == Retained
    ensures var plan := PlanOf(script, moves, p, q);
            var k := q + |Selected(script[..n], Deleted)|;
            k in plan.keep && plan.keep[k] == p + |Selected(script[..n], Added)|
    decreases n
  {
    if n > 0 {
      var rest, later := script[1..], moves[1..];
      var p' := if script[0].status == Added then p else p + 1;
      var q' := if script[0].status == Deleted then q else q + 1;
      assert script[..n][1..] == rest[..n - 1] && script[..n][0] == script[0];
      RetainedPlace(rest, later, past, target, p', q', n - 1);
    }
  }

  lemma NotRemade<T>(script: seq<Entry<T>>, last: seq<MapItem<T>>, result: seq<MapItem<T>>, toDelete: seq<MapItem<T>>,
                     at: seq<int>, entries: seq<T>, plan: Plan)
    requires Mirrors(plan, script, Entries(last), entries) && Exhausted(script, Added, Deleted)
    requires |result| == |entries| && Built(result, last, entries, plan) && Queued(toDelete, at, last, plan, |last|)
    ensures NothingRemade(last, result, toDelete)
  {
    forall m, n | m in toDelete && n in result && n !in last
      ensures m.arrayEntry != n.arrayEntry
    {
      var i :| 0 <= i < |toDelete| && toDelete[i] == m;
      var k :| 0 <= k < |result| && result[k] == n;
      assert ListedAt(script, Deleted, at[i]);
      var x :| x in script && x.status == Deleted && x.index == Some(at[i]);
      assert k in plan.add && plan.add[k] == None;
      assert ListedAt(script, Added, k);
      var y :| y in script && y.status == Added && y.index == Some(k);
      assert y.value != x.value;
    }
  }

  lemma {:induction false} KeepsAll<T>(a: seq<T>, n: nat)
    requires n <= |a|
    ensures IsPath(a, a, n, n, seq(n, i => Keep)) && Edits(seq(n, i => Keep)) == 0
    decreases n
  {
    if n > 0 {
      var path := seq(n, i => Keep);
      assert path[..n - 1] == seq(n - 1, i => Keep);
      KeepsAll(a, n - 1);
    }
  }

  lemma {:induction false} NoEditsRetain<T>(script: seq<Entry<T>>, past: seq<T>, target: seq<T>, i: nat, j: nat)
    requires EditCount(script) == 0 && Turns(script, past, target, i, j)
    ensures |script| == |past| - i == |target| - j
    ensures forall n :: 0 <= n < |script| ==>
              script[n].status == Retained &&
              |Selected(script[..n], Added)| == n && |Selected(script[..n], Deleted)| == n
    decreases |script|
  {
    if script != [] {
      NoEditsRetain(script[1..], past, target, i + 1, j + 1);
      forall n | 0 <= n < |script|
        ensures script[n].status == Retained
        ensures |Selected(script[..n], Added)| == n && |Selected(script[..n], Deleted)| == n
      {
        if n > 0 {
          assert script[..n][1..] == script[1..][..n - 1];
          assert script[n] == script[1..][n - 1];
        }
      }
    }
  }

  /** An unchanged array keeps every item in place. */
  lemma UnchangedStays<T>(script: seq<Entry<T>>, last: seq<MapItem<T>>, result: seq<MapItem<T>>,
                          toDelete: seq<MapItem<T>>, entries: seq<T>)
    requires Entries(last) == entries && Turns(script, entries, entries, 0, 0)
    requires LeastInBand(entries, entries, EditCount(script)) && Applies(script, last, result, toDelete)
    requires |result| == |entries| && |toDelete| + NewItems(result, last) <= EditCount(script)
    ensures result == last && toDelete == []
  {
    KeepsAll(entries, |entries|);
    NoEditsRetain(script, entries, entries, 0, 0);
    forall n | 0 <= n < |result|
      ensures result[n] == last[n]
    {
      assert KeptAt(script, n, last, result);
    }
  }

  /** A moved entry brings an old item that shows the entry wanted. */
  lemma MovedShows<T>(plan: Plan, past: seq<T>, target: seq<T>, q: nat)
    requires Linked(plan, past, target) && q in plan.add && plan.add[q].Some?
    ensures var p := plan.add[q].value;
            0 <= p < |past| && q < |target| && past[p] == target[q] && Origin(plan, q) == Some(p)
  {
  }

  lemma KeptOrigin(plan: Plan, p: int, q: int)
    requires q in plan.keep && q !in plan.add && plan.keep[q] == p
    ensures Origin(plan, q) == Some(p)
  {
  }

  lemma NothingBuilt<T>(last: seq<MapItem<T>>, entries: seq<T>, plan: Plan)
    ensures Built([], last, entries, plan) && Queued([], [], last, plan, 0) && AllDistinct<MapItem<T>>([])
  {
  }

  lemma QueuedStep<T>(deleted: seq<MapItem<T>>, at: seq<int>, last: seq<MapItem<T>>, plan: Plan, p: nat)
    requires Queued(deleted, at, last, plan, p) && p < |last|
    ensures if p in plan.del && plan.del[p] == None then Queued(deleted + [last[p]], at + [p], last, plan, p + 1)
            else Queued(deleted, at, last, plan, p + 1)
  {
  }

  /** The interpreter has come to entry `i`. */
  ghost predicate Progress<T>(last: seq<MapItem<T>>, entries: seq<T>, plan: Plan, script: seq<Entry<T>>,
                              moves: seq<Option<int>>, i: nat, result: seq<MapItem<T>>,
                              toDelete: seq<MapItem<T>>, at: seq<int>, lastIndex: nat)
    reads result
  {
    && Remains(plan, script, moves, i, Entries(last), entries, lastIndex, |result|)
    && |toDelete| + NewItems(result, last) <= EditCount(script[..i])
    && Built(result, last, entries, plan) && AllDistinct(result) && Queued(toDelete, at, last, plan, lastIndex)
  }

  /** A deleted entry queues its item, unless the item was moved. */
  method InterpretDeleted<T>(last: seq<MapItem<T>>, ghost entries: seq<T>, ghost plan: Plan, script: seq<Entry<T>>,
                             ghost moves: seq<Option<int>>, i: nat, ghost result: seq<MapItem<T>>,
                             toDelete: seq<MapItem<T>>, ghost at: seq<int>, lastIndex: nat)
    returns (toDelete': seq<MapItem<T>>, ghost at': seq<int>)
    requires i < |script| == |moves| && script[i].moved == moves[i] && script[i].status == Deleted
    requires Progress(last, entries, plan, script, moves, i, result, toDelete, at, lastIndex)
    ensures Progress(last, entries, plan, script, moves, i + 1, result, toDelete', at', lastIndex + 1)
  {
    CountsNext(script, i);
    NextDeleted(plan, script, moves, i, Entries(last), entries, lastIndex, |result|);
    QueuedStep(toDelete, at, last, plan, lastIndex);
    hide PlanOf, Turns, Built, Queued, Remains, AllDistinct, NewItems, EditCount;
    toDelete', at' := toDelete, at;
    if script[i].moved == None {
      toDelete' := toDelete + [last[lastIndex]];
      at' := at + [lastIndex];
    }
  }

  /** A retained entry keeps its item. */
  method InterpretRetained<T>(last: seq<MapItem<T>>, ghost entries: seq<T>, ghost plan: Plan, script: seq<Entry<T>>,
                              ghost moves: seq<Option<int>>, i: nat, result: seq<MapItem<T>>,
                              ghost toDelete: seq<MapItem<T>>, ghost at: seq<int>, lastIndex: nat)
    returns (result': seq<MapItem<T>>)
    requires i < |script| == |moves| && script[i].status == Retained && AllDistinct(last)
    requires Progress(last, entries, plan, script, moves, i, result, toDelete, at, lastIndex)
    requires Covers(plan, 0, 0, |last|, |entries|) && Linked(plan, Entries(last), entries)
    modifies last
    ensures Progress(last, entries, plan, script, moves, i + 1, result', toDelete, at, lastIndex + 1)
    ensures lastIndex < |last| && result' == result + [last[lastIndex]]
    ensures forall m :: m in last && m != last[lastIndex] ==> m.indexObservable == old(m.indexObservable)
  {
    CountsNext(script, i);
    OriginsPartition(plan, Entries(last), entries);
    NextRetained(plan, script, moves, i, Entries(last), entries, lastIndex, |result|);
    KeptOrigin(plan, lastIndex, |result|);
    QueuedStep(toDelete, at, last, plan, lastIndex);
    hide PlanOf, Turns, Built, Queued, Remains, Linked, Covers, Origin, AllDistinct, NewItems, EditCount;
    result' := Reuse(last, result, lastIndex, entries, plan);
  }

  /** An added entry brings the item it was moved from, or a new one. */
  method InterpretAdded<T>(last: seq<MapItem<T>>, ghost entries: seq<T>, ghost plan: Plan, script: seq<Entry<T>>,
                           ghost moves: seq<Option<int>>, i: nat, result: seq<MapItem<T>>,
                           ghost toDelete: seq<MapItem<T>>, ghost at: seq<int>, ghost lastIndex: nat)
    returns (result': seq<MapItem<T>>)
    requires i < |script| == |moves| && script[i].moved == moves[i] && script[i].status == Added && AllDistinct(last)
    requires Progress(last, entries, plan, script, moves, i, result, toDelete, at, lastIndex)
    requires Covers(plan, 0, 0, |last|, |entries|) && Linked(plan, Entries(last), entries)
    modifies last
    ensures Progress(last, entries, plan, script, moves, i + 1, result', toDelete, at, lastIndex)
    ensures |result'| == |result| + 1 && result'[..|result|] == result
    ensures var m := result'[|result|]; m in last || fresh(m)
    ensures forall m :: m in last && m != result'[|result|] ==> m.indexObservable == old(m.indexObservable)
  {
    CountsNext(script, i);
    OriginsPartition(plan, Entries(last), entries);
    NextAdded(plan, script, moves, i, Entries(last), entries, lastIndex, |result|);
    hide PlanOf, Turns, Built, Queued, Remains, Covers, AllDistinct, NewItems, EditCount;
    if script[i].moved != None {
      MovedShows(plan, Entries(last), entries, |result|);
      hide Linked, Origin;
      result' := Reuse(last, result, script[i].moved.value, entries, plan);
    } else {
      hide Linked, Origin;
      result' := Create(last, result, script[i].value, entries, plan);
    }
  }

  method InterpretEntry<T>(last: seq<MapItem<T>>, ghost entries: seq<T>, ghost plan: Plan, editScript: seq<Entry<T>>,
                           ghost moves: seq<Option<int>>, i: nat, result: seq<MapItem<T>>,
                           toDelete: seq<MapItem<T>>, ghost at: seq<int>, lastIndex: nat)
    returns (result': seq<MapItem<T>>, toDelete': seq<MapItem<T>>, ghost at': seq<int>, lastIndex': nat)
    requires i < |editScript| == |moves| && editScript[i].moved == moves[i] && AllDistinct(last)
    requires Progress(last, entries, plan, editScript, moves, i, result, toDelete, at, lastIndex)
    requires Covers(plan, 0, 0, |last|, |entries|) && Linked(plan, Entries(last), entries)
    modifies last
    ensures Progress(last, entries, plan, editScript, moves, i + 1, result', toDelete', at', lastIndex')
    ensures forall m :: m in result' ==> m in result || m in last || fresh(m)
    ensures forall m :: m in result ==> m in result'
    ensures forall m :: m in last && m !in result' ==> m.indexObservable == old(m.indexObservable)
  {
    hide Progress, Covers, Linked, AllDistinct, Entries;
    result', toDelete', at', lastIndex' := result, toDelete, at, lastIndex;
    match editScript[i].status {
      case Deleted =>
        toDelete', at' := InterpretDeleted(last, entries, plan, editScript, moves, i, result, toDelete, at, lastIndex);
        lastIndex' := lastIndex + 1;
      case Retained =>
        result' := InterpretRetained(last, entries, plan, editScript, moves, i, result, toDelete, at, lastIndex);
        assert last[lastIndex] in result';
        lastIndex' := lastIndex + 1;
      case Added =>
        result' := InterpretAdded(last, entries, plan, editScript, moves, i, result, toDelete, at, lastIndex);
        assert result' == result'[..|result|] + [result'[|result|]];
    }
  }

  method Interpret<T>(last: seq<MapItem<T>>, ghost entries: seq<T>, editScript: seq<Entry<T>>, ghost plan: Plan)
    returns (result: seq<MapItem<T>>, toDelete: seq<MapItem<T>>, ghost at: seq<int>)
    requires AllDistinct(last) && Turns(editScript, Entries(last), entries, 0, 0)
             && plan == PlanOf(editScript, Moves(editScript), 0, 0)
    requires Covers(plan, 0, 0, |last|, |entries|) && Linked(plan, Entries(last), entries)
    modifies last
    ensures |result| == |entries| && Built(result, last, entries, plan) && Conserves(last, result, toDelete)
    ensures Queued(toDelete, at, last, plan, |last|)
    ensures forall m :: m in result ==> m in last || fresh(m)
    ensures forall m :: m in last && m !in result ==> m.indexObservable == old(m.indexObservable)
    ensures |toDelete| + NewItems(result, last) <= EditCount(editScript)
  {
    ghost var moves := Moves(editScript);
    InterpretsFromStart(last, entries, editScript, plan);
    hide PlanOf, Turns, Progress, Linked, Conserves, Covers, AllDistinct, Entries, NewItems, EditCount, Built, Queued;
    result, toDelete := [], [];
    var lastIndex := 0;
    at := [];
    var i := 0;
    while i < |editScript|
      invariant 0 <= i <= |editScript| && 0 <= lastIndex
      invariant forall k :: 0 <= k < |editScript| ==> editScript[k].moved == moves[k]
      invariant Progress(last, entries, plan, editScript, moves, i, result, toDelete, at, lastIndex)
      invariant forall m :: m in result ==> m in last || fresh(m)
      invariant forall m :: m in last && m !in result ==> m.indexObservable == old(m.indexObservable)
    {
      result, toDelete, at, lastIndex := InterpretEntry(last, entries, plan, editScript, moves, i, result, toDelete,
                                                        at, lastIndex);
      i := i + 1;
    }
    Conserved(last, result, toDelete, at, entries, plan, editScript, moves, lastIndex);
  }

  lemma InterpretsFromStart<T>(last: seq<MapItem<T>>, entries: seq<T>, script: seq<Entry<T>>, plan: Plan)
    requires Turns(script, Entries(last), entries, 0, 0) && plan == PlanOf(script, Moves(script), 0, 0)
    ensures Progress(last, entries, plan, script, Moves(script), 0, [], [], [], 0)
  {
    hide PlanOf, Turns;
    NothingCounted(last);
    assert script[..0] == [];
    RemainsAtStart(script, Moves(script), Entries(last), entries);
    NothingBuilt(last, entries, plan);
  }

  lemma NothingCounted<T>(last: seq<MapItem<T>>)
    ensures NewItems([], last) == 0 && EditCount<T>([]) == 0
  {
  }

  lemma Conserved<T>(last: seq<MapItem<T>>, result: seq<MapItem<T>>, toDelete: seq<MapItem<T>>, at: seq<int>,
                     entries: seq<T>, plan: Plan, script: seq<Entry<T>>, moves: seq<Option<int>>, lastIndex: nat)
    requires AllDistinct(last) && Covers(plan, 0, 0, |last|, |entries|) && Linked(plan, Entries(last), entries)
    requires Progress(last, entries, plan, script, moves, |script|, result, toDelete, at, lastIndex)
    ensures |result| == |entries| && Built(result, last, entries, plan) && Conserves(last, result, toDelete)
    ensures Queued(toDelete, at, last, plan, |last|) && |toDelete| + NewItems(result, last) <= EditCount(script)
  {
    hide NewItems, EditCount;
    assert script[..|script|] == script;
    RemainsAtEnd(plan, script, moves, Entries(last), entries, lastIndex, |result|);
    forall m | m in last
      ensures m in result <==> m !in toDelete
    {
      var p :| 0 <= p < |last| && last[p] == m;
      ItemGoesOneWay(last, result, toDelete, at, entries, plan, p);
    }
  }

  lemma ItemGoesOneWay<T>(last: seq<MapItem<T>>, result: seq<MapItem<T>>, toDelete: seq<MapItem<T>>, at: seq<int>,
                          entries: seq<T>, plan: Plan, p: nat)
    requires AllDistinct(last) && p < |last| && |result| == |entries|
    requires Covers(plan, 0, 0, |last|, |entries|) && Linked(plan, Entries(last), entries)
    requires Built(result, last, entries, plan) && Queued(toDelete, at, last, plan, |last|)
    ensures last[p] in result <==> last[p] !in toDelete
  {
    hide Covers, Linked, Entries;
    OriginsPartition(plan, Entries(last), entries);
    if p in plan.del && plan.del[p] == None {
      forall k | 0 <= k < |result|
        ensures result[k] != last[p]
      {
        var o := Origin(plan, k);
        assert o != Some(p);
        if o.Some? {
          assert result[k] == last[o.value];
        }
      }
    } else {
      var k :| 0 <= k < |entries| && Origin(plan, k) == Some(p);
      assert result[k] == last[p];
      forall n | 0 <= n < |toDelete|
        ensures toDelete[n] != last[p]
      {
        assert at[n] != p;
      }
    }
  }
}
