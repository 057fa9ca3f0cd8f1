/** How a computed observable keeps its subscriptions in step with what its read function reads. */
module Computed {
  import opened Wrappers

  /** What a computed may depend on; the source compares them by identity. */
  class Subscribable {
    constructor ()
    {
    }
  }

  class Subscription {
    const target: Subscribable
    var isDisposed: bool

    constructor (target: Subscribable)
      ensures this.target == target && !isDisposed
    {
      this.target := target;
      isDisposed := false;
    }

    method Dispose()
      modifies this
      ensures isDisposed
    {
      isDisposed := true;
    }
  }

  function Targets(subscriptions: seq<Subscription>): (r: seq<Subscribable>)
    ensures |r| == |subscriptions| && forall i :: 0 <= i < |r| ==> r[i] == subscriptions[i].target
  {
    seq(|subscriptions|, i requires 0 <= i < |subscriptions| => subscriptions[i].target)
  }

  /** The subscriptions whose target is read. */
  function Kept(subscriptions: seq<Subscription>, observed: seq<Subscribable>): seq<Subscription> {
    if subscriptions == [] then []
    else (if subscriptions[0].target in observed then [subscriptions[0]] else []) + Kept(subscriptions[1..], observed)
  }

  /** The targets read that are not among `known`, each once, in the order they were first read. */
  function FirstReads(observed: seq<Subscribable>, known: seq<Subscribable>): seq<Subscribable>
    decreases |observed|
  {
    if observed == [] then []
    else
      var before, r := FirstReads(observed[..|observed| - 1], known), observed[|observed| - 1];
      if r in known || r in before then before else before + [r]
  }

  lemma FirstReadsNone(known: seq<Subscribable>)
    ensures FirstReads([], known) == []
  {
  }

  lemma FirstReadsStep(before: seq<Subscribable>, r: Subscribable, known: seq<Subscribable>)
    ensures var first := FirstReads(before, known);
            FirstReads(before + [r], known) == if r in known || r in first then first else first + [r]
  {
  }

  lemma {:induction false} FirstReadsAre(observed: seq<Subscribable>, known: seq<Subscribable>)
    ensures AllDistinct(FirstReads(observed, known))
    ensures forall t :: t in FirstReads(observed, known) <==> t in observed && t !in known
    decreases |observed|
  {
    if observed != [] {
      var front, r := observed[..|observed| - 1], observed[|observed| - 1];
      assert observed == front + [r];
      FirstReadsAre(front, known);
    }
  }

  lemma {:induction false} KeptAre(subscriptions: seq<Subscription>, observed: seq<Subscribable>)
    ensures forall s :: s in Kept(subscriptions, observed) ==> s in subscriptions && s.target in observed
    ensures forall s :: s in subscriptions && s.target in observed ==> s in Kept(subscriptions, observed)
    ensures AllDistinct(Targets(subscriptions)) ==> AllDistinct(Targets(Kept(subscriptions, observed)))
    decreases |subscriptions|
  {
    if subscriptions != [] {
      var head, rest := subscriptions[0], subscriptions[1..];
      assert subscriptions == [head] + rest;
      KeptAre(rest, observed);
      if AllDistinct(Targets(subscriptions)) {
        forall i, j | 0 <= i < j < |rest|
          ensures Targets(rest)[i] != Targets(rest)[j]
        {
          assert Targets(subscriptions)[i + 1] != Targets(subscriptions)[j + 1];
        }
        forall s | s in rest
          ensures s.target != head.target
        {
          var k :| 0 <= k < |rest| && rest[k] == s;
          assert Targets(subscriptions)[0] != Targets(subscriptions)[k + 1];
        }
        var kept := Kept(rest, observed);
        if head.target in observed {
          var whole := [head] + kept;
          forall i, j | 0 <= i < j < |whole|
            ensures Targets(whole)[i] != Targets(whole)[j]
          {
            if i == 0 {
              assert kept[j - 1] in kept;
              assert kept[j - 1] in rest;
            } else {
              assert Targets(kept)[i - 1] != Targets(kept)[j - 1];
            }
          }
          assert Kept(subscriptions, observed) == whole;
        } else {
          assert Kept(subscriptions, observed) == kept;
        }
      }
    }
  }

  /** What was read first comes first: a longer reading only adds at the end. */
  lemma {:induction false} FirstReadsInOrder(one: seq<Subscribable>, two: seq<Subscribable>, known: seq<Subscribable>)
    ensures FirstReads(one, known) <= FirstReads(one + two, known)
    decreases |two|
  {
    if two == [] {
      assert one + two == one;
    } else {
      var front, r := two[..|two| - 1], two[|two| - 1];
      FirstReadsInOrder(one, front, known);
      assert one + two == (one + front) + [r];
      FirstReadsStep(one + front, r, known);
    }
  }

  /** Kept subscriptions stay in their order. */
  lemma {:induction false} KeptInOrder(a: seq<Subscription>, b: seq<Subscription>, observed: seq<Subscribable>)
    ensures Kept(a + b, observed) == Kept(a, observed) + Kept(b, observed)
    decreases |a|
  {
    if a == [] {
      assert a + b == b;
    } else {
      KeptInOrder(a[1..], b, observed);
      assert (a + b)[1..] == a[1..] + b && (a + b)[0] == a[0];
      var head := if a[0].target in observed then [a[0]] else [];
      assert Kept(a + b, observed) == head + Kept(a[1..] + b, observed);
      assert head + (Kept(a[1..], observed) + Kept(b, observed)) == (head + Kept(a[1..], observed)) + Kept(b, observed);
    }
  }

  /** Exact dependency tracking: the kept subscriptions and the first reads of the others together target
      exactly what was read, each once. */
  lemma ExactlyTheReads(subscriptions: seq<Subscription>, observed: seq<Subscribable>)
    requires AllDistinct(Targets(subscriptions))
    ensures var targets := Targets(Kept(subscriptions, observed)) + FirstReads(observed, Targets(subscriptions));
            AllDistinct(targets) && forall t :: t in targets <==> t in observed
  {
    var kept, firsts := Kept(subscriptions, observed), FirstReads(observed, Targets(subscriptions));
    var targets := Targets(kept) + firsts;
    KeptAre(subscriptions, observed);
    FirstReadsAre(observed, Targets(subscriptions));
    forall s | s in kept
      ensures s.target in Targets(subscriptions)
    {
      var k :| 0 <= k < |subscriptions| && subscriptions[k] == s;
      assert Targets(subscriptions)[k] == s.target;
    }
    forall t | t in observed
      ensures t in targets
    {
      if t in Targets(subscriptions) {
        var k :| 0 <= k < |subscriptions| && Targets(subscriptions)[k] == t;
        assert subscriptions[k] in kept;
        var m :| 0 <= m < |kept| && kept[m] == subscriptions[k];
        assert Targets(kept)[m] == t;
      }
    }
    forall i, j | 0 <= i < j < |targets|
      ensures targets[i] != targets[j]
    {
      if i < |kept| <= j {
        assert kept[i] in kept;
        assert firsts[j - |kept|] in firsts;
      }
    }
  }

  /** The candidates still listed are the old targets not read. */
  ghost predicate Crossed(candidates: seq<Option<Subscribable>>, was: seq<Subscription>, observed: seq<Subscribable>) {
    |candidates| == |was| && forall i :: 0 <= i < |was| ==>
      candidates[i] == if was[i].target in observed then None else Some(was[i].target)
  }

  /** The first index of a listed candidate, or the length. */
  method IndexOf(candidates: seq<Option<Subscribable>>, r: Subscribable) returns (i: nat)
    ensures i <= |candidates| && (i < |candidates| ==> candidates[i] == Some(r))
    ensures forall k :: 0 <= k < i ==> candidates[k] != Some(r)
  {
    i := 0;
    while i < |candidates| && candidates[i] != Some(r)
      invariant i <= |candidates| && forall k :: 0 <= k < i ==> candidates[k] != Some(r)
    {
      i := i + 1;
    }
  }

  lemma CrossOff(candidates: seq<Option<Subscribable>>, was: seq<Subscription>, observed: seq<Subscribable>,
                 r: Subscribable, at: nat)
    requires Crossed(candidates, was, observed) && AllDistinct(Targets(was)) && r !in observed
    requires at <= |candidates| && (at < |candidates| ==> candidates[at] == Some(r))
    requires forall k :: 0 <= k < at ==> candidates[k] != Some(r)
    ensures at < |candidates| <==> r in Targets(was)
    ensures Crossed(if at < |candidates| then candidates[at := None] else candidates, was, observed + [r])
  {
  }

  lemma AllListed(candidates: seq<Option<Subscribable>>, was: seq<Subscription>)
    requires |candidates| == |was| && forall i :: 0 <= i < |was| ==> candidates[i] == Some(was[i].target)
    ensures Crossed(candidates, was, [])
  {
  }

  lemma CrossedMeans(candidates: seq<Option<Subscribable>>, was: seq<Subscription>, observed: seq<Subscribable>)
    requires Crossed(candidates, was, observed)
    ensures |candidates| == |was|
    ensures forall i :: 0 <= i < |was| ==>
              candidates[i] == if was[i].target in observed then None else Some(was[i].target)
  {
  }

  lemma SeenBefore(candidates: seq<Option<Subscribable>>, was: seq<Subscription>, observed: seq<Subscribable>,
                   r: Subscribable)
    requires Crossed(candidates, was, observed) && r in observed
    ensures Crossed(candidates, was, observed + [r])
  {
  }

  lemma AllLeft(was: seq<Subscription>, candidates: seq<Option<Subscribable>>, observed: seq<Subscribable>)
    requires Crossed(candidates, was, observed)
    ensures |candidates| == |was| && was[..|was|] == was && Kept(was[|was|..], observed) == []
  {
  }

  /** Splicing out entry `i` when its target was not read leaves the shorter prefix and what is kept from `i` on. */
  lemma OneLess(was: seq<Subscription>, i: nat, observed: seq<Subscribable>, added: seq<Subscription>,
                candidates: seq<Option<Subscribable>>)
    requires i < |was| && Crossed(candidates, was, observed) && AllDistinct(Targets(was))
    ensures var before := was[..i + 1] + (Kept(was[i + 1..], observed) + added);
            var after := was[..i] + (Kept(was[i..], observed) + added);
            && (candidates[i].Some? <==> was[i].target !in observed)
            && before[i] == was[i] && after == if candidates[i].Some? then before[..i] + before[i + 1..] else before
    ensures forall k :: 0 <= k < |was| && k != i ==> was[k] != was[i]
  {
  }

  class DependentObservable {
    var subscriptions: seq<Subscription>
    var hasBeenEvaluated: bool
    var isBeingEvaluated: bool

    /** Live subscriptions with distinct targets. */
    ghost predicate Valid()
      reads this, subscriptions
    {
      AllDistinct(Targets(subscriptions)) && forall s :: s in subscriptions ==> !s.isDisposed
    }

    constructor ()
      ensures Valid() && subscriptions == [] && !hasBeenEvaluated && !isBeingEvaluated
    {
      subscriptions := [];
      hasBeenEvaluated := false;
      isBeingEvaluated := false;
    }

    method Dispose()
      modifies this, subscriptions
      ensures subscriptions == [] && Valid()
      ensures hasBeenEvaluated == old(hasBeenEvaluated) && isBeingEvaluated == old(isBeingEvaluated)
      ensures forall s :: s in old(subscriptions) ==> s.isDisposed
    {
      var i := 0;
      while i < |subscriptions|
        invariant 0 <= i <= |subscriptions| && subscriptions == old(subscriptions)
        invariant hasBeenEvaluated == old(hasBeenEvaluated) && isBeingEvaluated == old(isBeingEvaluated)
        invariant forall k :: 0 <= k < i ==> subscriptions[k].isDisposed
      {
        subscriptions[i].Dispose();
        i := i + 1;
      }
      subscriptions := [];
    }

    /** The read function runs: every first read of a subscribable crosses it off the candidates for
        disposal, or subscribes to it. */
    method Run(observed: seq<Subscribable>)
      returns (disposalCandidates: seq<Option<Subscribable>>, ghost added: seq<Subscription>)
      requires Valid()
      modifies this`subscriptions
      ensures subscriptions == old(subscriptions) + added
              && Targets(added) == FirstReads(observed, Targets(old(subscriptions)))
      ensures forall s :: s in added ==> fresh(s) && !s.isDisposed
      ensures |disposalCandidates| == |old(subscriptions)|
      ensures forall i :: 0 <= i < |disposalCandidates| ==>
                disposalCandidates[i] ==
                  if old(subscriptions)[i].target in observed then None else Some(old(subscriptions)[i].target)
    {
      hide FirstReads, Crossed;
      var was := subscriptions;
      FirstReadsNone(Targets(was));
      disposalCandidates := seq(|was|, i requires 0 <= i < |was| => Some(was[i].target));
      added := [];
      AllListed(disposalCandidates, was);
      var distinctDependencies: seq<Subscribable> := [];
      var n := 0;
      while n < |observed|
        invariant 0 <= n <= |observed| && (forall t :: t in distinctDependencies <==> t in observed[..n])
        invariant subscriptions == was + added && Targets(added) == FirstReads(observed[..n], Targets(was))
        invariant forall s :: s in added ==> fresh(s) && !s.isDisposed
        invariant Crossed(disposalCandidates, was, observed[..n])
      {
        var r := observed[n];
        assert observed[..n + 1] == observed[..n] + [r];
        FirstReadsStep(observed[..n], r, Targets(was));
        FirstReadsAre(observed[..n], Targets(was));
        if r !in distinctDependencies {
          distinctDependencies := distinctDependencies + [r];
          var inOld := IndexOf(disposalCandidates, r);
          CrossOff(disposalCandidates, was, observed[..n], r, inOld);
          if inOld < |disposalCandidates| {
            disposalCandidates := disposalCandidates[inOld := None];
          } else {
            var subscription := new Subscription(r);
            subscriptions := subscriptions + [subscription];
            added := added + [subscription];
          }
        } else {
          SeenBefore(disposalCandidates, was, observed[..n], r);
        }
        n := n + 1;
      }
      assert observed[..n] == observed;
      CrossedMeans(disposalCandidates, was, observed);
    }

    /** From the last candidate down, each one still listed is spliced out and disposed. */
    method DropUnused(disposalCandidates: seq<Option<Subscribable>>, ghost was: seq<Subscription>,
                      ghost added: seq<Subscription>, ghost observed: seq<Subscribable>)
      requires subscriptions == was + added && Crossed(disposalCandidates, was, observed) && AllDistinct(Targets(was))
      requires forall s :: s in was ==> s in subscriptions && !s.isDisposed
      requires forall s :: s in added ==> s !in was && !s.isDisposed
      modifies this`subscriptions, was
      ensures subscriptions == Kept(was, observed) + added
      ensures forall s :: s in was ==> (s.isDisposed <==> s.target !in observed)
      ensures forall s :: s in added ==> !s.isDisposed
    {
      hide Kept, Crossed;
      var i := |disposalCandidates|;
      AllLeft(was, disposalCandidates, observed);
      while i > 0
        invariant 0 <= i <= |was| && subscriptions == was[..i] + (Kept(was[i..], observed) + added)
        invariant forall k :: 0 <= k < i ==> !was[k].isDisposed
        invariant forall k :: i <= k < |was| ==> (was[k].isDisposed <==> was[k].target !in observed)
        invariant forall s :: s in added ==> !s.isDisposed
      {
        i := i - 1;
        OneLess(was, i, observed, added, disposalCandidates);
        if disposalCandidates[i].Some? {
          var removed := subscriptions[i];
          subscriptions := subscriptions[..i] + subscriptions[i + 1..];
          removed.Dispose();
        }
      }
    }

    /** The evaluation proper, when it is neither nested in itself nor overtaken by disposal. */
    method Reevaluate(observed: seq<Subscribable>)
      requires Valid()
      modifies this`subscriptions, subscriptions
      ensures Valid()
      ensures Targets(subscriptions) == Targets(Kept(old(subscriptions), observed))
              + FirstReads(observed, Targets(old(subscriptions)))
      ensures forall t :: t in Targets(subscriptions) <==> t in observed
      ensures forall s :: s in old(subscriptions) ==>
                (s in subscriptions <==> s.target in observed) && (s.isDisposed <==> s.target !in observed)
    {
      hide Kept, FirstReads;
      var was := subscriptions;
      var candidates;
      ghost var added;
      candidates, added := Run(observed);
      assert forall s :: s in added ==> s !in was;
      DropUnused(candidates, was, added, observed);
      KeptAre(was, observed);
      ExactlyTheReads(was, observed);
      assert Targets(subscriptions) == Targets(Kept(was, observed)) + FirstReads(observed, Targets(was));
    }

    /** The read function throws after it has read `observed`: nothing is dropped. */
    method BreakOff(observed: seq<Subscribable>)
      requires Valid()
      modifies this`subscriptions
      ensures Valid() && old(subscriptions) <= subscriptions
      ensures Targets(subscriptions) == Targets(old(subscriptions)) + FirstReads(observed, Targets(old(subscriptions)))
      ensures forall t :: t in Targets(subscriptions) <==> t in Targets(old(subscriptions)) || t in observed
    {
      hide FirstReads;
      ghost var was := subscriptions;
      var candidates;
      ghost var added;
      candidates, added := Run(observed);
      FirstReadsAre(observed, Targets(was));
      assert Targets(subscriptions) == Targets(was) + Targets(added);
      assert AllDistinct(Targets(subscriptions)) by {
        var firsts := FirstReads(observed, Targets(was));
        forall i, j | 0 <= i < j < |was| + |firsts|
          ensures (Targets(was) + firsts)[i] != (Targets(was) + firsts)[j]
        {
          if i < |was| <= j {
            assert firsts[j - |was|] in firsts;
            assert Targets(was)[i] in Targets(was);
          }
        }
      }
    }

    /** `observed` lists the subscribables the read function registers, in order, with repetitions, until it
        ends or throws. */
    method EvaluateImmediate(observed: seq<Subscribable>, disposeWhen: bool, throws: bool) returns (threw: bool)
      requires Valid()
      modifies this, subscriptions
      ensures Valid() && isBeingEvaluated == old(isBeingEvaluated)
      ensures threw <==> throws && !old(isBeingEvaluated) && !(old(hasBeenEvaluated) && disposeWhen)
      ensures old(isBeingEvaluated) ==> subscriptions == old(subscriptions) && hasBeenEvaluated == old(hasBeenEvaluated)
      ensures !old(isBeingEvaluated) && old(hasBeenEvaluated) && disposeWhen ==>
                subscriptions == [] && hasBeenEvaluated && forall s :: s in old(subscriptions) ==> s.isDisposed
      ensures !old(isBeingEvaluated) && !(old(hasBeenEvaluated) && disposeWhen) && !throws ==>
        var was := old(subscriptions);
        && hasBeenEvaluated
        && Targets(subscriptions) == Targets(Kept(was, observed)) + FirstReads(observed, Targets(was))
        && (forall t :: t in Targets(subscriptions) <==> t in observed)
        && (forall s :: s in was ==> (s in subscriptions <==> s.target in observed))
        && (forall s :: s in was ==> (s.isDisposed <==> s.target !in observed))
      ensures threw ==>
        && hasBeenEvaluated == old(hasBeenEvaluated)
        && Targets(subscriptions) == Targets(old(subscriptions)) + FirstReads(observed, Targets(old(subscriptions)))
        && old(subscriptions) <= subscriptions
        && (forall t :: t in Targets(subscriptions) <==> t in Targets(old(subscriptions)) || t in observed)
    {
      threw := false;
      if isBeingEvaluated {
        return;
      }
      if hasBeenEvaluated && disposeWhen {
        Dispose();
        return;
      }
      isBeingEvaluated := true;
      if throws {
        BreakOff(observed);
        isBeingEvaluated := false;
        return true;
      }
      Reevaluate(observed);
      hasBeenEvaluated := true;
      isBeingEvaluated := false;
      if |subscriptions| == 0 {
        Dispose();
      }
    }
  }
}
