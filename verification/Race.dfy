/** The competitive race: the first `howMany` fulfilments win, unless too many rejections come first. */
module Race {
  /** How one item of the input settles. */
  datatype Settlement = Fulfil(value: int) | Reject(reason: int)

  datatype Outcome = Pending | Resolved(values: seq<int>) | Rejected(reasons: seq<int>)

  /** How many fulfilments are wanted of `len` items. */
  function Wanted(howMany: int, len: nat): (n: nat)
    ensures n <= len
  {
    if howMany < 0 then 0 else if howMany < len then howMany else len
  }

  function Fulfilled(events: seq<Settlement>): seq<int>
    decreases |events|
  {
    if events == [] then []
    else
      var e := events[|events| - 1];
      Fulfilled(events[..|events| - 1]) + (if e.Fulfil? then [e.value] else [])
  }

  function Failed(events: seq<Settlement>): seq<int>
    decreases |events|
  {
    if events == [] then []
    else
      var e := events[|events| - 1];
      Failed(events[..|events| - 1]) + (if e.Reject? then [e.reason] else [])
  }

  /** What the race has come to after `events`: the two thresholds cannot both be met. */
  function Verdict(howMany: int, len: nat, events: seq<Settlement>): Outcome {
    var wins := Wanted(howMany, len);
    var losses := len - wins + 1;
    if |Fulfilled(events)| >= wins then Resolved(Fulfilled(events)[..wins])
    else if |Failed(events)| >= losses then Rejected(Failed(events)[..losses])
    else Pending
  }

  lemma {:induction false} EveryItemCounts(events: seq<Settlement>)
    ensures |Fulfilled(events)| + |Failed(events)| == |events|
    decreases |events|
  {
    if events != [] {
      EveryItemCounts(events[..|events| - 1]);
    }
  }

  class SomeRace {
    const howMany: int
    const len: nat
    var toResolve: nat
    var toReject: nat
    var values: seq<int>
    var reasons: seq<int>
    var switchedOff: bool
    var outcome: Outcome
    ghost var calls: nat
    ghost var events: seq<Settlement>

    /** The counters count down from the thresholds until one is met; the promise is resolved or rejected
        once, and what it was given is not touched again. */
    ghost predicate Valid()
      reads this
    {
      && |events| <= len
      && outcome == Verdict(howMany, len, events)
      && calls == (if outcome.Pending? then 0 else 1)
      && (switchedOff <==> !outcome.Pending? && Wanted(howMany, len) > 0)
      && (outcome.Pending? ==>
            && values == Fulfilled(events) && reasons == Failed(events)
            && toResolve + |values| == Wanted(howMany, len) && toResolve > 0
            && toReject + |reasons| == len - Wanted(howMany, len) + 1 && toReject > 0)
    }

    constructor (howMany: int, len: nat)
      ensures Valid() && events == [] && this.howMany == howMany && this.len == len
      ensures outcome == if howMany <= 0 || len == 0 then Resolved([]) else Pending
    {
      this.howMany := howMany;
      this.len := len;
      var wanted := if howMany < len then howMany else len;
      toResolve := if wanted < 0 then 0 else wanted;
      toReject := len - (if wanted < 0 then 0 else wanted) + 1;
      values, reasons, switchedOff := [], [], false;
      events := [];
      if wanted <= 0 {
        outcome, calls := Resolved([]), 1;
      } else {
        outcome, calls := Pending, 0;
      }
    }

    method FulfillOne(val: int)
      requires Valid() && |events| < len && howMany > 0
      modifies this
      ensures Valid() && events == old(events) + [Fulfil(val)]
      ensures !old(outcome).Pending? ==> outcome == old(outcome)
    {
      EventStep(howMany, len, events, Fulfil(val));
      events := events + [Fulfil(val)];
      if switchedOff {
        return;
      }
      values := values + [val];
      toResolve := toResolve - 1;
      if toResolve == 0 {
        switchedOff := true;
        outcome, calls := Resolved(values), calls + 1;
      }
    }

    method RejectOne(reason: int)
      requires Valid() && |events| < len && howMany > 0
      modifies this
      ensures Valid() && events == old(events) + [Reject(reason)]
      ensures !old(outcome).Pending? ==> outcome == old(outcome)
    {
      EventStep(howMany, len, events, Reject(reason));
      events := events + [Reject(reason)];
      if switchedOff {
        return;
      }
      reasons := reasons + [reason];
      toReject := toReject - 1;
      if toReject == 0 {
        switchedOff := true;
        outcome, calls := Rejected(reasons), calls + 1;
      }
    }
  }

  lemma EventCounts(events: seq<Settlement>, e: Settlement)
    ensures Fulfilled(events + [e]) == Fulfilled(events) + (if e.Fulfil? then [e.value] else [])
    ensures Failed(events + [e]) == Failed(events) + (if e.Reject? then [e.reason] else [])
  {
  }

  /** One more settlement: a decided race stays as it is, and an undecided one counts it. */
  lemma EventStep(howMany: int, len: nat, events: seq<Settlement>, e: Settlement)
    requires |events| < len
    ensures Fulfilled(events + [e]) == Fulfilled(events) + (if e.Fulfil? then [e.value] else [])
    ensures Failed(events + [e]) == Failed(events) + (if e.Reject? then [e.reason] else [])
    ensures !Verdict(howMany, len, events).Pending? ==>
              Verdict(howMany, len, events + [e]) == Verdict(howMany, len, events)
  {
    EventCounts(events, e);
    EveryItemCounts(events);
    EveryItemCounts(events + [e]);
    hide Fulfilled, Failed;
  }

  /** Where the race stands after any settlements: resolved with the first `howMany` values (at most all, at
      least none) exactly once that many items fulfilled, rejected with the first len - howMany + 1 reasons
      exactly once that many items rejected, and pending in between. */
  lemma RaceStands(howMany: int, len: nat, events: seq<Settlement>)
    requires |events| <= len
    ensures var n := if howMany <= 0 then 0 else if howMany >= len then len else howMany;
            var verdict := Verdict(howMany, len, events);
            && (verdict.Resolved? <==> |Fulfilled(events)| >= n)
            && (verdict.Rejected? <==> |Failed(events)| >= len - n + 1)
            && (verdict.Resolved? ==> verdict.values == Fulfilled(events)[..n])
            && (verdict.Rejected? ==> verdict.reasons == Failed(events)[..len - n + 1])
  {
    EveryItemCounts(events);
  }

  /** For a dense input whose items each settle once, in any order: the race is decided, one way only. It
      resolves exactly if `howMany` items (at most all, at least none) fulfil, with the first of their values
      in the order of settlement, and otherwise rejects with exactly the first len - howMany + 1 reasons. */
  lemma RaceDecided(howMany: int, len: nat, events: seq<Settlement>)
    requires |events| == len
    ensures var n := if howMany <= 0 then 0 else if howMany >= len then len else howMany;
            match Verdict(howMany, len, events)
            case Pending => false
            case Resolved(values) => |Fulfilled(events)| >= n && |values| == n && values <= Fulfilled(events)
            case Rejected(reasons) =>
              |Fulfilled(events)| < n && |reasons| == len - n + 1 && reasons <= Failed(events)
  {
    EveryItemCounts(events);
  }

  /** The outcome is there as soon as it cannot change any more, and no later settlement changes it. */
  lemma {:induction false} DecidedForGood(howMany: int, len: nat, events: seq<Settlement>, more: seq<Settlement>)
    requires |events + more| <= len && !Verdict(howMany, len, events).Pending?
    ensures Verdict(howMany, len, events + more) == Verdict(howMany, len, events)
    decreases |more|
  {
    if more == [] {
      assert events + more == events;
    } else {
      EventStep(howMany, len, events, more[0]);
      assert events + more == (events + [more[0]]) + more[1..];
      DecidedForGood(howMany, len, events + [more[0]], more[1..]);
    }
  }

  function Mixed(fulfilments: nat, rejections: nat): (events: seq<Settlement>)
    ensures |events| == fulfilments + rejections
    decreases fulfilments + rejections
  {
    if rejections > 0 then Mixed(fulfilments, rejections - 1) + [Reject(0)]
    else if fulfilments > 0 then Mixed(fulfilments - 1, 0) + [Fulfil(0)]
    else []
  }

  lemma {:induction false} MixedCounts(fulfilments: nat, rejections: nat)
    ensures |Fulfilled(Mixed(fulfilments, rejections))| == fulfilments
    ensures |Failed(Mixed(fulfilments, rejections))| == rejections
    decreases fulfilments + rejections
  {
    if rejections > 0 {
      MixedCounts(fulfilments, rejections - 1);
      EventCounts(Mixed(fulfilments, rejections - 1), Reject(0));
    } else if fulfilments > 0 {
      MixedCounts(fulfilments - 1, 0);
      EventCounts(Mixed(fulfilments - 1, 0), Fulfil(0));
    }
  }

  /** Density is needed: when only `n` items are there to settle, the race may stay undecided for ever
      exactly if some item is missing. */
  lemma HangsIffHole(howMany: int, len: nat, n: nat)
    requires n <= len && howMany > 0 && len > 0
    ensures (exists events :: |events| == n && Verdict(howMany, len, events) == Pending) <==> n < len
  {
    if n < len {
      var f := if n < Wanted(howMany, len) - 1 then n else Wanted(howMany, len) - 1;
      MixedCounts(f, n - f);
      assert Verdict(howMany, len, Mixed(f, n - f)) == Pending;
    } else {
      forall events | |events| == n
        ensures Verdict(howMany, len, events) != Pending
      {
        EveryItemCounts(events);
      }
    }
  }
}
