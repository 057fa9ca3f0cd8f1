/** The n-permit condition of a guarded function. */
module Guard {
  import opened Wrappers

  /** Entries are numbered in the order they ask. `granted` lists the entries let in, in order, and `inside`
      holds those of them that have not called exit since. */
  datatype State = State(allowed: int, count: nat, waiting: seq<nat>, asked: nat, granted: seq<nat>, inside: set<nat>)

  function Fresh(allowed: int): State {
    State(allowed, 0, [], 0, [], {})
  }

  function Enter(s: State): State {
    var t := s.(asked := s.asked + 1, count := s.count + 1);
    if s.count < s.allowed then t.(granted := s.granted + [s.asked], inside := s.inside + {s.asked})
    else t.(waiting := s.waiting + [s.asked])
  }

  /** Entry `e` calls exit, whether or not it is inside: the source cannot tell. */
  function Exit(s: State, e: nat): State {
    var t := s.(count := if s.count > 0 then s.count - 1 else 0, inside := s.inside - {e});
    if s.waiting == [] then t
    else t.(waiting := s.waiting[1..], granted := s.granted + [s.waiting[0]], inside := t.inside + {s.waiting[0]})
  }

  /** How many may be inside. */
  function Permits(s: State): nat {
    if s.allowed > 0 then s.allowed else 0
  }

  /** 0, 1, ..., n - 1. */
  function Upto(n: nat): (r: seq<nat>)
    ensures |r| == n && forall i :: 0 <= i < n ==> r[i] == i
  {
    seq(n, i => i)
  }

  /** `count` is those inside and those waiting, no more are inside than there are permits, all permits are in
      use while anyone waits, and permits go out in the order of asking. */
  predicate Inv(s: State) {
    && s.count == |s.inside| + |s.waiting|
    && |s.inside| <= Permits(s)
    && (s.waiting != [] ==> |s.inside| == Permits(s))
    && s.granted + s.waiting == Upto(s.asked)
    && forall e :: e in s.inside ==> e in s.granted
  }

  datatype Step = Enters | Exits(e: nat)

  function Apply(s: State, step: Step): State {
    match step
    case Enters => Enter(s)
    case Exits(e) => Exit(s, e)
  }

  /** Only entries that are inside exit: none exits before it is let in, and none twice. */
  predicate Disciplined(s: State, steps: seq<Step>)
    decreases |steps|
  {
    steps == [] || ((steps[0].Exits? ==> steps[0].e in s.inside) && Disciplined(Apply(s, steps[0]), steps[1..]))
  }

  function After(s: State, steps: seq<Step>): State
    decreases |steps|
  {
    if steps == [] then s else After(Apply(s, steps[0]), steps[1..])
  }

  /** Every entry that was granted or waits has been numbered already. */
  lemma Numbered(s: State)
    requires Inv(s)
    ensures forall e :: e in s.granted || e in s.waiting ==> e < s.asked
    ensures forall e :: e in s.waiting ==> e !in s.granted
  {
    var all := s.granted + s.waiting;
    forall e | e in s.granted || e in s.waiting
      ensures e < s.asked
    {
      assert e in all;
    }
    forall e | e in s.waiting
      ensures e !in s.granted
    {
      var k :| 0 <= k < |s.waiting| && s.waiting[k] == e;
      assert all[|s.granted| + k] == e;
      assert forall i :: 0 <= i < |s.granted| ==> all[i] == s.granted[i];
    }
  }

  lemma EnterKeeps(s: State)
    requires Inv(s)
    ensures Inv(Enter(s))
  {
    Numbered(s);
    var t := Enter(s);
    assert Upto(t.asked) == Upto(s.asked) + [s.asked];
    if s.count < s.allowed {
      assert s.waiting == [];
      assert |t.inside| == |s.inside| + 1;
    }
  }

  /** How many are inside after an exit: one less if the caller was inside, one more if someone waited. */
  lemma ExitCounts(s: State, e: nat)
    requires Inv(s)
    ensures |Exit(s, e).inside| ==
              |s.inside| - (if e in s.inside then 1 else 0) + (if s.waiting != [] then 1 else 0)
    ensures forall x :: x in Exit(s, e).inside ==> x in Exit(s, e).granted
    ensures Exit(s, e).granted + Exit(s, e).waiting == s.granted + s.waiting
  {
    Numbered(s);
    var left := s.inside - {e};
    assert e in s.inside ==> left + {e} == s.inside;
    assert e !in s.inside ==> left == s.inside;
    if s.waiting != [] {
      assert s.waiting[0] in s.waiting && s.waiting[0] !in left;
      assert |left + {s.waiting[0]}| == |left| + 1;
      assert (s.granted + [s.waiting[0]]) + s.waiting[1..] == s.granted + s.waiting;
    }
  }

  lemma ExitKeeps(s: State, e: nat)
    requires Inv(s) && e in s.inside
    ensures Inv(Exit(s, e))
  {
    ExitCounts(s, e);
    assert s.inside != {};
  }

  lemma {:induction false} RunKeeps(s: State, steps: seq<Step>)
    requires Inv(s) && Disciplined(s, steps)
    ensures Inv(After(s, steps)) && After(s, steps).allowed == s.allowed
    decreases |steps|
  {
    if steps != [] {
      if steps[0].Enters? {
        EnterKeeps(s);
      } else {
        ExitKeeps(s, steps[0].e);
      }
      RunKeeps(Apply(s, steps[0]), steps[1..]);
    }
  }

  /** Over all runs in which only entries inside exit: never more than `allowed` inside, no wake-up is lost
      (nobody waits while a permit is free), and permits are granted in the order of asking. */
  lemma GuardSafety(allowed: int, steps: seq<Step>)
    requires allowed > 0 && Disciplined(Fresh(allowed), steps)
    ensures var s := After(Fresh(allowed), steps);
            && |s.inside| <= allowed && s.count == |s.inside| + |s.waiting|
            && (|s.inside| < allowed ==> s.waiting == [])
            && s.granted == Upto(|s.granted|) && |s.granted| + |s.waiting| == s.asked
  {
    RunKeeps(Fresh(allowed), steps);
    var s := After(Fresh(allowed), steps);
    assert s.granted == (s.granted + s.waiting)[..|s.granted|];
  }

  /** Somebody is let in, in a run in which anybody asks, exactly if there are permits. */
  lemma GrantsIff(allowed: int, steps: seq<Step>)
    requires Disciplined(Fresh(allowed), steps)
    ensures var s := After(Fresh(allowed), steps); s.granted == [] <==> allowed <= 0 || s.asked == 0
  {
    RunKeeps(Fresh(allowed), steps);
    var s := After(Fresh(allowed), steps);
    if s.granted != [] && allowed <= 0 {
      NobodyEnters(Fresh(allowed), steps);
    }
  }

  lemma {:induction false} NobodyEnters(s: State, steps: seq<Step>)
    requires s.allowed <= 0 && s.granted == [] && Inv(s) && Disciplined(s, steps)
    ensures After(s, steps).granted == []
    decreases |steps|
  {
    if steps != [] {
      assert s.inside == {};
      EnterKeeps(s);
      NobodyEnters(Apply(s, steps[0]), steps[1..]);
    }
  }

  // ----- Exits outside the discipline -----

  /** Exactly which exits put more inside than there are permits at once: those of an entry that is not
      inside, while someone waits. */
  lemma OverfillsIff(s: State, e: nat)
    requires Inv(s)
    ensures |Exit(s, e).inside| > Permits(s) <==> e !in s.inside && s.waiting != []
  {
    ExitCounts(s, e);
    assert e in s.inside ==> |s.inside| > 0;
  }

  /** No more are inside than there are permits, now and through any disciplined continuation. */
  ghost predicate StaysSafe(s: State) {
    forall steps :: Disciplined(s, steps) ==> |After(s, steps).inside| <= Permits(s)
  }

  /** Exactly which exits are safe for good: those of an entry inside, and those while nobody is inside or
      waits. Any other exit can be followed by disciplined steps that let in more than there are permits. */
  lemma ExitSafeIff(s: State, e: nat)
    requires Inv(s)
    ensures StaysSafe(Exit(s, e)) <==> e in s.inside || s.count == 0
  {
    var t := Exit(s, e);
    if e in s.inside || s.count == 0 {
      if e in s.inside {
        ExitKeeps(s, e);
      } else {
        assert t == s;
      }
      forall steps | Disciplined(t, steps)
        ensures |After(t, steps).inside| <= Permits(t)
      {
        RunKeeps(t, steps);
      }
    } else {
      ExitCounts(s, e);
      if s.waiting != [] {
        assert After(t, []) == t && Disciplined(t, []);
      } else {
        Numbered(s);
        FillUp(t, s.allowed - t.count);
      }
    }
  }

  /** As many entries as `count` leaves room for are let in. */
  lemma {:induction false} FillUp(t: State, n: nat)
    requires t.count + n <= t.allowed && forall e :: e in t.inside ==> e < t.asked
    ensures Disciplined(t, Entering(n)) && |After(t, Entering(n)).inside| == |t.inside| + n
    decreases n
  {
    if n > 0 {
      assert Entering(n)[0] == Enters && Entering(n)[1..] == Entering(n - 1);
      assert |Enter(t).inside| == |t.inside| + 1;
      FillUp(Enter(t), n - 1);
    }
  }

  function Entering(n: nat): (steps: seq<Step>) {
    seq(n, i => Enters)
  }

  /** With one permit, an entry that exits twice lets two waiting ones in: the run is not disciplined. */
  lemma DoubleExit()
    ensures var steps := [Enters, Enters, Enters, Exits(0), Exits(0)];
            !Disciplined(Fresh(1), steps) && After(Fresh(1), steps).inside == {1, 2}
  {
  }

  class Condition {
    const allowed: int
    var count: nat
    var waiting: seq<nat>
    ghost var asked: nat
    ghost var granted: seq<nat>
    ghost var inside: set<nat>

    ghost function Now(): State
      reads this
    {
      State(allowed, count, waiting, asked, granted, inside)
    }

    constructor (allowed: int)
      ensures Now() == Fresh(allowed)
    {
      this.allowed := allowed;
      count, waiting := 0, [];
      asked, granted, inside := 0, [], {};
    }

    /** `me` names the entry that asks; the answer says whether it is let in at once. */
    method EnterOne(me: nat) returns (letIn: bool)
      requires me == asked
      modifies this
      ensures Now() == Enter(old(Now())) && (letIn <==> old(count) < allowed) && count == old(count) + 1
      ensures letIn ==> inside == old(inside) + {me} && waiting == old(waiting)
      ensures !letIn ==> inside == old(inside) && waiting == old(waiting) + [me]
    {
      if count < allowed {
        letIn := true;
        granted, inside := granted + [me], inside + {me};
      } else {
        letIn := false;
        waiting := waiting + [me];
      }
      count := count + 1;
      asked := asked + 1;
    }

    /** Entry `me` calls the exit it was given; the first waiting entry, if any, is let in. */
    method ExitOne(ghost me: nat) returns (woken: Option<nat>)
      modifies this
      ensures Now() == Exit(old(Now()), me)
      ensures woken == if old(waiting) != [] then Some(old(waiting)[0]) else None
      ensures waiting == if old(waiting) != [] then old(waiting)[1..] else []
      ensures inside == old(inside) - {me} + (if woken.Some? then {woken.value} else {})
    {
      count := if count - 1 > 0 then count - 1 else 0;
      inside := inside - {me};
      woken := None;
      if waiting != [] {
        woken := Some(waiting[0]);
        granted, inside := granted + [waiting[0]], inside + {waiting[0]};
        waiting := waiting[1..];
      }
    }
  }
}
