/** Where a new manager may start, and runs that end badly: a start above what the stored state vouches for,
    a crash before the first commit, and a late failure that takes the committed offset back. */
module Starts {
  import opened Wrappers
  import opened MessageLog
  import PS = PartitionState
  import opened AtLeastOnce
  import opened StoredZero

  /** A partition nobody has read and nothing was written to. */
  function Empty(first: nat): System {
    System([], first, None, map[], map[], {}, {})
  }

  /** Some run of enabled steps takes `sys` to `t`. */
  ghost predicate Leads(sys: System, t: System) {
    exists steps :: Run(sys, steps) && After(sys, steps) == t
  }

  lemma LeadsNowhere(sys: System)
    ensures Leads(sys, sys)
  {
    assert Run(sys, []) && After(sys, []) == sys;
  }

  lemma {:induction false} RunAppend(sys: System, steps: seq<Step>, step: Step)
    requires Run(sys, steps) && Enabled(After(sys, steps), step)
    ensures Run(sys, steps + [step]) && After(sys, steps + [step]) == Apply(After(sys, steps), step)
    decreases |steps|
  {
    if steps == [] {
      assert [step][1..] == [];
      assert steps + [step] == [step];
      assert Run(Apply(sys, step), []);
    } else {
      RunAppend(Apply(sys, steps[0]), steps[1..], step);
      assert (steps + [step])[1..] == steps[1..] + [step];
    }
  }

  lemma LeadsOn(sys: System, t: System, step: Step)
    requires Leads(sys, t) && Enabled(t, step)
    ensures Leads(sys, Apply(t, step))
  {
    var steps :| Run(sys, steps) && After(sys, steps) == t;
    RunAppend(sys, steps, step);
  }

  /** The step from `t` that takes it to `u`. */
  lemma LeadsTo(sys: System, t: System, step: Step, u: System)
    requires Leads(sys, t) && Enabled(t, step) && Apply(t, step) == u
    ensures Leads(sys, u)
  {
    LeadsOn(sys, t, step);
  }

  // ----- One message is fetched, emitted, acked and committed -----

  function Delivered(sys: System, k: Key, x: int, topologyId: string): System {
    sys.(managers := sys.managers[k := PS.State(x + 1, {}, x + 1, [])],
         inflight := sys.inflight[k := Flying(sys.inflight, k)],
         stored := Some(PS.Stored(topologyId, x + 1)),
         emitted := sys.emitted + {x}, acked := sys.acked + {x})
  }

  /** A manager that fetches one message and emits it at once. */
  lemma OneMessage(o: int, msg: Message, next: int)
    requires msg.decodes
    ensures PS.Next(PS.Start(o), [Fetched(msg, next)]) == (PS.State(next, {o}, o, []), Some(PS.Queued(msg, o)))
  {
    var s := PS.Start(o);
    var batch := [Fetched(msg, next)];
    var t := PS.State(next, {o}, o, [PS.Queued(msg, o)]);
    assert s.(pending := s.pending + {o}, waiting := s.waiting + [PS.Queued(msg, o)], emittedTo := next) == t;
    assert PS.Fill(s, batch) == PS.Fill(t, batch[1..]) == t;
    assert t.waiting[1..] == [];
  }

  /** The manager `k` of `t` has just started at `o`, and the next message is at `x`. */
  predicate Started(t: System, k: Key, o: int, x: int) {
    && k in t.managers && t.managers[k] == PS.Start(o)
    && First(t.log, o) == Some(x) && t.log[x].value.decodes
  }

  function Emitted(t: System, k: Key, o: int, x: int): System {
    t.(managers := t.managers[k := PS.State(x + 1, {o}, o, [])],
       inflight := t.inflight[k := Flying(t.inflight, k) + multiset{o}], emitted := t.emitted + {x})
  }

  lemma EmitOne(sys: System, t: System, k: Key, o: int, x: int)
    requires Leads(sys, t) && Started(t, k, o, x)
    ensures Leads(sys, Emitted(t, k, o, x))
  {
    var msg := t.log[x].value;
    var batch := [Fetched(msg, x + 1)];
    OneMessage(o, msg, x + 1);
    assert batch[1..] == [];
    LeadsTo(sys, t, NextTuple(k, batch), Emitted(t, k, o, x));
  }

  lemma AckOne(t: System, k: Key, o: int, x: int)
    requires First(t.log, o) == Some(x)
    ensures var s := Emitted(t, k, o, x);
            var u := s.(managers := t.managers[k := PS.State(x + 1, {}, o, [])],
                        inflight := t.inflight[k := Flying(t.inflight, k)], acked := t.acked + {x});
            Enabled(s, AckTuple(k, o)) && Apply(s, AckTuple(k, o)) == u
  {
    assert {o} - {o} == {} && Flying(t.inflight, k) + multiset{o} - multiset{o} == Flying(t.inflight, k);
    Overwrites(t.managers, k, PS.State(x + 1, {o}, o, []), PS.State(x + 1, {}, o, []));
    Overwrites(t.inflight, k, Flying(t.inflight, k) + multiset{o}, Flying(t.inflight, k));
  }

  lemma Overwrites<K, V>(m: map<K, V>, k: K, a: V, b: V)
    ensures m[k := a][k := b] == m[k := b]
  {
  }

  lemma CommitOne(t: System, u: System, k: Key, o: int, x: int, topologyId: string)
    requires u == Emitted(t, k, o, x).(managers := t.managers[k := PS.State(x + 1, {}, o, [])],
                                       inflight := t.inflight[k := Flying(t.inflight, k)], acked := t.acked + {x})
    requires o <= x
    ensures Enabled(u, Commit(k, topologyId)) && Apply(u, Commit(k, topologyId)) == Delivered(t, k, x, topologyId)
  {
    Overwrites(t.managers, k, PS.State(x + 1, {}, o, []), PS.State(x + 1, {}, x + 1, []));
  }

  lemma DeliverOne(sys: System, t: System, k: Key, o: int, x: int, topologyId: string)
    requires Leads(sys, t) && Started(t, k, o, x)
    ensures Leads(sys, Delivered(t, k, x, topologyId))
  {
    assert o <= x;
    EmitOne(sys, t, k, o, x);
    AckOne(t, k, o, x);
    hide Leads, Enabled, Apply;
    var u := Emitted(t, k, o, x).(managers := t.managers[k := PS.State(x + 1, {}, o, [])],
                                  inflight := t.inflight[k := Flying(t.inflight, k)], acked := t.acked + {x});
    LeadsTo(sys, Emitted(t, k, o, x), AckTuple(k, o), u);
    CommitOne(t, u, k, o, x, topologyId);
    LeadsTo(sys, u, Commit(k, topologyId), Delivered(t, k, x, topologyId));
  }

  // ----- A late failure -----

  function FellBack(t: System, k: Key, o: int, topologyId: string): System {
    t.(managers := t.managers[k := PS.State(o, {}, o, [])],
       inflight := t.inflight[k := Flying(t.inflight, k) - multiset{o}], stored := Some(PS.Stored(topologyId, o)))
  }

  /** An older emission of an offset below fails at a manager with nothing pending, and that offset is stored. */
  lemma FallBack(sys: System, t: System, k: Key, o: int, topologyId: string)
    requires Leads(sys, t) && k in t.managers && Aloft(t.inflight, k, o)
    requires var m := t.managers[k]; m.emittedTo > o && m.committedTo != o && m.pending == {} && m.waiting == []
    ensures Leads(sys, FellBack(t, k, o, topologyId))
  {
    var m := t.managers[k];
    var u := t.(managers := t.managers[k := PS.State(o, {}, m.committedTo, [])],
                inflight := t.inflight[k := Flying(t.inflight, k) - multiset{o}]);
    FailOne(t, k, o);
    Overwrites(t.managers, k, PS.State(o, {}, m.committedTo, []), PS.State(o, {}, o, []));
    hide Leads;
    LeadsTo(sys, t, FailTuple(k, o), u);
    LeadsTo(sys, u, Commit(k, topologyId), FellBack(t, k, o, topologyId));
  }

  lemma FailOne(t: System, k: Key, o: int)
    requires k in t.managers && Aloft(t.inflight, k, o)
    requires var m := t.managers[k]; m.emittedTo > o && m.pending == {} && m.waiting == []
    ensures Enabled(t, FailTuple(k, o))
    ensures Apply(t, FailTuple(k, o)) ==
            t.(managers := t.managers[k := PS.State(o, {}, t.managers[k].committedTo, [])],
               inflight := t.inflight[k := Flying(t.inflight, k) - multiset{o}])
  {
    assert PS.Below({}, o) == {};
  }

  // ----- Safe starts -----

  /** At least once, as far as the stored offset goes. */
  ghost predicate AtLeastOnceHolds(sys: System) {
    sys.stored.Some? ==> AllAcked(sys, sys.stored.value.offset)
  }

  /** However the system goes on after this start, at least once holds. */
  ghost predicate StartHolds(sys: System, k: Key, read: Option<PS.Stored>, cfg: PS.StartConfig) {
    Possible(sys, Open(k, read, cfg)) ==>
      forall t :: Leads(Apply(sys, Open(k, read, cfg)), t) ==> AtLeastOnceHolds(t)
  }

  /** A log whose only message is at `x`. */
  function Lone(x: nat, msg: Message): (log: Log)
    ensures |log| == x + 1 && log[x] == Some(msg) && forall y :: Present(log, y) ==> y == x
    ensures forall o :: o <= x ==> First(log, o) == Some(x)
  {
    var log := seq(x, i => None) + [Some(msg)];
    assert Present(log, x);
    assert forall y :: 0 <= y < x ==> log[y] == None;
    log
  }

  /** One message lies just below `start`; it was never acked, and manager `k` has never been there. */
  predicate Exposed(sys: System, k: Key, start: nat) {
    && |sys.log| == start > sys.first && Owed(sys.log, start - 1) && start - 1 !in sys.acked
    && k !in sys.managers && k !in sys.inflight
  }

  /** A message appended above everything acked and every manager's work is exposed. */
  lemma ExposeOne(sys: System, t: System, k: Key, start: nat, msg: Message)
    requires Leads(sys, t) && msg.decodes && |t.log| < start && t.first < start
    requires k !in t.managers && k !in t.inflight && start - 1 !in t.acked
    ensures var u := t.(log := t.log + Lone(start - 1 - |t.log|, msg)); Leads(sys, u) && Exposed(u, k, start)
  {
    LeadsOn(sys, t, Append(Lone(start - 1 - |t.log|, msg)));
  }

  /** What is stored, in a system where only manager `k` was ever at work. */
  ghost predicate LeftBy(sys: System, first: nat, stored: Option<PS.Stored>, k: Key) {
    sys.first == first && sys.stored == stored && sys.managers.Keys == {k} && sys.inflight.Keys == {k}
  }

  /** A manager opens at `o` on a log with one message, at `x`. */
  lemma OpenLone(first: nat, k: Key, o: int, x: nat, msg: Message) returns (sys: System)
    requires msg.decodes && o <= x && o <= first
    ensures Leads(Empty(first), sys) && Started(sys, k, o, x)
    ensures sys == Empty(first).(log := Lone(x, msg), managers := map[k := PS.Start(o)])
  {
    hide Leads;
    var s0 := Empty(first);
    var cfg := PS.StartConfig("", true, o, o);
    var s1 := s0.(log := Lone(x, msg));
    sys := s1.(managers := map[k := PS.Start(o)]);
    LeadsNowhere(s0);
    assert [] + Lone(x, msg) == Lone(x, msg);
    LeadsTo(s0, s0, Append(Lone(x, msg)), s1);
    LeadsTo(s0, s1, Open(k, None, cfg), sys);
  }

  /** The manager is replaced, and its emission of the message at `x` may still be answered. */
  lemma Reopen(first: nat, t: System, k: Key, o: int, x: int, start: int)
    requires Leads(Empty(first), t) && Started(t, k, o, x) && t.first == first && t.stored == None
    requires start <= first && start <= |t.log|
    ensures var u := Emitted(t, k, o, x).(managers := t.managers[k := PS.Start(start)]);
            && Leads(Empty(first), u) && Flying(u.inflight, k) == Flying(t.inflight, k) + multiset{o}
            && (start == o ==> Started(u, k, o, x))
  {
    hide Leads;
    var s0 := Empty(first);
    var s1 := Emitted(t, k, o, x);
    EmitOne(s0, t, k, o, x);
    var s2 := s1.(managers := s1.managers - {k});
    LeadsTo(s0, s1, Close(k, false), s2);
    var s3 := s1.(managers := t.managers[k := PS.Start(start)]);
    assert s2.managers[k := PS.Start(start)] == s3.managers;
    LeadsTo(s0, s2, Open(k, None, PS.StartConfig("", true, start, start)), s3);
  }

  /** A run at whose end an offset above 0 is stored, from a log with one message just below it. */
  lemma ReachPositive(first: nat, stored: PS.Stored, k: Key, msg: Message) returns (sys: System)
    requires msg.decodes && stored.offset > 0
    ensures Leads(Empty(first), sys) && LeftBy(sys, first, Some(stored), k)
    ensures |sys.log| == stored.offset && sys.acked == {stored.offset - 1}
  {
    var x := stored.offset - 1;
    var o := if first < x then first else x;
    var t := OpenLone(first, k, o, x, msg);
    DeliverOne(Empty(first), t, k, o, x, stored.topologyId);
    sys := Delivered(t, k, x, stored.topologyId);
  }

  /** A run at whose end an offset below the first start is stored, with the only message, just below `start`,
      unacked: a second manager is told of the failure of what the first one emitted. */
  lemma ReachBelow(first: nat, stored: PS.Stored, k: Key, start: nat, msg: Message) returns (sys: System)
    requires msg.decodes && stored.offset <= 0 && stored.offset < first < start
    ensures Leads(Empty(first), sys) && LeftBy(sys, first, Some(stored), k)
    ensures sys.log == Lone(start - 1, msg) && sys.acked == {}
  {
    hide Leads;
    var t := OpenLone(first, k, stored.offset, start - 1, msg);
    Reopen(first, t, k, stored.offset, start - 1, first);
    var u := Emitted(t, k, stored.offset, start - 1).(managers := t.managers[k := PS.Start(first)]);
    FallBack(Empty(first), u, k, stored.offset, stored.topologyId);
    sys := FellBack(u, k, stored.offset, stored.topologyId);
  }

  /** A run that began at 0 and at whose end 0 is stored: the first message is emitted twice, acked and
      committed, and then its older emission fails. */
  lemma ReachZero(stored: PS.Stored, k: Key, msg: Message) returns (sys: System)
    requires msg.decodes && stored.offset == 0
    ensures Leads(Empty(0), sys) && LeftBy(sys, 0, Some(stored), k)
    ensures |sys.log| == 1 && sys.acked == {0}
  {
    hide Leads, First, Started;
    var t := OpenLone(0, k, 0, 0, msg);
    Reopen(0, t, k, 0, 0, 0);
    var u := Emitted(t, k, 0, 0).(managers := t.managers[k := PS.Start(0)]);
    DeliverOne(Empty(0), u, k, 0, 0, stored.topologyId);
    var v := Delivered(u, k, 0, stored.topologyId);
    FallBack(Empty(0), v, k, 0, stored.topologyId);
    sys := FellBack(v, k, 0, stored.topologyId);
  }

  /** A start at 1 when 0 is stored and reading began at 0: the first message was done with. */
  predicate PastFirst(first: nat, stored: Option<PS.Stored>, start: int) {
    first == 0 && stored.Some? && stored.value.offset == 0 && start == 1
  }

  /** Whatever is stored, and whatever higher offset a start is at, some run ends with that node stored and an
      unacked message just below the start; except just past the first message when 0 is stored. */
  lemma ReachExposed(first: nat, stored: Option<PS.Stored>, k: Key, start: nat, msg: Message)
    returns (sys: System)
    requires msg.decodes && !SafeStart(first, stored, start) && !PastFirst(first, stored, start)
    ensures Leads(Empty(first), sys) && sys.first == first && sys.stored == stored && Exposed(sys, k, start)
  {
    hide Leads;
    var t := Empty(first);
    LeadsNowhere(t);
    if stored.Some? && stored.value.offset > 0 {
      t := ReachPositive(first, stored.value, k + 1, msg);
    } else if stored.Some? && stored.value.offset < first {
      sys := ReachBelow(first, stored.value, k + 1, start, msg);
      assert Exposed(sys, k, start);
      return;
    } else if stored.Some? && stored.value.offset == 0 {
      t := ReachZero(stored.value, k + 1, msg);
    }
    ExposeOne(Empty(first), t, k, start, msg);
    sys := t.(log := t.log + Lone(start - 1 - |t.log|, msg));
  }

  /** From a start above an unacked message, the next message is delivered and a higher offset stored. */
  lemma ExposedLoses(sys: System, k: Key, read: Option<PS.Stored>, cfg: PS.StartConfig, msg: Message)
    requires msg.decodes && PS.StartOffset(read, cfg) >= 0 && Reads(sys.stored, read)
    requires Exposed(sys, k, PS.StartOffset(read, cfg))
    ensures Possible(sys, Open(k, read, cfg)) && !StartHolds(sys, k, read, cfg)
  {
    var start := PS.StartOffset(read, cfg);
    var s1 := Apply(sys, Open(k, read, cfg));
    var s2 := s1.(log := s1.log + [Some(msg)]);
    LeadsNowhere(s1);
    LeadsTo(s1, s1, Append([Some(msg)]), s2);
    DeliverOne(s1, s2, k, start, start, "");
    var t := Delivered(s2, k, start, "");
    assert Owed(t.log, start - 1);
    assert !AtLeastOnceHolds(t);
  }

  lemma {:induction false} LeadsKeeps(sys: System, t: System)
    requires Inv(sys) && Leads(sys, t)
    ensures Inv(t)
  {
    var steps :| Run(sys, steps) && After(sys, steps) == t;
    RunKeeps(sys, steps);
  }

  /** The exact condition on starts: from every reachable state with this stored node, whether or not the
      constructor can read it, and however the system goes on, at least once holds after the start, if and only
      if the start offset is no higher than the stored offset or the very first start, or it is 1 and 0 is stored. */
  lemma StartSafeIff(first: nat, stored: Option<PS.Stored>, k: Key, read: Option<PS.Stored>, cfg: PS.StartConfig)
    requires Reads(stored, read)
    ensures var start := PS.StartOffset(read, cfg);
            SafeStart(first, stored, start) || PastFirst(first, stored, start) <==>
            forall sys :: Leads(Empty(first), sys) && sys.stored == stored ==> StartHolds(sys, k, read, cfg)
  {
    var start := PS.StartOffset(read, cfg);
    if SafeStart(first, stored, start) || PastFirst(first, stored, start) {
      forall sys | Leads(Empty(first), sys) && sys.stored == stored && Possible(sys, Open(k, read, cfg))
        ensures StartHolds(sys, k, read, cfg)
      {
        SafeStartHolds(first, sys, k, read, cfg);
      }
    } else {
      var msg := Message(0, 0, true);
      var sys := ReachExposed(first, stored, k, start, msg);
      ExposedLoses(sys, k, read, cfg, msg);
    }
  }

  lemma SafeStartHolds(first: nat, sys: System, k: Key, read: Option<PS.Stored>, cfg: PS.StartConfig)
    requires Leads(Empty(first), sys) && Possible(sys, Open(k, read, cfg))
    requires var start := PS.StartOffset(read, cfg);
             SafeStart(first, sys.stored, start) || PastFirst(first, sys.stored, start)
    ensures StartHolds(sys, k, read, cfg)
  {
    LeadsKeeps(Empty(first), sys);
    FirstStays(Empty(first), sys);
    if PastFirst(first, sys.stored, PS.StartOffset(read, cfg)) {
      var steps :| Run(Empty(0), steps) && After(Empty(0), steps) == sys;
      StoredZeroMeansAcked(Empty(0), steps);
    }
    OpenKeeps(sys, k, read, cfg);
    forall t | Leads(Apply(sys, Open(k, read, cfg)), t)
      ensures AtLeastOnceHolds(t)
    {
      LeadsKeeps(Apply(sys, Open(k, read, cfg)), t);
    }
  }

  lemma {:induction false} RunKeepsFirst(sys: System, steps: seq<Step>)
    requires Run(sys, steps)
    ensures After(sys, steps).first == sys.first
    decreases |steps|
  {
    if steps != [] {
      RunKeepsFirst(Apply(sys, steps[0]), steps[1..]);
    }
  }

  lemma FirstStays(sys: System, t: System)
    requires Leads(sys, t)
    ensures t.first == sys.first
  {
    var steps :| Run(sys, steps) && After(sys, steps) == t;
    RunKeepsFirst(sys, steps);
  }

  /** Over every state that satisfies the invariant, whatever is stored and read: opening a manager keeps the
      invariant in all of them if and only if its start is no higher than the stored offset or the first start. */
  lemma StartKeepsIff(first: nat, stored: Option<PS.Stored>, k: Key, read: Option<PS.Stored>, cfg: PS.StartConfig)
    requires Reads(stored, read)
    ensures SafeStart(first, stored, PS.StartOffset(read, cfg)) <==>
            forall sys :: Inv(sys) && sys.first == first && sys.stored == stored &&
                          Possible(sys, Open(k, read, cfg)) ==>
                            Inv(Apply(sys, Open(k, read, cfg)))
  {
    var start := PS.StartOffset(read, cfg);
    if SafeStart(first, stored, start) {
      forall sys | Inv(sys) && sys.first == first && sys.stored == stored && Possible(sys, Open(k, read, cfg))
        ensures Inv(Apply(sys, Open(k, read, cfg)))
      {
        OpenKeeps(sys, k, read, cfg);
      }
    } else {
      var sys := Empty(first).(log := Lone(start - 1, Message(0, 0, true)), stored := stored);
      assert Inv(sys);
      var t := Apply(sys, Open(k, read, cfg));
      assert Owed(t.log, start - 1) && !Awaited(t.log, t.managers[k], start - 1);
      assert !Covered(t, t.managers[k]);
    }
  }

  // ----- Resuming from the stored offset -----

  /** A manager that reads the stored node, for the same topology or unless the start is forced, begins exactly
      at the stored offset, with nothing pending. */
  lemma OpensAtStored(sys: System, k: Key, id: string, o: int, cfg: PS.StartConfig)
    requires sys.stored == Some(PS.Stored(id, o)) && (cfg.instanceId == id || !cfg.forceFromStart)
    requires Possible(sys, Open(k, sys.stored, cfg))
    ensures var t := Apply(sys, Open(k, sys.stored, cfg));
            k in t.managers && t.managers[k] == PS.State(o, {}, o, []) && t.stored == sys.stored
  {
    PS.StartsWhere(sys.stored, cfg);
  }

  /** Commit, crash and reopen resume at exactly what was written: in every state that satisfies the invariant,
      once a commit of `k` writes, a later manager `j` of the same topology begins at the completed offset. */
  lemma ResumesWhereCommitted(sys: System, k: Key, id: string, dropTuples: bool, j: Key, cfg: PS.StartConfig)
    requires Inv(sys) && k in sys.managers && PS.Completed(sys.managers[k]) != sys.managers[k].committedTo
    requires cfg.instanceId == id && (j == k || j !in sys.managers)
    ensures var c := PS.Completed(sys.managers[k]);
            var crashed := Apply(Apply(sys, Commit(k, id)), Close(k, dropTuples));
            && crashed.stored == Some(PS.Stored(id, c))
            && Possible(crashed, Open(j, crashed.stored, cfg))
            && var t := Apply(crashed, Open(j, crashed.stored, cfg));
               t.managers[j] == PS.State(c, {}, c, []) && t.acked == sys.acked && t.log == sys.log
  {
    var c := PS.Completed(sys.managers[k]);
    var crashed := Apply(Apply(sys, Commit(k, id)), Close(k, dropTuples));
    CommitCovers(sys, sys.managers[k]);
    PS.StartsWhere(crashed.stored, cfg);
    OpensAtStored(crashed, j, id, c, cfg);
  }

  /** Every manager reads the stored node and resumes from it; while nothing is stored it starts no higher than
      the very first one. */
  predicate Resumes(sys: System, step: Step) {
    step.Open? ==>
      match sys.stored
      case Some(node) =>
        step.read == sys.stored && (step.cfg.instanceId == node.topologyId || !step.cfg.forceFromStart)
      case None => step.cfg.fallback <= sys.first
  }

  /** Steps that are possible, with managers that resume. */
  predicate ResumingRun(sys: System, steps: seq<Step>)
    decreases |steps|
  {
    steps == [] ||
    (Possible(sys, steps[0]) && Resumes(sys, steps[0]) && ResumingRun(Apply(sys, steps[0]), steps[1..]))
  }

  lemma {:induction false} ResumingIsEnabled(sys: System, steps: seq<Step>)
    requires ResumingRun(sys, steps)
    ensures Run(sys, steps)
    decreases |steps|
  {
    if steps != [] {
      if steps[0].Open? {
        PS.StartsWhere(steps[0].read, steps[0].cfg);
      }
      ResumingIsEnabled(Apply(sys, steps[0]), steps[1..]);
    }
  }

  /** At least once over every run of possible steps in which managers resume from what is stored: nothing is
      assumed of the offsets they start at. */
  lemma AtLeastOnceWhenResuming(sys: System, steps: seq<Step>)
    requires Initial(sys) && ResumingRun(sys, steps)
    ensures Run(sys, steps)
    ensures var t := After(sys, steps);
            && AtLeastOnceHolds(t)
            && (forall k, x :: k in t.managers && t.first <= x < t.managers[k].emittedTo && Owed(t.log, x) ==>
                  x in t.acked || Awaited(t.log, t.managers[k], x))
  {
    ResumingIsEnabled(sys, steps);
    AtLeastOnce.AtLeastOnce(sys, steps);
  }

  // ----- A crash before the first commit -----

  /** What the constructor asks for unless `forceFromStart` is set: the end of the log. */
  predicate AsksLatest(sys: System, cfg: PS.StartConfig) {
    !cfg.forceFromStart && cfg.fallback == |sys.log|
  }

  /** The first manager started at the end of an empty log, emitted message `a` and crashed with it. */
  function Crashed(a: Message): System {
    Empty(0).(log := [Some(a)], inflight := map[], emitted := {0})
  }

  lemma CrashedIsReached(a: Message, cfg: PS.StartConfig)
    requires a.decodes && AsksLatest(Empty(0), cfg)
    ensures Enabled(Empty(0), Open(0, None, cfg)) && Leads(Apply(Empty(0), Open(0, None, cfg)), Crashed(a))
  {
    var s1 := Empty(0).(managers := map[0 := PS.Start(0)]);
    assert Apply(Empty(0), Open(0, None, cfg)) == s1;
    LeadsNowhere(s1);
    var s2 := s1.(log := [Some(a)]);
    LeadsTo(s1, s1, Append([Some(a)]), s2);
    EmitOne(s1, s2, 0, 0, 0);
    LeadsTo(s1, Emitted(s2, 0, 0, 0), Close(0, true), Crashed(a));
  }

  /** A crash before the first commit, with both managers asking for the end of the log: message 0 was emitted,
      ends up below the stored offset, and was never acked. */
  lemma CrashBeforeFirstCommitLoses(a: Message, b: Message, one: PS.StartConfig, two: PS.StartConfig)
    requires a.decodes && b.decodes && AsksLatest(Empty(0), one) && AsksLatest(Crashed(a), two)
    ensures Enabled(Empty(0), Open(0, None, one)) && Leads(Apply(Empty(0), Open(0, None, one)), Crashed(a))
    ensures Possible(Crashed(a), Open(0, None, two))
    ensures exists t :: Leads(Apply(Crashed(a), Open(0, None, two)), t) && t.stored == Some(PS.Stored("", 2)) &&
                        Owed(t.log, 0) && 0 in t.emitted && 0 !in t.acked
  {
    CrashedIsReached(a, one);
    var s1 := Apply(Crashed(a), Open(0, None, two));
    var s2 := s1.(log := [Some(a), Some(b)]);
    LeadsNowhere(s1);
    LeadsTo(s1, s1, Append([Some(b)]), s2);
    DeliverOne(s1, s2, 0, 1, 1, "");
  }

  // ----- The committed offset falls -----

  /** Manager 0 on a log of two messages, with nothing queued. */
  function OfTwo(a: Message, b: Message, m: PS.State, inflight: map<Key, multiset<int>>, emitted: set<int>): System {
    Empty(0).(log := [Some(a), Some(b)], managers := map[0 := m], inflight := inflight, emitted := emitted)
  }

  lemma RunOfTwo(a: Message, b: Message)
    ensures IsRun([Some(a), Some(b)], 0, [Fetched(a, 1), Fetched(b, 2)])
    ensures First([Some(a), Some(b)], 0) == Some(0) && First([Some(a), Some(b)], 1) == Some(1)
  {
    var batch := [Fetched(a, 1), Fetched(b, 2)];
    var log := [Some(a), Some(b)];
    assert Present(log, 0) && Present(log, 1);
    assert batch[1..] == [Fetched(b, 2)] && batch[1..][1..] == [];
    assert IsRun(log, 2, []);
    assert IsRun(log, 1, batch[1..]);
  }

  lemma FetchTwo(a: Message, b: Message, inflight: map<Key, multiset<int>>, emitted: set<int>)
    requires a.decodes && b.decodes && inflight.Keys <= {0}
    ensures var batch := [Fetched(a, 1), Fetched(b, 2)];
            var s := OfTwo(a, b, PS.Start(0), inflight, emitted);
            var t := OfTwo(a, b, PS.State(2, {0, 1}, 0, [PS.Queued(b, 1)]),
                           map[0 := Flying(inflight, 0) + multiset{0}], emitted + {0});
            Enabled(s, NextTuple(0, batch)) && Apply(s, NextTuple(0, batch)) == t
  {
    var batch := [Fetched(a, 1), Fetched(b, 2)];
    RunOfTwo(a, b);
    NextOfTwo(a, b);
    hide PS.Next;
  }

  lemma NextOfTwo(a: Message, b: Message)
    requires a.decodes
    ensures PS.Next(PS.Start(0), [Fetched(a, 1), Fetched(b, 2)]) ==
            (PS.State(2, {0, 1}, 0, [PS.Queued(b, 1)]), Some(PS.Queued(a, 0)))
  {
    var batch := [Fetched(a, 1), Fetched(b, 2)];
    assert batch[1..] == [Fetched(b, 2)] && batch[1..][1..] == [];
    var m1 := PS.State(1, {0}, 0, [PS.Queued(a, 0)]);
    var m2 := PS.State(2, {0, 1}, 0, [PS.Queued(a, 0), PS.Queued(b, 1)]);
    assert m1.pending + {1} == m2.pending && m1.waiting + [PS.Queued(b, 1)] == m2.waiting;
    assert PS.Fill(m1, batch[1..]) == PS.Fill(m2, []) == m2;
    assert PS.Start(0).pending + {0} == m1.pending && PS.Start(0).waiting + [PS.Queued(a, 0)] == m1.waiting;
    assert PS.Fill(PS.Start(0), batch) == m2;
    assert m2.waiting[1..] == [PS.Queued(b, 1)];
  }

  lemma EmitSecond(a: Message, b: Message, out: multiset<int>, emitted: set<int>)
    requires b.decodes
    ensures var t := OfTwo(a, b, PS.State(2, {0, 1}, 0, [PS.Queued(b, 1)]), map[0 := out], emitted);
            var u := OfTwo(a, b, PS.State(2, {0, 1}, 0, []), map[0 := out + multiset{1}], emitted + {1});
            Enabled(t, NextTuple(0, [])) && Apply(t, NextTuple(0, [])) == u
  {
    RunOfTwo(a, b);
    assert [PS.Queued(b, 1)][1..] == [];
  }

  /** Both messages are fetched and emitted. */
  lemma EmitTwo(a: Message, b: Message, inflight: map<Key, multiset<int>>, emitted: set<int>)
    requires a.decodes && b.decodes && inflight.Keys <= {0}
    requires Leads(Empty(0), OfTwo(a, b, PS.Start(0), inflight, emitted))
    ensures Leads(Empty(0), OfTwo(a, b, PS.State(2, {0, 1}, 0, []),
                                  map[0 := Flying(inflight, 0) + multiset{0, 1}], emitted + {0, 1}))
  {
    hide Enabled, Apply, Leads, OfTwo;
    var out := Flying(inflight, 0) + multiset{0};
    var s := OfTwo(a, b, PS.Start(0), inflight, emitted);
    var t := OfTwo(a, b, PS.State(2, {0, 1}, 0, [PS.Queued(b, 1)]), map[0 := out], emitted + {0});
    var u := OfTwo(a, b, PS.State(2, {0, 1}, 0, []), map[0 := out + multiset{1}], emitted + {0} + {1});
    FetchTwo(a, b, inflight, emitted);
    LeadsTo(Empty(0), s, NextTuple(0, [Fetched(a, 1), Fetched(b, 2)]), t);
    EmitSecond(a, b, out, emitted + {0});
    LeadsTo(Empty(0), t, NextTuple(0, []), u);
    assert out + multiset{1} == Flying(inflight, 0) + multiset{0, 1};
    assert emitted + {0} + {1} == emitted + {0, 1};
  }

  lemma OpenOnTwo(a: Message, b: Message)
    ensures Leads(Empty(0), OfTwo(a, b, PS.Start(0), map[], {}))
  {
    var s0 := Empty(0);
    var cfg := PS.StartConfig("", true, 0, 0);
    LeadsNowhere(s0);
    var s1 := s0.(log := [Some(a), Some(b)]);
    LeadsTo(s0, s0, Append([Some(a), Some(b)]), s1);
    LeadsTo(s0, s1, Open(0, None, cfg), OfTwo(a, b, PS.Start(0), map[], {}));
  }

  lemma FailFirst(a: Message, b: Message)
    ensures var s := OfTwo(a, b, PS.State(2, {0, 1}, 0, []), map[0 := multiset{0, 1}], {0, 1});
            Enabled(s, FailTuple(0, 0)) &&
            Apply(s, FailTuple(0, 0)) == OfTwo(a, b, PS.Start(0), map[0 := multiset{1}], {0, 1})
  {
    FailsToStart(PS.State(2, {0, 1}, 0, []));
    assert multiset{0, 1} - multiset{0} == multiset{1};
    hide PS.Fail;
  }

  lemma FailsToStart(m: PS.State)
    requires m.emittedTo > 0 && m.committedTo == 0 && m.waiting == [] && forall p :: p in m.pending ==> p >= 0
    ensures PS.Fail(m, 0) == PS.Start(0)
  {
    assert PS.Below(m.pending, 0) == {};
  }

  /** Both messages are emitted, the first fails, and both are emitted again: message 1 is out twice. */
  lemma OutTwice(a: Message, b: Message)
    requires a.decodes && b.decodes
    ensures Leads(Empty(0), OfTwo(a, b, PS.State(2, {0, 1}, 0, []), map[0 := multiset{0, 1, 1}], {0, 1}))
  {
    hide Enabled, Apply, Leads, OfTwo;
    OpenOnTwo(a, b);
    EmitTwo(a, b, map[], {});
    assert Flying(map[], 0) + multiset{0, 1} == multiset{0, 1} && {} + {0, 1} == {0, 1};
    FailFirst(a, b);
    LeadsTo(Empty(0), OfTwo(a, b, PS.State(2, {0, 1}, 0, []), map[0 := multiset{0, 1}], {0, 1}), FailTuple(0, 0),
            OfTwo(a, b, PS.Start(0), map[0 := multiset{1}], {0, 1}));
    EmitTwo(a, b, map[0 := multiset{1}], {0, 1});
    assert Flying(map[0 := multiset{1}], 0) + multiset{0, 1} == multiset{0, 1, 1};
    assert {0, 1} + {0, 1} == {0, 1};
  }

  /** Both messages are acked and offset 2 is stored, with the older emission of message 1 still out. */
  function StoredTwo(a: Message, b: Message): System {
    OfTwo(a, b, PS.State(2, {}, 2, []), map[0 := multiset{1}], {0, 1})
      .(stored := Some(PS.Stored("", 2)), acked := {0, 1})
  }

  lemma AckOf(a: Message, b: Message, o: int, pending: set<int>, out: multiset<int>, acked: set<int>)
    requires o in {0, 1} && o in out
    ensures var s := OfTwo(a, b, PS.State(2, pending, 0, []), map[0 := out], {0, 1}).(acked := acked);
            var t := OfTwo(a, b, PS.State(2, pending - {o}, 0, []), map[0 := out - multiset{o}], {0, 1})
                       .(acked := acked + {o});
            Enabled(s, AckTuple(0, o)) && Apply(s, AckTuple(0, o)) == t
  {
    RunOfTwo(a, b);
    hide IsRun, First;
    Overwrites(map[], 0, PS.State(2, pending, 0, []), PS.State(2, pending - {o}, 0, []));
    Overwrites(map[], 0, out, out - multiset{o});
  }

  lemma StoredTwoIsReached(a: Message, b: Message)
    requires a.decodes && b.decodes
    ensures Leads(Empty(0), StoredTwo(a, b))
  {
    hide Enabled, Apply, Leads, Flying;
    var s0 := Empty(0);
    OutTwice(a, b);
    var s1 := OfTwo(a, b, PS.State(2, {0, 1}, 0, []), map[0 := multiset{0, 1, 1}], {0, 1});
    var s2 := OfTwo(a, b, PS.State(2, {1}, 0, []), map[0 := multiset{1, 1}], {0, 1}).(acked := {0});
    var s3 := OfTwo(a, b, PS.State(2, {}, 0, []), map[0 := multiset{1}], {0, 1}).(acked := {0, 1});
    assert multiset{0, 1, 1} - multiset{0} == multiset{1, 1} && multiset{1, 1} - multiset{1} == multiset{1};
    assert {0, 1} - {0} == {1} && {1} - {1} == {} && {} + {0} == {0} && {0} + {1} == {0, 1};
    AckOf(a, b, 0, {0, 1}, multiset{0, 1, 1}, {});
    LeadsTo(s0, s1, AckTuple(0, 0), s2);
    AckOf(a, b, 1, {1}, multiset{1, 1}, {0});
    LeadsTo(s0, s2, AckTuple(0, 1), s3);
    CommitTwo(s3);
    LeadsTo(s0, s3, Commit(0, ""), StoredTwo(a, b));
  }

  lemma CommitTwo(s: System)
    requires s.managers == map[0 := PS.State(2, {}, 0, [])]
    ensures Enabled(s, Commit(0, ""))
    ensures Apply(s, Commit(0, "")) ==
            s.(managers := map[0 := PS.State(2, {}, 2, [])], stored := Some(PS.Stored("", 2)))
  {
  }

  /** The committed offset can go down: two messages are emitted, the first fails, both are emitted again and
      acked, and 2 is stored; then the older emission of the second fails, and 1 is stored. */
  lemma CommittedFalls(a: Message, b: Message)
    requires a.decodes && b.decodes
    ensures var s := StoredTwo(a, b);
            && Leads(Empty(0), s) && s.stored == Some(PS.Stored("", 2))
            && Enabled(s, FailTuple(0, 1))
            && Apply(Apply(s, FailTuple(0, 1)), Commit(0, "")).stored == Some(PS.Stored("", 1))
  {
    StoredTwoIsReached(a, b);
    var s := StoredTwo(a, b);
    assert PS.Below({}, 1) == {};
    var t := Apply(s, FailTuple(0, 1));
    assert t.managers[0] == PS.State(1, {}, 2, []);
  }
}
