/** The offset 0 is stored only after the first message of the log is done with, when reading began there. */
module StoredZero {
  import opened Wrappers
  import opened MessageLog
  import PS = PartitionState
  import opened AtLeastOnce

  /** The first message is owed and was never acked, or is yet to come. */
  predicate FirstOpen(sys: System) {
    sys.first == 0 && (sys.log == [] || (Owed(sys.log, 0) && 0 !in sys.acked))
  }

  /** The completed offset of this manager is negative. */
  ghost predicate Behind(m: PS.State) {
    m.emittedTo < 0 || exists p :: p in m.pending && p < 0
  }

  ghost predicate NotBeyond(m: PS.State) {
    m.committedTo <= 0 && (m.committedTo < 0 ==> Behind(m))
  }

  ghost predicate ZeroInv(sys: System) {
    FirstOpen(sys) ==>
      && (sys.stored.Some? ==> sys.stored.value.offset != 0)
      && (forall k :: k in sys.managers ==> NotBeyond(sys.managers[k]))
  }

  /** While the first message is open, nothing above 0 counts as acked. */
  lemma NotAbove(sys: System, hi: int)
    requires FirstOpen(sys) && hi <= |sys.log| && AllAcked(sys, hi)
    ensures hi <= 0
  {
  }

  /** An offset at or below 0 names the first message. */
  lemma NamesFirst(sys: System, o: int)
    requires FirstOpen(sys) && First(sys.log, o).Some? && o <= 0
    ensures First(sys.log, o) == Some(0) && sys.log[0].Some? && sys.log[0].value.decodes
  {
    assert Present(sys.log, 0);
  }

  lemma {:induction false} FillStaysBehind(m: PS.State, batch: seq<Fetched>)
    requires Behind(m)
    ensures Behind(PS.Fill(m, batch))
    decreases |batch|
  {
    if batch != [] {
      var t := m.(pending := m.pending + {m.emittedTo},
                  waiting := m.waiting + [PS.Queued(batch[0].msg, m.emittedTo)], emittedTo := batch[0].next);
      assert m.emittedTo in t.pending;
      FillStaysBehind(t, batch[1..]);
    }
  }

  lemma {:induction false} PollStaysBehind(sys: System, m: PS.State)
    requires FirstOpen(sys) && Behind(m) && forall q :: q in m.waiting ==> Faithful(sys.log, q)
    ensures Behind(PS.Poll(m).0)
    decreases |m.waiting|
  {
    if m.waiting != [] && !m.waiting[0].msg.decodes {
      var q, rest := m.waiting[0], m.(waiting := m.waiting[1..]);
      assert q in m.waiting;
      if q.offset < 0 {
        NamesFirst(sys, q.offset);
        assert false;
      }
      if m.emittedTo >= 0 {
        var p :| p in m.pending && p < 0;
        assert p in PS.Ack(rest, q.offset).pending;
      }
      PollStaysBehind(sys, PS.Ack(rest, q.offset));
    }
  }

  lemma NextStaysBehind(sys: System, m: PS.State, batch: seq<Fetched>, flying: multiset<int>)
    requires FirstOpen(sys) && ManagerInv(sys, m) && NoneForgotten(m, flying) && NotBeyond(m)
    requires IsRun(sys.log, m.emittedTo, batch)
    ensures NotBeyond(PS.Next(m, batch).0)
  {
    var t := PS.Refilled(m, batch);
    FillKeeps(sys, m, batch, flying);
    PS.RunClimbs(sys.log, m.emittedTo, batch);
    PS.FillKeepsCompleted(m, batch);
    PS.PollNeverLowers(t);
    if m.committedTo < 0 {
      FillStaysBehind(m, batch);
      PollStaysBehind(sys, t);
    }
  }

  lemma AckStaysBehind(sys: System, m: PS.State, o: int)
    requires FirstOpen(sys) && First(sys.log, o).Some? && First(sys.log, o) != Some(0) && NotBeyond(m)
    ensures NotBeyond(PS.Ack(m, o))
  {
    if o <= 0 {
      NamesFirst(sys, o);
      assert false;
    }
    if exists p :: p in m.pending && p < 0 {
      var p :| p in m.pending && p < 0;
      assert p in PS.Ack(m, o).pending;
    }
  }

  lemma FailStaysBehind(m: PS.State, o: int)
    requires NotBeyond(m)
    ensures NotBeyond(PS.Fail(m, o))
  {
    if o >= 0 && exists p :: p in m.pending && p < 0 {
      var p :| p in m.pending && p < 0;
      assert p in PS.Fail(m, o).pending;
    }
  }

  /** A commit while the first message is open stores a negative offset, if anything. */
  lemma CommitStaysBehind(sys: System, m: PS.State)
    requires FirstOpen(sys) && ManagerInv(sys, m) && NotBeyond(m)
    ensures NotBeyond(PS.Commit(m))
    ensures PS.Commit(m).committedTo != m.committedTo ==> PS.Commit(m).committedTo < 0
  {
    CommitCovers(sys, m);
    var c := PS.Completed(m);
    NotAbove(sys, c);
    if m.pending != {} {
      assert c in m.pending;
    }
    if m.committedTo < 0 && m.emittedTo >= 0 {
      var p :| p in m.pending && p < 0;
      assert c <= p;
    }
  }

  lemma ZeroOpen(sys: System, k: Key, read: Option<PS.Stored>, cfg: PS.StartConfig)
    requires Inv(sys) && ZeroInv(sys) && Enabled(sys, Open(k, read, cfg))
    ensures ZeroInv(Apply(sys, Open(k, read, cfg)))
  {
    if FirstOpen(sys) {
      if sys.stored.Some? {
        NotAbove(sys, sys.stored.value.offset);
      }
      var start := PS.StartOffset(read, cfg);
      if AllAcked(sys, start) {
        NotAbove(sys, start);
      }
    }
  }

  lemma ZeroNext(sys: System, k: Key, batch: seq<Fetched>)
    requires Inv(sys) && ZeroInv(sys) && Enabled(sys, NextTuple(k, batch))
    ensures ZeroInv(Apply(sys, NextTuple(k, batch)))
  {
    if FirstOpen(sys) {
      NextStaysBehind(sys, sys.managers[k], batch, Flying(sys.inflight, k));
    }
  }

  lemma ZeroAck(sys: System, k: Key, o: int)
    requires Inv(sys) && ZeroInv(sys) && Aloft(sys.inflight, k, o)
    ensures ZeroInv(AfterAck(sys, k, o))
  {
    assert Traceable(sys, o);
    var t := AfterAck(sys, k, o);
    if FirstOpen(t) && k in sys.managers {
      AckStaysBehind(sys, sys.managers[k], o);
    }
  }

  lemma ZeroFail(sys: System, k: Key, o: int)
    requires ZeroInv(sys) && Aloft(sys.inflight, k, o)
    ensures ZeroInv(AfterFail(sys, k, o))
  {
    if FirstOpen(sys) && k in sys.managers {
      FailStaysBehind(sys.managers[k], o);
    }
  }

  lemma ZeroCommit(sys: System, k: Key, topologyId: string)
    requires Inv(sys) && ZeroInv(sys) && k in sys.managers
    ensures ZeroInv(AfterCommit(sys, k, topologyId))
  {
    if FirstOpen(sys) {
      CommitStaysBehind(sys, sys.managers[k]);
    }
  }

  lemma ZeroStep(sys: System, step: Step)
    requires Inv(sys) && ZeroInv(sys) && Enabled(sys, step)
    ensures ZeroInv(Apply(sys, step))
  {
    match step
    case Append(more) =>
      assert sys.log != [] ==> (sys.log + more)[0] == sys.log[0];
    case Open(k, read, cfg) => ZeroOpen(sys, k, read, cfg);
    case Close(k, dropTuples) =>
    case NextTuple(k, batch) => ZeroNext(sys, k, batch);
    case AckTuple(k, o) => ZeroAck(sys, k, o);
    case FailTuple(k, o) => ZeroFail(sys, k, o);
    case Commit(k, topologyId) => ZeroCommit(sys, k, topologyId);
  }

  lemma {:induction false} ZeroRun(sys: System, steps: seq<Step>)
    requires Inv(sys) && ZeroInv(sys) && Run(sys, steps)
    ensures ZeroInv(After(sys, steps))
    decreases |steps|
  {
    if steps != [] {
      StepKeeps(sys, steps[0]);
      ZeroStep(sys, steps[0]);
      ZeroRun(Apply(sys, steps[0]), steps[1..]);
    }
  }

  /** Over every run that began at offset 0: once 0 is stored, the first message is acked or owed to nobody. */
  lemma StoredZeroMeansAcked(sys: System, steps: seq<Step>)
    requires Initial(sys) && sys.first == 0 && Run(sys, steps)
    ensures var t := After(sys, steps);
            t.stored.Some? && t.stored.value.offset == 0 && t.first == 0 ==> t.log != [] && AllAcked(t, 1)
  {
    RunKeeps(sys, steps);
    ZeroRun(sys, steps);
  }
}
