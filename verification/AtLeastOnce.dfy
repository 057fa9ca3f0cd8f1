/** Every manager that ever works on one partition id, over whole runs: managers are opened, closed,
    crash and are replaced under the same stored path, several may be alive at once (in different tasks,
    or for different leaders), and acks and failures of emissions arrive late and in any order. */
module AtLeastOnce {
  import opened Wrappers
  import opened MessageLog
  import PS = PartitionState

  /** Which task and broker a manager works for; acks are routed by it. */
  type Key = nat

  /** `first` is the offset the very first manager started from, `inflight` the offsets of emissions
      that were neither acked nor failed, `emitted` and `acked` the log offsets of messages that ever were. */
  datatype System = System(log: Log, first: nat, stored: Option<PS.Stored>, managers: map<Key, PS.State>,
                           inflight: map<Key, multiset<int>>, emitted: set<int>, acked: set<int>)

  datatype Step =
    | Append(more: Log)
    | Open(k: Key, read: Option<PS.Stored>, cfg: PS.StartConfig)
    | Close(k: Key, dropTuples: bool)
    | NextTuple(k: Key, batch: seq<Fetched>)
    | AckTuple(k: Key, o: int)
    | FailTuple(k: Key, o: int)
    | Commit(k: Key, topologyId: string)

  function Flying(inflight: map<Key, multiset<int>>, k: Key): multiset<int> {
    if k in inflight then inflight[k] else multiset{}
  }

  /** A message that must reach the topology: it exists and the scheme makes tuples of it. */
  predicate Owed(log: Log, x: int) {
    Present(log, x) && log[x].value.decodes
  }

  /** An emission of manager `k` under offset `o` is out. */
  predicate Aloft(inflight: map<Key, multiset<int>>, k: Key, o: int) {
    o in Flying(inflight, k)
  }

  /** Up to here the first start and the stored state vouch for every message. */
  function Vouched(first: nat, stored: Option<PS.Stored>): int {
    if stored.Some? && stored.value.offset > first then stored.value.offset else first
  }

  /** A constructor reads what is stored, or nothing when the node cannot be read or parsed. */
  predicate Reads(stored: Option<PS.Stored>, read: Option<PS.Stored>) {
    read == stored || read == None
  }

  /** A start offset that is safe by what can be seen before the start: it lies no higher than the stored
      offset or the very first start. */
  predicate SafeStart(first: nat, stored: Option<PS.Stored>, start: int) {
    start <= Vouched(first, stored)
  }

  predicate Possible(sys: System, step: Step) {
    match step
    case Append(more) => true
    case Open(k, read, cfg) =>
      k !in sys.managers && Reads(sys.stored, read) && PS.StartOffset(read, cfg) <= |sys.log|
    case Close(k, dropTuples) => k in sys.managers
    case NextTuple(k, batch) => k in sys.managers && IsRun(sys.log, sys.managers[k].emittedTo, batch)
    case AckTuple(k, o) => Aloft(sys.inflight, k, o)
    case FailTuple(k, o) => Aloft(sys.inflight, k, o)
    case Commit(k, topologyId) => k in sys.managers
  }

  /** A manager starts safely, or happens to start where everything owed below was acked. */
  ghost predicate Enabled(sys: System, step: Step) {
    Possible(sys, step) &&
    (step.Open? ==>
       var start := PS.StartOffset(step.read, step.cfg);
       SafeStart(sys.first, sys.stored, start) || AllAcked(sys, start))
  }

  /** The log offset of the message emitted under `o`, as a set. */
  function Named(log: Log, o: int): set<int> {
    var x := First(log, o);
    if x.None? then {} else {x.value}
  }

  function Landed(sys: System, k: Key, o: int): System
    requires Aloft(sys.inflight, k, o)
  {
    sys.(inflight := sys.inflight[k := Flying(sys.inflight, k) - multiset{o}])
  }

  function WithManager(sys: System, k: Key, m: PS.State): System {
    sys.(managers := sys.managers[k := m])
  }

  /** Manager `k` moves to `m` and hands out `out`, if anything. */
  function Emitting(sys: System, k: Key, m: PS.State, out: Option<PS.Queued>): System {
    var t := WithManager(sys, k, m);
    if out.None? then t
    else t.(inflight := t.inflight[k := Flying(t.inflight, k) + multiset{out.value.offset}],
            emitted := t.emitted + Named(t.log, out.value.offset))
  }

  function AfterNext(sys: System, k: Key, batch: seq<Fetched>): System
    requires k in sys.managers
  {
    var r := PS.Next(sys.managers[k], batch);
    Emitting(sys, k, r.0, r.1)
  }

  function AfterAck(sys: System, k: Key, o: int): System
    requires Aloft(sys.inflight, k, o)
  {
    var t := Landed(sys, k, o).(acked := sys.acked + Named(sys.log, o));
    if k in t.managers then WithManager(t, k, PS.Ack(t.managers[k], o)) else t
  }

  function AfterFail(sys: System, k: Key, o: int): System
    requires Aloft(sys.inflight, k, o)
  {
    var t := Landed(sys, k, o);
    if k in t.managers then WithManager(t, k, PS.Fail(t.managers[k], o)) else t
  }

  /** Nothing is written when the completed offset is the committed one. */
  function AfterCommit(sys: System, k: Key, topologyId: string): System
    requires k in sys.managers
  {
    var m := PS.Commit(sys.managers[k]);
    if m.committedTo == sys.managers[k].committedTo then sys
    else WithManager(sys, k, m).(stored := Some(PS.Stored(topologyId, m.committedTo)))
  }

  function Apply(sys: System, step: Step): System
    requires Possible(sys, step)
  {
    match step
    case Append(more) => sys.(log := sys.log + more)
    case Open(k, read, cfg) => WithManager(sys, k, PS.Start(PS.StartOffset(read, cfg)))
    case Close(k, dropTuples) =>
      sys.(managers := sys.managers - {k}, inflight := if dropTuples then sys.inflight - {k} else sys.inflight)
    case NextTuple(k, batch) => AfterNext(sys, k, batch)
    case AckTuple(k, o) => AfterAck(sys, k, o)
    case FailTuple(k, o) => AfterFail(sys, k, o)
    case Commit(k, topologyId) => AfterCommit(sys, k, topologyId)
  }

  // ----- The invariant -----

  /** Every owed message in [first, hi) has been acked. */
  ghost predicate AllAcked(sys: System, hi: int) {
    forall x :: sys.first <= x < hi && Owed(sys.log, x) ==> x in sys.acked
  }

  ghost predicate Awaited(log: Log, m: PS.State, x: int) {
    exists p :: p in m.pending && First(log, p) == Some(x)
  }

  predicate Faithful(log: Log, q: PS.Queued) {
    First(log, q.offset).Some? && log[First(log, q.offset).value] == Some(q.msg)
  }

  ghost predicate Covered(sys: System, m: PS.State) {
    forall x :: sys.first <= x < m.emittedTo && Owed(sys.log, x) ==> x in sys.acked || Awaited(sys.log, m, x)
  }

  ghost predicate ManagerInv(sys: System, m: PS.State) {
    && m.emittedTo <= |sys.log|
    && PS.Sound(m)
    && (forall p :: p in m.pending ==> First(sys.log, p).Some?)
    && (forall q :: q in m.waiting ==> Faithful(sys.log, q))
    && Covered(sys, m)
  }

  predicate Queues(waiting: seq<PS.Queued>, o: int) {
    exists q :: q in waiting && q.offset == o
  }

  /** No pending offset is forgotten: it waits in the queue or one of its emissions is still out. */
  ghost predicate NoneForgotten(m: PS.State, flying: multiset<int>) {
    forall p :: p in m.pending ==> Queues(m.waiting, p) || p in flying
  }

  /** An emission in flight is of a message of the log. */
  predicate Traceable(sys: System, o: int) {
    First(sys.log, o).Some? && First(sys.log, o).value in sys.emitted
  }

  ghost predicate Inv(sys: System) {
    && (forall k :: k in sys.managers ==> ManagerInv(sys, sys.managers[k]))
    && (forall k :: k in sys.managers ==> NoneForgotten(sys.managers[k], Flying(sys.inflight, k)))
    && (forall k, o :: Aloft(sys.inflight, k, o) ==> Traceable(sys, o))
    && (sys.stored.Some? ==> sys.stored.value.offset <= |sys.log| && AllAcked(sys, sys.stored.value.offset))
    && sys.acked <= sys.emitted
  }

  ghost predicate Initial(sys: System) {
    sys.stored == None && sys.managers == map[] && sys.inflight == map[] && sys.emitted == {} && sys.acked == {}
  }

  // ----- What each step keeps -----

  lemma ManagerInvTransfers(sys: System, t: System, m: PS.State)
    requires ManagerInv(sys, m)
    requires t.log == sys.log && t.first == sys.first && sys.acked <= t.acked
    ensures ManagerInv(t, m)
  {
  }

  lemma AppendKeeps(sys: System, more: Log)
    requires Inv(sys)
    ensures Inv(Apply(sys, Append(more)))
  {
    var t := Apply(sys, Append(more));
    forall k | k in t.managers
      ensures ManagerInv(t, t.managers[k])
    {
      AppendKeepsManager(sys, more, sys.managers[k]);
    }
    forall k, o | Aloft(t.inflight, k, o)
      ensures Traceable(t, o)
    {
      FirstStable(sys.log, more, o);
    }
  }

  lemma AppendKeepsManager(sys: System, more: Log, m: PS.State)
    requires ManagerInv(sys, m)
    ensures ManagerInv(sys.(log := sys.log + more), m)
  {
    var t := sys.(log := sys.log + more);
    forall p | p in m.pending
      ensures First(t.log, p).Some?
    {
      FirstStable(sys.log, more, p);
    }
    forall q | q in m.waiting
      ensures Faithful(t.log, q)
    {
      FirstStable(sys.log, more, q.offset);
    }
    forall x | t.first <= x < m.emittedTo && Owed(t.log, x)
      ensures x in t.acked || Awaited(t.log, m, x)
    {
      assert Owed(sys.log, x);
      if x !in t.acked {
        var p :| p in m.pending && First(sys.log, p) == Some(x);
        FirstStable(sys.log, more, p);
      }
    }
  }

  predicate QueuedOrAloft(waiting: seq<PS.Queued>, flying: multiset<int>, p: int) {
    Queues(waiting, p) || p in flying
  }

  /** Fetching adds the messages it covers to pending and to the queue. */
  lemma {:induction false} FillKeeps(sys: System, m: PS.State, batch: seq<Fetched>, flying: multiset<int>)
    requires ManagerInv(sys, m) && NoneForgotten(m, flying) && IsRun(sys.log, m.emittedTo, batch)
    ensures ManagerInv(sys, PS.Fill(m, batch)) && NoneForgotten(PS.Fill(m, batch), flying)
    decreases |batch|
  {
    if batch != [] {
      var at := First(sys.log, m.emittedTo).value;
      var q := PS.Queued(batch[0].msg, m.emittedTo);
      var t := m.(pending := m.pending + {m.emittedTo}, waiting := m.waiting + [q], emittedTo := batch[0].next);
      forall x | sys.first <= x < t.emittedTo && Owed(sys.log, x)
        ensures x in sys.acked || Awaited(sys.log, t, x)
      {
        if x < m.emittedTo {
          if x !in sys.acked {
            var p :| p in m.pending && First(sys.log, p) == Some(x);
            assert p in t.pending;
          }
        } else {
          assert x == at;
          assert m.emittedTo in t.pending;
        }
      }
      forall p | p in t.pending
        ensures QueuedOrAloft(t.waiting, flying, p)
      {
        if p == m.emittedTo {
          assert q in t.waiting;
        } else if Queues(m.waiting, p) {
          var q' :| q' in m.waiting && q'.offset == p;
          assert q' in t.waiting;
        }
      }
      assert NoneForgotten(t, flying);
      FillKeeps(sys, t, batch[1..], flying);
    }
  }

  function WithEmission(flying: multiset<int>, out: Option<PS.Queued>): multiset<int> {
    if out.None? then flying else flying + multiset{out.value.offset}
  }

  /** Taking messages off the queue: the ones that do not decode are owed to nobody. */
  lemma {:induction false} PollKeeps(sys: System, m: PS.State, flying: multiset<int>)
    requires ManagerInv(sys, m) && NoneForgotten(m, flying)
    ensures var (t, out) := PS.Poll(m);
            && ManagerInv(sys, t) && NoneForgotten(t, WithEmission(flying, out))
            && (out.Some? ==> Faithful(sys.log, out.value) && out.value.msg.decodes)
    decreases |m.waiting|
  {
    if m.waiting != [] {
      var q := m.waiting[0];
      var rest := m.(waiting := m.waiting[1..]);
      assert m.waiting == [q] + rest.waiting;
      assert q in m.waiting;
      forall p | p in m.pending && p != q.offset
        ensures QueuedOrAloft(rest.waiting, flying, p)
      {
        if Queues(m.waiting, p) {
          var other :| other in m.waiting && other.offset == p;
          assert other in rest.waiting;
        }
      }
      assert Covered(sys, rest) by {
        forall x | sys.first <= x < rest.emittedTo && Owed(sys.log, x) && x !in sys.acked
          ensures Awaited(sys.log, rest, x)
        {
          assert Awaited(sys.log, m, x);
        }
      }
      if q.msg.decodes {
        assert NoneForgotten(rest, flying + multiset{q.offset});
      } else {
        AckCovers(sys, rest, q.offset);
        assert NoneForgotten(PS.Ack(rest, q.offset), flying);
        PollKeeps(sys, PS.Ack(rest, q.offset), flying);
      }
    }
  }

  /** An ack may drop a pending offset once its message is acked or owed to nobody. */
  lemma AckCovers(sys: System, m: PS.State, o: int)
    requires ManagerInv(sys, m) && First(sys.log, o).Some?
    requires First(sys.log, o).value in sys.acked || !Owed(sys.log, First(sys.log, o).value)
    ensures ManagerInv(sys, PS.Ack(m, o))
  {
  }

  /** A failure moves back to an offset below which everything stays acked or pending. */
  lemma FailCovers(sys: System, m: PS.State, o: int)
    requires ManagerInv(sys, m)
    ensures ManagerInv(sys, PS.Fail(m, o))
  {
  }

  /** What a commit stores covers only acked messages. */
  lemma CommitCovers(sys: System, m: PS.State)
    requires ManagerInv(sys, m)
    ensures PS.Completed(m) <= |sys.log| && AllAcked(sys, PS.Completed(m))
  {
  }

  /** Replacing the state of one manager, in a system whose history only grew. */
  lemma Reassembled(sys: System, t: System, k: Key)
    requires Inv(sys) && t.log == sys.log && t.first == sys.first && t.stored == sys.stored
    requires sys.acked <= t.acked && sys.emitted <= t.emitted && t.acked <= t.emitted
    requires t.managers.Keys == sys.managers.Keys
    requires forall j :: j in sys.managers && j != k ==> t.managers[j] == sys.managers[j]
    requires forall j :: j != k ==> Flying(t.inflight, j) == Flying(sys.inflight, j)
    requires forall o :: Aloft(t.inflight, k, o) ==> Traceable(t, o)
    requires k in t.managers ==> ManagerInv(t, t.managers[k]) && NoneForgotten(t.managers[k], Flying(t.inflight, k))
    ensures Inv(t)
  {
    forall j | j in t.managers && j != k
      ensures ManagerInv(t, t.managers[j])
    {
      ManagerInvTransfers(sys, t, sys.managers[j]);
    }
    forall j, o | Aloft(t.inflight, j, o)
      ensures Traceable(t, o)
    {
      if j != k {
        assert Aloft(sys.inflight, j, o);
      }
    }
  }

  lemma EmittingTraces(sys: System, k: Key, m: PS.State, out: Option<PS.Queued>)
    requires forall o :: Aloft(sys.inflight, k, o) ==> Traceable(sys, o)
    requires out.Some? ==> Faithful(sys.log, out.value)
    ensures var t := Emitting(sys, k, m, out);
            && Flying(t.inflight, k) == WithEmission(Flying(sys.inflight, k), out)
            && (forall o :: Aloft(t.inflight, k, o) ==> Traceable(t, o))
  {
    hide First;
    var t := Emitting(sys, k, m, out);
    forall o | Aloft(t.inflight, k, o)
      ensures Traceable(t, o)
    {
      if Aloft(sys.inflight, k, o) {
        assert Traceable(sys, o);
      }
    }
  }

  lemma EmittingKeeps(sys: System, k: Key, m: PS.State, out: Option<PS.Queued>)
    requires Inv(sys) && k in sys.managers
    requires ManagerInv(sys, m) && NoneForgotten(m, WithEmission(Flying(sys.inflight, k), out))
    requires out.Some? ==> Faithful(sys.log, out.value)
    ensures Inv(Emitting(sys, k, m, out))
  {
    hide ManagerInv, NoneForgotten, First, Traceable, Faithful, WithEmission;
    var t := Emitting(sys, k, m, out);
    EmittingTraces(sys, k, m, out);
    ManagerInvTransfers(sys, t, m);
    Reassembled(sys, t, k);
  }

  lemma NextKeeps(sys: System, k: Key, batch: seq<Fetched>)
    requires Inv(sys) && k in sys.managers && IsRun(sys.log, sys.managers[k].emittedTo, batch)
    ensures Inv(AfterNext(sys, k, batch))
  {
    var m := sys.managers[k];
    FillKeeps(sys, m, batch, Flying(sys.inflight, k));
    PollKeeps(sys, PS.Refilled(m, batch), Flying(sys.inflight, k));
    EmittingKeeps(sys, k, PS.Next(m, batch).0, PS.Next(m, batch).1);
  }

  lemma LandedKeeps(sys: System, t: System, k: Key, o: int)
    requires Inv(sys) && Aloft(sys.inflight, k, o)
    requires t.inflight == Landed(sys, k, o).inflight && t.log == sys.log && sys.emitted == t.emitted
    ensures Traceable(sys, o)
    ensures forall p :: Aloft(t.inflight, k, p) ==> Traceable(t, p)
    ensures forall p :: p != o && Aloft(sys.inflight, k, p) ==> Aloft(t.inflight, k, p)
    ensures forall j :: j != k ==> Flying(t.inflight, j) == Flying(sys.inflight, j)
  {
    forall p | Aloft(t.inflight, k, p)
      ensures Traceable(t, p)
    {
      assert Aloft(sys.inflight, k, p);
      assert Traceable(sys, p);
    }
  }

  lemma AckKeeps(sys: System, k: Key, o: int)
    requires Inv(sys) && Aloft(sys.inflight, k, o)
    ensures Inv(AfterAck(sys, k, o))
  {
    var t := AfterAck(sys, k, o);
    LandedKeeps(sys, t, k, o);
    if k in sys.managers {
      ManagerInvTransfers(sys, t, sys.managers[k]);
      AckCovers(t, sys.managers[k], o);
    }
    Reassembled(sys, t, k);
  }

  lemma FailKeeps(sys: System, k: Key, o: int)
    requires Inv(sys) && Aloft(sys.inflight, k, o)
    ensures Inv(AfterFail(sys, k, o))
  {
    var t := AfterFail(sys, k, o);
    LandedKeeps(sys, t, k, o);
    if k in sys.managers {
      ManagerInvTransfers(sys, t, sys.managers[k]);
      FailCovers(t, sys.managers[k], o);
      assert forall p :: p in t.managers[k].pending ==> p in sys.managers[k].pending && p != o;
    }
    Reassembled(sys, t, k);
  }

  lemma CommitKeeps(sys: System, k: Key, topologyId: string)
    requires Inv(sys) && k in sys.managers
    ensures Inv(AfterCommit(sys, k, topologyId))
  {
    var m := sys.managers[k];
    var t := WithManager(sys, k, PS.Commit(m));
    ManagerInvTransfers(sys, t, m);
    assert ManagerInv(t, PS.Commit(m));
    Reassembled(sys, t, k);
    CommitCovers(sys, m);
    var u := AfterCommit(sys, k, topologyId);
    if u != sys {
      assert u == t.(stored := u.stored);
      StoredKeeps(t, u);
    }
  }

  lemma StoredKeeps(t: System, u: System)
    requires Inv(t) && u == t.(stored := u.stored) && u.stored.Some?
    requires u.stored.value.offset <= |t.log| && AllAcked(t, u.stored.value.offset)
    ensures Inv(u)
  {
  }

  lemma OpenKeeps(sys: System, k: Key, read: Option<PS.Stored>, cfg: PS.StartConfig)
    requires Inv(sys) && Enabled(sys, Open(k, read, cfg))
    ensures Inv(Apply(sys, Open(k, read, cfg)))
  {
    var t := Apply(sys, Open(k, read, cfg));
    forall j | j in t.managers && j != k
      ensures ManagerInv(t, t.managers[j])
    {
      ManagerInvTransfers(sys, t, sys.managers[j]);
    }
  }

  lemma CloseKeeps(sys: System, k: Key, dropTuples: bool)
    requires Inv(sys) && Enabled(sys, Close(k, dropTuples))
    ensures Inv(Apply(sys, Close(k, dropTuples)))
  {
    var t := Apply(sys, Close(k, dropTuples));
    forall j | j in t.managers
      ensures ManagerInv(t, t.managers[j])
    {
      ManagerInvTransfers(sys, t, sys.managers[j]);
    }
    assert forall j, o :: Aloft(t.inflight, j, o) ==> Aloft(sys.inflight, j, o);
  }

  lemma StepKeeps(sys: System, step: Step)
    requires Inv(sys) && Enabled(sys, step)
    ensures Inv(Apply(sys, step))
  {
    match step
    case Append(more) => AppendKeeps(sys, more);
    case Open(k, read, cfg) => OpenKeeps(sys, k, read, cfg);
    case Close(k, dropTuples) => CloseKeeps(sys, k, dropTuples);
    case NextTuple(k, batch) => NextKeeps(sys, k, batch);
    case AckTuple(k, o) => AckKeeps(sys, k, o);
    case FailTuple(k, o) => FailKeeps(sys, k, o);
    case Commit(k, topologyId) => CommitKeeps(sys, k, topologyId);
  }

  // ----- Whole runs -----

  ghost predicate Run(sys: System, steps: seq<Step>)
    decreases |steps|
  {
    steps == [] || (Enabled(sys, steps[0]) && Run(Apply(sys, steps[0]), steps[1..]))
  }

  ghost function After(sys: System, steps: seq<Step>): System
    requires Run(sys, steps)
    decreases |steps|
  {
    if steps == [] then sys else After(Apply(sys, steps[0]), steps[1..])
  }

  lemma {:induction false} RunKeeps(sys: System, steps: seq<Step>)
    requires Inv(sys) && Run(sys, steps)
    ensures Inv(After(sys, steps))
    decreases |steps|
  {
    if steps != [] {
      StepKeeps(sys, steps[0]);
      RunKeeps(Apply(sys, steps[0]), steps[1..]);
    }
  }

  /** At least once, over every run: below the stored offset every owed message has been emitted and
      acked; below the offset a live manager has emitted to, it has been acked or is pending there. */
  lemma AtLeastOnce(sys: System, steps: seq<Step>)
    requires Initial(sys) && Run(sys, steps)
    ensures var t := After(sys, steps);
            && (t.stored.Some? ==>
                  forall x :: t.first <= x < t.stored.value.offset && Owed(t.log, x) ==> x in t.acked && x in t.emitted)
            && (forall k, x :: k in t.managers && t.first <= x < t.managers[k].emittedTo && Owed(t.log, x) ==>
                  (x in t.acked && x in t.emitted) || Awaited(t.log, t.managers[k], x))
  {
    RunKeeps(sys, steps);
  }

  /** No stuck commit: in every reachable state, once a manager's queue is empty and none of its emissions
      is out, its next commit stores exactly the offset it has emitted to. */
  lemma NoStuckCommit(sys: System, steps: seq<Step>, k: Key)
    requires Initial(sys) && Run(sys, steps)
    requires var t := After(sys, steps);
             k in t.managers && t.managers[k].waiting == [] && Flying(t.inflight, k) == multiset{}
    ensures var m := After(sys, steps).managers[k];
            m.pending == {} && PS.Commit(m).committedTo == m.emittedTo
  {
    RunKeeps(sys, steps);
    var m := After(sys, steps).managers[k];
    if m.pending != {} {
      var p := Pick(m.pending);
      assert false;
    }
  }

  /** In every reachable state each pending offset is queued or has an unresolved emission. */
  lemma PendingIsAlive(sys: System, steps: seq<Step>, k: Key, p: int)
    requires Initial(sys) && Run(sys, steps)
    requires k in After(sys, steps).managers && p in After(sys, steps).managers[k].pending
    ensures var t := After(sys, steps); Queues(t.managers[k].waiting, p) || Aloft(t.inflight, k, p)
  {
    RunKeeps(sys, steps);
  }
}
