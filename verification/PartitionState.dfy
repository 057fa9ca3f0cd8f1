/** What one PartitionManager remembers, and its steps as functions. */
module PartitionState {
  import opened Wrappers
  import opened MessageLog

  datatype Queued = Queued(msg: Message, offset: int)

  datatype EmitState = EmittedMoreLeft | EmittedEnd | NoEmitted

  datatype State = State(emittedTo: int, pending: set<int>, committedTo: int, waiting: seq<Queued>)

  /** What is kept in ZooKeeper under the path of a partition id. */
  datatype Stored = Stored(topologyId: string, offset: int)

  /** The inputs of a manager's constructor: `fallback` and `forced` are Kafka's answers to the two
      offset requests the constructor may make. */
  datatype StartConfig = StartConfig(instanceId: string, forceFromStart: bool, fallback: int, forced: int)

  /** Which offset a new manager starts from. */
  function StartOffset(stored: Option<Stored>, cfg: StartConfig): int {
    if stored.None? then cfg.fallback
    else if cfg.instanceId != stored.value.topologyId && cfg.forceFromStart then cfg.forced
    else stored.value.offset
  }

  function Start(offset: int): State {
    State(offset, {}, offset, [])
  }

  function Fill(s: State, batch: seq<Fetched>): State
    decreases |batch|
  {
    if batch == [] then s
    else Fill(s.(pending := s.pending + {s.emittedTo},
                 waiting := s.waiting + [Queued(batch[0].msg, s.emittedTo)],
                 emittedTo := batch[0].next), batch[1..])
  }

  function Ack(s: State, o: int): State {
    s.(pending := s.pending - {o})
  }

  function Below(pending: set<int>, o: int): set<int> {
    set p | p in pending && p < o
  }

  function Fail(s: State, o: int): State {
    if s.emittedTo > o then s.(emittedTo := o, pending := Below(s.pending, o)) else s
  }

  /** Takes messages off the queue until one decodes, acking the others. */
  function Poll(s: State): (r: (State, Option<Queued>))
    decreases |s.waiting|
  {
    if s.waiting == [] then (s, None)
    else
      var rest := s.(waiting := s.waiting[1..]);
      if s.waiting[0].msg.decodes then (rest, Some(s.waiting[0]))
      else Poll(Ack(rest, s.waiting[0].offset))
  }

  function Refilled(s: State, batch: seq<Fetched>): State {
    if s.waiting == [] then Fill(s, batch) else s
  }

  function Next(s: State, batch: seq<Fetched>): (State, Option<Queued>) {
    Poll(Refilled(s, batch))
  }

  function Verdict(r: (State, Option<Queued>)): EmitState {
    if r.1.None? then NoEmitted else if r.0.waiting != [] then EmittedMoreLeft else EmittedEnd
  }

  function Completed(s: State): int {
    if s.pending == {} then s.emittedTo else Smallest(s.pending)
  }

  function Commit(s: State): State {
    s.(committedTo := Completed(s))
  }

  /** Every pending offset lies below the offset emitted to. */
  predicate Sound(s: State) {
    forall p :: p in s.pending ==> p < s.emittedTo
  }

  // ----- What the steps do -----

  /** Where a manager starts: at the offset it reads, for its own topology or unless the start is forced; at the
      answer for the configured time, when the start is forced after another topology; and otherwise at the
      answer for the configuration. */
  lemma StartsWhere(stored: Option<Stored>, cfg: StartConfig)
    ensures var s := Start(StartOffset(stored, cfg));
            && s.pending == {} && s.waiting == [] && s.emittedTo == s.committedTo
            && (forall id, o :: stored == Some(Stored(id, o)) && id == cfg.instanceId ==> s.emittedTo == o)
            && (forall id, o :: stored == Some(Stored(id, o)) && !cfg.forceFromStart ==> s.emittedTo == o)
            && (forall id, o :: stored == Some(Stored(id, o)) && id != cfg.instanceId && cfg.forceFromStart ==>
                  s.emittedTo == cfg.forced)
            && (stored == None ==> s.emittedTo == cfg.fallback)
  {
  }

  /** The messages of a fetch at `o`, each under the offset after the one before it. */
  function Entries(o: int, batch: seq<Fetched>): (r: seq<Queued>)
    ensures |r| == |batch|
    ensures forall i :: 0 <= i < |r| ==> r[i] == Queued(batch[i].msg, if i == 0 then o else batch[i - 1].next)
    decreases |batch|
  {
    if batch == [] then [] else [Queued(batch[0].msg, o)] + Entries(batch[0].next, batch[1..])
  }

  /** A fill queues the messages fetched, in order, and makes their offsets pending. */
  lemma {:induction false} FillIs(s: State, batch: seq<Fetched>)
    ensures var t := Fill(s, batch);
            && t.emittedTo == EndOf(s.emittedTo, batch) && t.committedTo == s.committedTo
            && t.waiting == s.waiting + Entries(s.emittedTo, batch)
            && (forall p :: p in t.pending <==>
                  p in s.pending || exists q :: q in Entries(s.emittedTo, batch) && q.offset == p)
    decreases |batch|
  {
    if batch != [] {
      var q := Queued(batch[0].msg, s.emittedTo);
      var next := s.(pending := s.pending + {s.emittedTo}, waiting := s.waiting + [q], emittedTo := batch[0].next);
      FillIs(next, batch[1..]);
      var more := Entries(batch[0].next, batch[1..]);
      assert Entries(s.emittedTo, batch) == [q] + more;
      hide Entries;
      assert s.waiting + [q] + more == s.waiting + ([q] + more);
      assert forall e :: e in [q] + more <==> e == q || e in more;
    }
  }

  /** The place of the first message that decodes, or the length. */
  function FirstDecoding(queue: seq<Queued>): (i: nat)
    ensures i <= |queue| && (i < |queue| ==> queue[i].msg.decodes)
    ensures forall k :: 0 <= k < i ==> !queue[k].msg.decodes
  {
    if queue == [] || queue[0].msg.decodes then 0 else 1 + FirstDecoding(queue[1..])
  }

  /** Polling emits the first queued message that decodes, acks exactly those before it, and leaves those after
      it in order. */
  lemma {:induction false} PollIs(s: State)
    ensures var (t, out) := Poll(s);
            var i := FirstDecoding(s.waiting);
            && out == (if i < |s.waiting| then Some(s.waiting[i]) else None)
            && t.waiting == (if i < |s.waiting| then s.waiting[i + 1..] else [])
            && t.emittedTo == s.emittedTo && t.committedTo == s.committedTo
            && (forall p :: p in t.pending <==>
                  p in s.pending && forall k :: 0 <= k < i ==> s.waiting[k].offset != p)
    decreases |s.waiting|
  {
    if s.waiting != [] && !s.waiting[0].msg.decodes {
      var rest := Ack(s.(waiting := s.waiting[1..]), s.waiting[0].offset);
      PollIs(rest);
      var i := FirstDecoding(rest.waiting);
      assert FirstDecoding(s.waiting) == i + 1;
      forall p
        ensures (p in rest.pending && forall k :: 0 <= k < i ==> rest.waiting[k].offset != p) <==>
                (p in s.pending && forall k :: 0 <= k < i + 1 ==> s.waiting[k].offset != p)
      {
        if p in s.pending && forall k :: 0 <= k < i + 1 ==> s.waiting[k].offset != p {
          assert s.waiting[0].offset != p;
          forall k | 0 <= k < i
            ensures rest.waiting[k].offset != p
          {
            assert rest.waiting[k] == s.waiting[k + 1];
          }
        }
        if p in rest.pending && forall k :: 0 <= k < i ==> rest.waiting[k].offset != p {
          forall k | 0 <= k < i + 1
            ensures s.waiting[k].offset != p
          {
            if k > 0 {
              assert rest.waiting[k - 1] == s.waiting[k];
            }
          }
        }
      }
    }
  }

  /** What is fetched counts only when nothing is queued. */
  lemma NextIs(s: State, batch: seq<Fetched>)
    ensures s.waiting != [] ==> Next(s, batch) == Poll(s)
    ensures s.waiting == [] ==> Next(s, batch) == Poll(Fill(s, batch))
  {
  }

  /** A failure below the emitted offset goes back to exactly the failed one and keeps pending exactly what lies
      below it; any other changes nothing. The queue stays. */
  lemma FailIs(s: State, o: int)
    ensures var t := Fail(s, o);
            && t.waiting == s.waiting && t.committedTo == s.committedTo
            && (o >= s.emittedTo ==> t == s)
            && (o < s.emittedTo ==> t.emittedTo == o && forall p :: p in t.pending <==> p in s.pending && p < o)
  {
  }

  /** What a fetch may answer, whatever the log holds: next-offsets that climb from `o`. */
  predicate Climbs(o: int, batch: seq<Fetched>)
    decreases |batch|
  {
    batch == [] || (o < batch[0].next && Climbs(batch[0].next, batch[1..]))
  }

  lemma {:induction false} RunClimbs(log: Log, o: int, batch: seq<Fetched>)
    requires IsRun(log, o, batch)
    ensures Climbs(o, batch)
    decreases |batch|
  {
    if batch != [] {
      RunClimbs(log, batch[0].next, batch[1..]);
    }
  }

  // ----- Laws of the completed offset -----

  lemma CompletedIs(s: State, c: int)
    requires s.pending == {} ==> c == s.emittedTo
    requires s.pending != {} ==> c in s.pending && forall p :: p in s.pending ==> c <= p
    ensures Completed(s) == c
  {
  }

  lemma {:induction false} FillKeepsCompleted(s: State, batch: seq<Fetched>)
    requires Sound(s) && Climbs(s.emittedTo, batch)
    ensures Sound(Fill(s, batch))
    ensures Completed(Fill(s, batch)) == Completed(s)
    ensures Fill(s, batch).committedTo == s.committedTo
    decreases |batch|
  {
    if batch != [] {
      var t := s.(pending := s.pending + {s.emittedTo},
                  waiting := s.waiting + [Queued(batch[0].msg, s.emittedTo)],
                  emittedTo := batch[0].next);
      assert s.emittedTo in t.pending;
      CompletedIs(t, Completed(s));
      FillKeepsCompleted(t, batch[1..]);
    }
  }

  lemma AckNeverLowers(s: State, o: int)
    requires Sound(s)
    ensures Sound(Ack(s, o))
    ensures Completed(s) <= Completed(Ack(s, o)) <= s.emittedTo
    ensures Completed(Ack(s, o)) != Completed(s) ==> o == Completed(s)
  {
    var t := Ack(s, o);
    if t.pending == {} {
      if s.pending != {} {
        assert Completed(s) !in t.pending;
      }
    } else {
      assert Completed(t) in t.pending;
      assert Completed(t) in s.pending;
      if o != Completed(s) {
        assert Completed(s) in t.pending;
      }
    }
  }

  lemma FailTakesMinimum(s: State, o: int)
    requires Sound(s)
    ensures Sound(Fail(s, o))
    ensures Completed(Fail(s, o)) == if o < Completed(s) then o else Completed(s)
  {
    var t := Fail(s, o);
    var c := Completed(s);
    assert s.pending != {} ==> c in s.pending;
    if s.emittedTo > o {
      if c < o {
        assert c in t.pending;
        CompletedIs(t, c);
      } else {
        assert t.pending == {};
      }
    }
  }

  lemma {:induction false} PollNeverLowers(s: State)
    requires Sound(s)
    ensures Sound(Poll(s).0)
    ensures Completed(s) <= Completed(Poll(s).0)
    ensures Poll(s).0.committedTo == s.committedTo && Poll(s).0.emittedTo == s.emittedTo
    decreases |s.waiting|
  {
    if s.waiting != [] {
      var rest := s.(waiting := s.waiting[1..]);
      CompletedIs(rest, Completed(s));
      if !s.waiting[0].msg.decodes {
        AckNeverLowers(rest, s.waiting[0].offset);
        PollNeverLowers(Ack(rest, s.waiting[0].offset));
      }
    }
  }

  /** The calls a manager receives. */
  datatype Call = CallNext(batch: seq<Fetched>) | CallAck(o: int) | CallFail(o: int) | CallCommit

  function Do(s: State, c: Call): State {
    match c
    case CallNext(batch) => Next(s, batch).0
    case CallAck(o) => Ack(s, o)
    case CallFail(o) => Fail(s, o)
    case CallCommit => Commit(s)
  }

  function DoAll(s: State, calls: seq<Call>): State
    decreases |calls|
  {
    if calls == [] then s else DoAll(Do(s, calls[0]), calls[1..])
  }

  /** Fetches climb, and no failure names an offset below the completed one. */
  predicate NoLowFail(s: State, calls: seq<Call>)
    decreases |calls|
  {
    calls == [] ||
    ((match calls[0]
      case CallNext(batch) => Climbs(s.emittedTo, batch)
      case CallFail(o) => Completed(s) <= o
      case _ => true)
     && NoLowFail(Do(s, calls[0]), calls[1..]))
  }

  lemma StepMonotone(s: State, c: Call)
    requires Sound(s) && NoLowFail(s, [c])
    ensures Sound(Do(s, c)) && Completed(s) <= Completed(Do(s, c))
    ensures Do(s, c).committedTo == if c.CallCommit? then Completed(s) else s.committedTo
  {
    match c
    case CallNext(batch) =>
      FillKeepsCompleted(s, batch);
      PollNeverLowers(Refilled(s, batch));
    case CallAck(o) => AckNeverLowers(s, o);
    case CallFail(o) => FailTakesMinimum(s, o);
    case CallCommit => CompletedIs(Commit(s), Completed(s));
  }

  /** Over any run of calls the completed offset, and with it every committed one, only grows, as long
      as no failure names an offset below the completed one. */
  lemma {:induction false} CommittedMonotone(s: State, calls: seq<Call>)
    requires Sound(s) && NoLowFail(s, calls) && s.committedTo <= Completed(s)
    ensures var t := DoAll(s, calls);
            Sound(t) && Completed(s) <= Completed(t) && s.committedTo <= t.committedTo <= Completed(t)
    decreases |calls|
  {
    if calls != [] {
      StepMonotone(s, calls[0]);
      CommittedMonotone(Do(s, calls[0]), calls[1..]);
    }
  }

  /** The condition is exact: a failure lowers the completed offset just when it names one below it. */
  lemma FailLowersIff(s: State, o: int)
    requires Sound(s)
    ensures Completed(Fail(s, o)) < Completed(s) <==> o < Completed(s)
    ensures Commit(Fail(s, o)).committedTo < Commit(s).committedTo <==> o < Completed(s)
  {
  }

  // ----- Failures collapse to the smallest -----

  function FailAll(s: State, os: seq<int>): State
    decreases |os|
  {
    if os == [] then s else FailAll(Fail(s, os[0]), os[1..])
  }

  function Least(os: seq<int>): (m: int)
    requires os != []
    ensures m in os && forall o :: o in os ==> m <= o
    decreases |os|
  {
    if |os| == 1 then os[0]
    else
      var k := Least(os[1..]);
      assert os == [os[0]] + os[1..];
      if os[0] <= k then os[0] else k
  }

  /** Any failures, in any order, have the effect of the single failure of their minimum. */
  lemma {:induction false} FailuresCollapse(s: State, os: seq<int>)
    requires os != []
    ensures FailAll(s, os) == Fail(s, Least(os))
    decreases |os|
  {
    var t := Fail(s, os[0]);
    if |os| == 1 {
      assert FailAll(t, os[1..]) == t;
    } else {
      FailuresCollapse(t, os[1..]);
      FailTwice(s, os[0], Least(os[1..]));
    }
  }

  lemma FailTwice(s: State, a: int, b: int)
    ensures Fail(Fail(s, a), b) == Fail(s, if a <= b then a else b)
  {
  }
}
