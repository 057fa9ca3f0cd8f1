/** The spout: one round over the managers per tuple, and routing of acks and failures. */
module Spout {
  import opened Wrappers
  import opened MessageLog
  import opened PartitionState
  import opened Allocation
  import opened PartitionManagers
  import opened Coordinator

  /** The index `k` places after `c` on a ring of `n`. */
  function At(c: nat, k: nat, n: nat): (at: nat)
    requires c < n && k <= n
    ensures at < n
  {
    if c + k < n then c + k else c + k - n
  }

  /** What one call of nextTuple leaves behind: the managers' states, the index, how many managers were
      asked, who emitted what, and whether a fetch threw, which ends the call. */
  datatype Round = Round(ms: seq<State>, index: nat, asked: nat, out: Option<(nat, Queued)>, threw: bool)

  /** None: the manager must fetch, and the fetch throws. */
  type Answer = Option<(State, Option<Queued>)>

  function AnswerOf(s: State, fetched: Option<seq<Fetched>>): Answer {
    if s.waiting == [] && fetched.None? then None else Some(Next(s, fetched.GetOr([])))
  }

  /** What each manager would do if it were asked now. */
  function Answers(ms: seq<State>, fetched: seq<Option<seq<Fetched>>>): (r: seq<Answer>)
    requires |ms| == |fetched|
    ensures |r| == |ms| && forall i :: 0 <= i < |ms| ==> r[i] == AnswerOf(ms[i], fetched[i])
  {
    seq(|ms|, i requires 0 <= i < |ms| => AnswerOf(ms[i], fetched[i]))
  }

  function Ask(ms: seq<State>, answers: seq<Answer>, c: nat, k: nat): Round
    requires c < |ms| == |answers| && k <= |ms|
    decreases |ms| - k
  {
    if k == |ms| then Round(ms, c, k, None, false)
    else
      var at := At(c, k, |ms|);
      if answers[at].None? then Round(ms, at, k + 1, None, true)
      else
        var (left, out) := answers[at].value;
        var ms' := ms[at := left];
        if out.None? then Ask(ms', answers, c, k + 1)
        else
          var index := if left.waiting != [] then at else At(c, k + 1, |ms|);
          Round(ms', index, k + 1, Some((at, out.value)), false)
  }

  ghost function Nows(managers: seq<PartitionManager>): (ms: seq<State>)
    reads managers
    ensures |ms| == |managers|
  {
    seq(|managers|, i requires 0 <= i < |managers| reads managers => managers[i].Now())
  }

  predicate Distinct(managers: seq<PartitionManager>) {
    forall i, j :: 0 <= i < j < |managers| ==> managers[i] != managers[j]
  }

  /** The managers whose turn has not come are as they were when the call began. */
  ghost predicate Pending(ms: seq<State>, answers: seq<Answer>, fetched: seq<Option<seq<Fetched>>>, c: nat, k: nat) {
    c < |ms| == |answers| == |fetched| && k <= |ms| &&
    forall j :: k <= j < |ms| ==>
      answers[At(c, j, |ms|)] == AnswerOf(ms[At(c, j, |ms|)], fetched[At(c, j, |ms|)])
  }

  lemma PendingStep(ms: seq<State>, answers: seq<Answer>, fetched: seq<Option<seq<Fetched>>>, c: nat, k: nat,
                    left: State)
    requires Pending(ms, answers, fetched, c, k) && k < |ms|
    ensures answers[At(c, k, |ms|)] == AnswerOf(ms[At(c, k, |ms|)], fetched[At(c, k, |ms|)])
    ensures Pending(ms[At(c, k, |ms|) := left], answers, fetched, c, k + 1)
  {
  }

  lemma EndOfRing(ms: seq<State>, answers: seq<Answer>, c: nat)
    requires c < |ms| == |answers|
    ensures Ask(ms, answers, c, |ms|) == Round(ms, c, |ms|, None, false) && At(c, |ms|, |ms|) == c
  {
  }

  /** The index before the manager `i` places on is asked; only the first may be left over from a longer list. */
  predicate StandsAt(index: nat, c: nat, i: nat, n: nat)
    requires c < n && i <= n
  {
    index % n == At(c, i, n) && (i > 0 ==> index < n)
  }

  lemma StandsAtStart(index: nat, n: nat)
    requires n > 0
    ensures StandsAt(index, index % n, 0, n)
  {
  }

  lemma StandsAtNext(index: nat, c: nat, i: nat, n: nat)
    requires c < n && i <= n && index < n && index == At(c, i, n)
    ensures StandsAt(index, c, i, n)
  {
    RemainderBelow(index, n);
  }

  lemma StandsBelow(index: nat, c: nat, n: nat)
    requires c < n && StandsAt(index, c, n, n)
    ensures index == c
  {
    RemainderBelow(index, n);
  }

  lemma AskStep(ms: seq<State>, answers: seq<Answer>, c: nat, k: nat)
    requires c < |ms| == |answers| && k < |ms|
    ensures var at := At(c, k, |ms|);
            Ask(ms, answers, c, k) ==
              if answers[at].None? then Round(ms, at, k + 1, None, true)
              else
                var (left, out) := answers[at].value;
                if out.None? then Ask(ms[at := left], answers, c, k + 1)
                else Round(ms[at := left], if left.waiting != [] then at else At(c, k + 1, |ms|), k + 1,
                           Some((at, out.value)), false)
  {
  }

  predicate DistinctIds(managers: seq<PartitionManager>) {
    forall i, j :: 0 <= i < j < |managers| ==>
      managers[i] != managers[j] && managers[i].partition.id != managers[j].partition.id
  }

  class KafkaSpout {
    const coordinator: ZkCoordinator
    var currPartitionIndex: nat

    constructor (coordinator: ZkCoordinator)
      ensures this.coordinator == coordinator && currPartitionIndex == 0
    {
      this.coordinator := coordinator;
      currPartitionIndex := 0;
    }

    /** `fetched[i]` is what a fetch by manager `i` would answer; without an answer it throws. */
    method NextTuple(managers: seq<PartitionManager>, fetched: seq<Option<seq<Fetched>>>)
      returns (collected: Option<(nat, Queued)>, threw: bool)
      requires |managers| == |fetched| && Distinct(managers)
      modifies this, managers
      ensures managers == [] ==> currPartitionIndex == old(currPartitionIndex) && collected == None && !threw
      ensures managers != [] ==>
        var ms := old(Nows(managers));
        var round := Ask(ms, Answers(ms, fetched), old(currPartitionIndex) % |managers|, 0);
        && Nows(managers) == round.ms && currPartitionIndex == round.index
        && collected == round.out && threw == round.threw
    {
      collected, threw := None, false;
      var n := |managers|;
      if n == 0 {
        return;
      }
      ghost var c := currPartitionIndex % n;
      ghost var answers := Answers(Nows(managers), fetched);
      ghost var round := Ask(Nows(managers), answers, c, 0);
      assert Pending(Nows(managers), answers, fetched, c, 0);
      StandsAtStart(currPartitionIndex, n);
      hide AnswerOf, Pending, Ask, Next, At, Nows, Distinct, StandsAt;
      var i := 0;
      while i < n
        invariant 0 <= i <= n && collected == None && !threw
        invariant StandsAt(currPartitionIndex, c, i, n)
        invariant Ask(Nows(managers), answers, c, i) == round && Pending(Nows(managers), answers, fetched, c, i)
      {
        AskStep(Nows(managers), answers, c, i);
        var at, verdict, out := TakeTurn(managers, fetched, answers, c, i);
        if verdict.None? {
          threw := true;
          break;
        }
        i := i + 1;
        if verdict != Some(NoEmitted) {
          collected := Some((at, out.value));
          break;
        }
        StandsAtNext(currPartitionIndex, c, i, n);
      }
      if collected.None? && !threw {
        StandsBelow(currPartitionIndex, c, n);
        EndOfRing(Nows(managers), answers, c);
      }
    }

    /** One pass of the loop. */
    method TakeTurn(managers: seq<PartitionManager>, fetched: seq<Option<seq<Fetched>>>, ghost answers: seq<Answer>,
                    ghost c: nat, ghost k: nat)
      returns (at: nat, verdict: Option<EmitState>, out: Option<Queued>)
      requires Distinct(managers) && Pending(Nows(managers), answers, fetched, c, k)
      requires k < |managers| == |answers| == |fetched| && c < |managers|
      requires StandsAt(currPartitionIndex, c, k, |managers|)
      modifies this, managers
      ensures currPartitionIndex < |managers| && at == At(c, k, |managers|)
      ensures if answers[at].None? then
                verdict == None && Nows(managers) == old(Nows(managers)) && currPartitionIndex == at
              else
                && verdict == Some(Verdict(answers[at].value)) && out == answers[at].value.1
                && Nows(managers) == old(Nows(managers))[at := answers[at].value.0]
                && Pending(Nows(managers), answers, fetched, c, k + 1)
                && currPartitionIndex == if verdict == Some(EmittedMoreLeft) then at else At(c, k + 1, |managers|)
    {
      hide AnswerOf, Pending, Next;
      ghost var ms := Nows(managers);
      var n := |managers|;
      Settle(n);
      at := currPartitionIndex;
      PendingStep(ms, answers, fetched, c, k, if answers[at].None? then ms[at] else answers[at].value.0);
      verdict, out := AskOne(managers, at, fetched[at], answers[at]);
      if verdict.Some? && verdict != Some(EmittedMoreLeft) {
        MoveOn(n);
      }
    }

    /** In case the number of managers decreased. */
    method Settle(n: nat)
      requires n > 0
      modifies this`currPartitionIndex
      ensures currPartitionIndex == old(currPartitionIndex) % n
      ensures old(currPartitionIndex) < n ==> currPartitionIndex == old(currPartitionIndex)
    {
      if currPartitionIndex < n {
        RemainderBelow(currPartitionIndex, n);
      }
      currPartitionIndex := currPartitionIndex % n;
    }

    method MoveOn(n: nat)
      requires currPartitionIndex < n
      modifies this`currPartitionIndex
      ensures currPartitionIndex == At(old(currPartitionIndex), 1, n)
    {
      RemainderNext(currPartitionIndex, n);
      currPartitionIndex := (currPartitionIndex + 1) % n;
    }

    method AskOne(managers: seq<PartitionManager>, at: nat, fetched: Option<seq<Fetched>>, ghost answer: Answer)
      returns (verdict: Option<EmitState>, out: Option<Queued>)
      requires at < |managers| && Distinct(managers) && answer == AnswerOf(Nows(managers)[at], fetched)
      modifies managers[at]
      ensures answer.None? ==> verdict == None && Nows(managers) == old(Nows(managers))
      ensures answer.Some? ==> verdict == Some(Verdict(answer.value)) && out == answer.value.1 &&
                               Nows(managers) == old(Nows(managers))[at := answer.value.0]
    {
      verdict, out := managers[at].NextTuple(fetched);
    }

    method AckTuple(partition: Partition, offset: int)
      modifies if partition in coordinator.managers then {coordinator.managers[partition]} else {}
      ensures forall m | old(allocated(m)) && m in coordinator.managers.Values ::
                m.Now() == if partition in coordinator.managers && m == coordinator.managers[partition]
                           then Ack(old(m.Now()), offset) else old(m.Now())
    {
      var m := coordinator.GetManager(partition);
      if m.Some? {
        m.value.AckOffset(offset);
      }
    }

    method FailTuple(partition: Partition, offset: int)
      modifies if partition in coordinator.managers then {coordinator.managers[partition]} else {}
      ensures forall m | old(allocated(m)) && m in coordinator.managers.Values ::
                m.Now() == if partition in coordinator.managers && m == coordinator.managers[partition]
                           then Fail(old(m.Now()), offset) else old(m.Now())
    {
      var m := coordinator.GetManager(partition);
      if m.Some? {
        m.value.FailOffset(offset);
      }
    }

    /** Every manager whose completed offset is not the committed one stores it, for its own partition only. */
    method CommitAll(managers: seq<PartitionManager>)
      requires DistinctIds(managers) && forall i :: 0 <= i < |managers| ==> managers[i].state == coordinator.state
      modifies managers, coordinator.state
      ensures forall i :: 0 <= i < |managers| ==> managers[i].Now() == Commit(old(managers[i].Now()))
      ensures forall i :: 0 <= i < |managers| ==>
                coordinator.state.ReadJson(managers[i].partition.id) ==
                var c := Completed(old(managers[i].Now()));
                if c == old(managers[i].committedTo) then old(coordinator.state.ReadJson(managers[i].partition.id))
                else Some(Stored(managers[i].topologyInstanceId, c))
      ensures forall id :: (forall i :: 0 <= i < |managers| ==> managers[i].partition.id != id) ==>
                coordinator.state.ReadJson(id) == old(coordinator.state.ReadJson(id))
    {
      hide Commit, Completed;
      ghost var stored := coordinator.state;
      for i := 0 to |managers|
        invariant forall j :: 0 <= j < i ==> managers[j].Now() == Commit(old(managers[j].Now()))
        invariant forall j :: i <= j < |managers| ==> managers[j].Now() == old(managers[j].Now())
        invariant forall j :: 0 <= j < i ==>
                    stored.ReadJson(managers[j].partition.id) ==
                    var c := Completed(old(managers[j].Now()));
                    if c == old(managers[j].committedTo) then old(stored.ReadJson(managers[j].partition.id))
                    else Some(Stored(managers[j].topologyInstanceId, c))
        invariant forall id :: (forall j :: 0 <= j < i ==> managers[j].partition.id != id) ==>
                    stored.ReadJson(id) == old(stored.ReadJson(id))
      {
        managers[i].CommitOffset();
      }
    }
  }

  lemma RemainderBelow(x: nat, n: nat)
    requires x < n
    ensures x % n == x
  {
  }

  lemma RemainderNext(x: nat, n: nat)
    requires x < n
    ensures (x + 1) % n == if x + 1 == n then 0 else x + 1
  {
  }

  /** Places are counted forward around the ring. */
  lemma AtIsRemainder(c: nat, k: nat, n: nat)
    requires c < n && k <= n
    ensures At(c, k, n) == (c + k) % n
  {
    if c + k < n {
      RemainderBelow(c + k, n);
    } else {
      ModUnique(c + k, n, 1, c + k - n);
    }
  }

  // ----- What a round does -----

  /** How the manager `j` places on is left: as its answer says if it was asked and answered, else as it was. */
  predicate LeftAs(ms: seq<State>, answers: seq<Answer>, c: nat, t: Round, from: nat, j: nat)
    requires c < |ms| == |answers| == |t.ms| && j < |ms|
  {
    var at := At(c, j, |ms|);
    t.ms[at] == if from <= j < t.asked && answers[at].Some? then answers[at].value.0 else ms[at]
  }

  /** The manager `j` places on has nothing to emit, and its fetch does not throw. */
  predicate PassesOn(answers: seq<Answer>, c: nat, j: nat)
    requires c < |answers| && j < |answers|
  {
    var answer := answers[At(c, j, |answers|)];
    answer.Some? && answer.value.1.None?
  }

  predicate EmittedBy(answers: seq<Answer>, c: nat, t: Round, j: nat)
    requires c < |answers| && j < |answers|
  {
    var at := At(c, j, |answers|);
    && answers[at].Some? && answers[at].value.1.Some? && t.out == Some((at, answers[at].value.1.value))
    && t.index == if answers[at].value.0.waiting != [] then at else At(c, j + 1, |answers|)
  }

  predicate ThrownBy(answers: seq<Answer>, c: nat, t: Round, j: nat)
    requires c < |answers| && j < |answers|
  {
    answers[At(c, j, |answers|)].None? && t.out == None && t.index == At(c, j, |answers|)
  }

  /** Managers are asked in ring order, each at most once, up to the first that emits or throws; the others
      stay as they were, and so does one that throws. The index stays on an emitter that has more queued and
      on a manager that throws, and otherwise moves past the last one asked. */
  lemma {:induction false} RoundIs(ms: seq<State>, answers: seq<Answer>, c: nat, k: nat)
    requires c < |ms| == |answers| && k <= |ms|
    ensures var t := Ask(ms, answers, c, k);
            && |t.ms| == |ms| && t.index < |ms| && k <= t.asked <= |ms|
            && (forall j :: 0 <= j < |ms| ==> LeftAs(ms, answers, c, t, k, j))
    ensures var t := Ask(ms, answers, c, k);
            if !t.threw && t.out.None? then
              t.asked == |ms| && t.index == c && forall j :: k <= j < |ms| ==> PassesOn(answers, c, j)
            else
              && k < t.asked && (forall j :: k <= j < t.asked - 1 ==> PassesOn(answers, c, j))
              && if t.threw then ThrownBy(answers, c, t, t.asked - 1) else EmittedBy(answers, c, t, t.asked - 1)
    decreases |ms| - k
  {
    if k < |ms| {
      var at := At(c, k, |ms|);
      var t := Ask(ms, answers, c, k);
      if PassesOn(answers, c, k) {
        var ms' := ms[at := answers[at].value.0];
        RoundIs(ms', answers, c, k + 1);
        forall j | 0 <= j < |ms|
          ensures LeftAs(ms, answers, c, t, k, j)
        {
          assert LeftAs(ms', answers, c, t, k + 1, j);
        }
      } else {
        RoundStops(ms, answers, c, k);
      }
    }
  }

  /** The round ends with this manager. */
  lemma RoundStops(ms: seq<State>, answers: seq<Answer>, c: nat, k: nat)
    requires c < |ms| == |answers| && k < |ms| && !PassesOn(answers, c, k)
    ensures var t := Ask(ms, answers, c, k);
            && |t.ms| == |ms| && t.index < |ms| && t.asked == k + 1
            && (forall j :: 0 <= j < |ms| ==> LeftAs(ms, answers, c, t, k, j))
            && (t.threw || t.out.Some?)
            && if t.threw then ThrownBy(answers, c, t, k) else EmittedBy(answers, c, t, k)
  {
    var t := Ask(ms, answers, c, k);
    forall j | 0 <= j < |ms|
      ensures LeftAs(ms, answers, c, t, k, j)
    {
      assert j != k ==> At(c, j, |ms|) != At(c, k, |ms|);
    }
  }

  // ----- No manager starves -----

  /** The spout as a call of nextTuple finds it, and what fetches would answer during the call. */
  datatype Call = Call(ms: seq<State>, index: nat, fetched: seq<Option<seq<Fetched>>>) {
    predicate Fits(n: nat) {
      index < n == |ms| == |fetched|
    }

    function Run(): Round
      requires Fits(|ms|)
    {
      Ask(ms, Answers(ms, fetched), index, 0)
    }

    /** No queue and no fetch holds more than `w` messages. */
    ghost predicate Bounded(n: nat, w: nat) {
      Fits(n) && forall i :: 0 <= i < n ==> |ms[i].waiting| <= w && |fetched[i].GetOr([])| <= w
    }

    /** The call asks manager `j`. */
    predicate Asks(j: nat) {
      Fits(|ms|) && j < |ms| && Ahead(index, j, |ms|) < Run().asked
    }
  }

  /** Between two calls acks, failures and commits may change anything but the queues. A call that throws
      ends the worker and has no next one. */
  ghost predicate Follows(call: Call, next: Call) {
    call.Fits(|next.ms|) && next.Fits(|call.ms|) &&
    var t := call.Run();
    !t.threw && next.index == t.index && |t.ms| == |next.ms| && forall i :: 0 <= i < |next.ms| ==>
      next.ms[i].waiting == t.ms[i].waiting
  }

  /** How far ahead of the index manager `j` stands on the ring. */
  function Ahead(index: nat, j: nat, n: nat): (d: nat)
    requires index < n && j < n
    ensures d < n && At(index, d, n) == j
  {
    if index <= j then j - index else j + n - index
  }

  /** How many calls the manager at the index may still keep it. */
  function Rest(s: State, w: nat): nat {
    if s.waiting == [] then w else |s.waiting|
  }

  /** Bounds the number of calls before manager `j` is asked. */
  function Rank(call: Call, j: nat, w: nat): nat
    requires call.Fits(|call.ms|) && j < |call.ms|
  {
    Ahead(call.index, j, |call.ms|) * w + Rest(call.ms[call.index], w)
  }

  lemma {:induction false} FillQueues(s: State, batch: seq<Fetched>)
    ensures |Fill(s, batch).waiting| == |s.waiting| + |batch|
    decreases |batch|
  {
    if batch != [] {
      FillQueues(s.(pending := s.pending + {s.emittedTo}, waiting := s.waiting + [Queued(batch[0].msg, s.emittedTo)],
                    emittedTo := batch[0].next), batch[1..]);
    }
  }

  lemma {:induction false} PollShrinks(s: State)
    ensures |Poll(s).0.waiting| <= |s.waiting|
    ensures Poll(s).1.Some? ==> |Poll(s).0.waiting| < |s.waiting|
    ensures Poll(s).1.None? ==> Poll(s).0.waiting == []
    decreases |s.waiting|
  {
    if s.waiting != [] && !s.waiting[0].msg.decodes {
      PollShrinks(Ack(s.(waiting := s.waiting[1..]), s.waiting[0].offset));
    }
  }

  /** A turn is finite: each emission leaves less in the queue than was queued or fetched for it. */
  lemma TurnShrinks(s: State, batch: seq<Fetched>)
    ensures var had := if s.waiting == [] then |batch| else |s.waiting|;
            var r := Next(s, batch);
            |r.0.waiting| <= had && (r.1.Some? ==> |r.0.waiting| < had) && (r.1.None? ==> r.0.waiting == [])
  {
    FillQueues(s, batch);
    PollShrinks(Refilled(s, batch));
  }

  lemma Monotone(a: nat, b: nat, w: nat)
    requires a <= b
    ensures a * w <= b * w
  {
  }

  /** A call that does not ask manager `j` brings the index nearer to it. */
  lemma CallAdvances(call: Call, next: Call, j: nat, w: nat)
    requires w > 0 && call.Bounded(|call.ms|, w) && next.Bounded(|call.ms|, w) && j < |call.ms|
    requires Follows(call, next) && !call.Asks(j)
    ensures Rank(next, j, w) < Rank(call, j, w)
  {
    hide Next, Ask;
    var n, c, t := |call.ms|, call.index, call.Run();
    var answers := Answers(call.ms, call.fetched);
    RoundIs(call.ms, answers, c, 0);
    var d := Ahead(c, j, n);
    var last := t.asked - 1;
    var at := At(c, last, n);
    assert EmittedBy(answers, c, t, last) && LeftAs(call.ms, answers, c, t, 0, last);
    var left := answers[at].value.0;
    TurnShrinks(call.ms[at], call.fetched[at].GetOr([]));
    assert next.ms[at].waiting == left.waiting;
    if left.waiting == [] {
      assert Ahead(next.index, j, n) == d - t.asked;
      Nearer(d - t.asked, d, Rest(next.ms[next.index], w), Rest(call.ms[c], w), w);
    } else {
      assert next.index == at && Ahead(at, j, n) == d - last;
      if last > 0 {
        Nearer(d - last, d, Rest(next.ms[at], w), Rest(call.ms[c], w), w);
      }
    }
  }

  lemma Nearer(d': nat, d: nat, rest': nat, rest: nat, w: nat)
    requires d' < d && rest' <= w && rest > 0
    ensures d' * w + rest' < d * w + rest
  {
    Monotone(d' + 1, d, w);
    assert (d' + 1) * w == d' * w + w;
  }

  /** Successive calls on `n` managers, with queues and fetches of at most `w` messages. */
  ghost predicate History(calls: seq<Call>, n: nat, w: nat) {
    && (forall i :: 0 <= i < |calls| ==> calls[i].Bounded(n, w))
    && (forall i :: 0 < i < |calls| ==> Follows(calls[i - 1], calls[i]))
  }

  /** Along any run of calls, with acks, failures and commits between them, every manager is asked within
      `n * w` calls. */
  lemma NoStarvation(calls: seq<Call>, n: nat, j: nat, w: nat)
    requires w > 0 && j < n && History(calls, n, w) && |calls| >= n * w
    ensures exists i :: 0 <= i < |calls| && calls[i].Asks(j)
  {
    Monotone(1, n, w);
    var first := calls[0];
    assert first.Bounded(n, w);
    Monotone(Ahead(first.index, j, n) + 1, n, w);
    assert (Ahead(first.index, j, n) + 1) * w == Ahead(first.index, j, n) * w + w;
    Reached(calls, n, j, w);
  }

  lemma {:induction false} Reached(calls: seq<Call>, n: nat, j: nat, w: nat)
    requires w > 0 && j < n && calls != [] && History(calls, n, w)
    requires calls[0].Bounded(n, w) && |calls| >= Rank(calls[0], j, w)
    ensures exists i :: 0 <= i < |calls| && calls[i].Asks(j)
    decreases |calls|
  {
    if !calls[0].Asks(j) {
      LastCall(calls[0], n, j, w);
      assert calls[1].Bounded(n, w) && Follows(calls[0], calls[1]);
      CallAdvances(calls[0], calls[1], j, w);
      var rest := calls[1..];
      forall i | 0 < i < |rest|
        ensures Follows(rest[i - 1], rest[i])
      {
        assert Follows(calls[i], calls[i + 1]);
      }
      Reached(rest, n, j, w);
      var i :| 0 <= i < |rest| && rest[i].Asks(j);
      assert calls[i + 1].Asks(j);
    }
  }

  /** A call that does not ask manager `j` is not the last that its rank allows. */
  lemma LastCall(call: Call, n: nat, j: nat, w: nat)
    requires w > 0 && call.Bounded(n, w) && j < n && !call.Asks(j)
    ensures Rank(call, j, w) > 1
  {
    RoundIs(call.ms, Answers(call.ms, call.fetched), call.index, 0);
    Monotone(1, Ahead(call.index, j, n), w);
  }
}
