/** One Kafka partition as the spout and the Trident emitter see it: an append-only
    log in which some offsets may hold no message (compaction, expiry). */
module MessageLog {
  import opened Wrappers

  /** `decodes` is false when the configured scheme answers null for the payload. */
  datatype Message = Message(payload: int, size: nat, decodes: bool)

  /** The offset of a message is its index. */
  type Log = seq<Option<Message>>

  /** One entry of a fetched message set: the message and the offset after it. */
  datatype Fetched = Fetched(msg: Message, next: int)

  predicate Present(log: Log, x: int) {
    0 <= x < |log| && log[x].Some?
  }

  /** The offset of the first message at or after `o`. */
  function First(log: Log, o: int): (r: Option<int>)
    ensures r.Some? ==> o <= r.value && Present(log, r.value) && forall x :: o <= x < r.value ==> !Present(log, x)
    ensures r.None? ==> forall x :: o <= x ==> !Present(log, x)
    decreases |log| - o
  {
    if o >= |log| then None
    else if Present(log, o) then Some(o)
    else First(log, o + 1)
  }

  /** Appending to the log does not change which message an offset names. */
  lemma FirstStable(log: Log, more: Log, o: int)
    requires First(log, o).Some?
    ensures First(log + more, o) == First(log, o)
  {
    var x := First(log, o).value;
    assert Present(log + more, x);
    var y := First(log + more, o);
    assert y.Some? && y.value <= x;
    assert Present(log, y.value);
  }

  /** `batch` is what a fetch at `o` may return: the next messages of the log, without a hole. */
  predicate IsRun(log: Log, o: int, batch: seq<Fetched>)
    decreases |batch|
  {
    batch == [] ||
    (var x := First(log, o);
     x.Some? && batch[0] == Fetched(log[x.value].value, x.value + 1) && IsRun(log, x.value + 1, batch[1..]))
  }

  lemma {:induction false} RunStable(log: Log, more: Log, o: int, batch: seq<Fetched>)
    requires IsRun(log, o, batch)
    ensures IsRun(log + more, o, batch)
    decreases |batch|
  {
    if batch != [] {
      FirstStable(log, more, o);
      RunStable(log, more, First(log, o).value + 1, batch[1..]);
    }
  }

  /** No message lies between the two offsets, whichever is the lower. */
  ghost predicate NothingBetween(log: Log, o: int, start: int) {
    forall x :: o <= x < start || start <= x < o ==> !Present(log, x)
  }

  lemma FirstBetween(log: Log, o: int, start: int)
    ensures NothingBetween(log, o, start) <==> First(log, o) == First(log, start)
  {
  }

  lemma OneIsRun(log: Log, o: int, x: int)
    requires Present(log, x)
    ensures IsRun(log, o, [Fetched(log[x].value, x + 1)]) <==> First(log, o) == Some(x)
  {
    var one := [Fetched(log[x].value, x + 1)];
    assert one[1..] == [];
  }

  /** A fetch that is asked again from another offset can answer exactly what it could before, if and only
      if no message lies between the two offsets. */
  lemma ResetIsSameRunIff(log: Log, o: int, start: int)
    ensures NothingBetween(log, o, start) <==>
            forall batch :: IsRun(log, start, batch) <==> IsRun(log, o, batch)
  {
    FirstBetween(log, o, start);
    var x, y := First(log, o), First(log, start);
    if x != y {
      var at := if x.Some? then x else y;
      OneIsRun(log, o, at.value);
      OneIsRun(log, start, at.value);
    }
  }

  /** The offset after the last message of `batch`, `o` when there is none. */
  function EndOf(o: int, batch: seq<Fetched>): int {
    if batch == [] then o else batch[|batch| - 1].next
  }

  /** The messages with offsets in [lo, hi), in log order. */
  function Segment(log: Log, lo: int, hi: int): seq<Message>
    decreases hi - lo
  {
    if lo >= hi then []
    else (if Present(log, lo) then [log[lo].value] else []) + Segment(log, lo + 1, hi)
  }

  function Messages(batch: seq<Fetched>): (r: seq<Message>) {
    seq(|batch|, i requires 0 <= i < |batch| => batch[i].msg)
  }

  lemma {:induction false} SegmentSplit(log: Log, lo: int, mid: int, hi: int)
    requires lo <= mid <= hi
    ensures Segment(log, lo, hi) == Segment(log, lo, mid) + Segment(log, mid, hi)
    decreases mid - lo
  {
    if lo < mid {
      SegmentSplit(log, lo + 1, mid, hi);
    }
  }

  lemma {:induction false} SegmentSkips(log: Log, lo: int, hi: int)
    requires lo <= hi && forall x :: lo <= x < hi ==> !Present(log, x)
    ensures Segment(log, lo, hi) == []
    decreases hi - lo
  {
    if lo < hi {
      SegmentSkips(log, lo + 1, hi);
    }
  }

  lemma SegmentHas(log: Log, lo: int, hi: int, x: int)
    requires lo <= x < hi && Present(log, x)
    ensures Segment(log, lo, hi) != []
  {
    SegmentSplit(log, lo, x, hi);
  }

  /** A fetched run is exactly the log between the offset asked for and the offset after its end. */
  lemma {:induction false} RunIsSegment(log: Log, o: int, batch: seq<Fetched>)
    requires IsRun(log, o, batch)
    ensures o <= EndOf(o, batch)
    ensures batch != [] ==> EndOf(o, batch) <= |log|
    ensures Messages(batch) == Segment(log, o, EndOf(o, batch))
    decreases |batch|
  {
    if batch != [] {
      var x := First(log, o).value;
      RunIsSegment(log, x + 1, batch[1..]);
      SegmentSplit(log, o, x, EndOf(o, batch));
      SegmentSkips(log, o, x);
      assert Messages(batch) == [batch[0].msg] + Messages(batch[1..]);
    }
  }

  /** Appending to the log keeps every earlier segment. */
  lemma {:induction false} SegmentStable(log: Log, more: Log, lo: int, hi: int)
    requires hi <= |log|
    ensures Segment(log + more, lo, hi) == Segment(log, lo, hi)
    decreases hi - lo
  {
    if lo < hi {
      SegmentStable(log, more, lo + 1, hi);
    }
  }
}
