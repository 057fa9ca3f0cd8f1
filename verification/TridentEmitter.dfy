/** The Trident emitter: batches, their metadata, replay and failed fetches over one partition's log. */
module TridentEmitter {
  import opened Wrappers
  import opened MessageLog
  import PS = PartitionState

  // ----- Fetching -----

  /** How a broker may answer a fetch request. */
  datatype Response = Answered | OutOfRange | OtherError | ConnectionRefused | Broken

  /** What a fetch comes to: messages, a FailedFetchException or another exception. */
  datatype FetchResult = Fetch(messages: seq<Fetched>) | FailedFetch | RuntimeFailure

  datatype Config =
    Config(topologyInstanceId: string, forceFromStart: bool, fetchSize: nat, useStartOffset: bool)

  /** The broker's answers to the requests of one fetch, and to the request for the start offset between them
      (None where that one throws). */
  datatype Answers = Answers(first: Response, second: Response, startOffset: Option<int>)

  /** A broker's answer at an offset in range: the next messages, as many as fit `budget` bytes. */
  function Served(log: Log, o: int, budget: nat): (batch: seq<Fetched>)
    ensures IsRun(log, o, batch)
    decreases |log| - o
  {
    var x := First(log, o);
    if x.None? || log[x.value].value.size > budget then []
    else [Fetched(log[x.value].value, x.value + 1)] + Served(log, x.value + 1, budget - log[x.value].value.size)
  }

  function Size(batch: seq<Fetched>): nat {
    if batch == [] then 0 else batch[0].msg.size + Size(batch[1..])
  }

  /** What a request is served begins with a batch exactly if the batch is the next messages and fits. */
  lemma {:induction false} ServedIff(log: Log, o: int, batch: seq<Fetched>, budget: nat)
    ensures batch <= Served(log, o, budget) <==> IsRun(log, o, batch) && Size(batch) <= budget
    decreases |batch|
  {
    if batch != [] {
      var x := First(log, o);
      var served := Served(log, o, budget);
      if x.Some? && batch[0] == Fetched(log[x.value].value, x.value + 1) && batch[0].msg.size <= budget {
        ServedIff(log, x.value + 1, batch[1..], budget - batch[0].msg.size);
        SameHead(batch, served);
      }
    }
  }

  function Result(response: Response, log: Log, o: int, budget: nat): FetchResult {
    match response
    case Answered => Fetch(Served(log, o, budget))
    case Broken => RuntimeFailure
    case _ => FailedFetch
  }

  predicate Retries(cfg: Config, answers: Answers) {
    answers.first.OutOfRange? && cfg.useStartOffset
  }

  /** The offset of the last request that a fetch at `o` may send. */
  function Requested(cfg: Config, o: int, answers: Answers): int {
    if Retries(cfg, answers) then answers.startOffset.GetOr(o) else o
  }

  /** What a fetch at `o` comes to. */
  function FetchAt(cfg: Config, log: Log, o: int, answers: Answers): FetchResult {
    if !Retries(cfg, answers) then Result(answers.first, log, o, cfg.fetchSize)
    else if answers.startOffset.None? then RuntimeFailure
    else Result(answers.second, log, answers.startOffset.value, cfg.fetchSize)
  }

  /** A second request from the start offset passes over no message, upwards or downwards. */
  ghost predicate PassesNothing(cfg: Config, log: Log, o: int, answers: Answers) {
    NothingBetween(log, o, Requested(cfg, o, answers))
  }

  /** At most two requests are sent; `asked` lists their offsets. */
  method FetchMessages(cfg: Config, log: Log, offset: int, answers: Answers) returns (r: FetchResult, asked: seq<int>)
    ensures r == FetchAt(cfg, log, offset, answers)
    ensures var reset := answers.first.OutOfRange? && cfg.useStartOffset;
            var sent := if reset then answers.second else answers.first;
            && asked == (if reset && answers.startOffset.Some? then [offset, answers.startOffset.value] else [offset])
            && (r.RuntimeFailure? <==> (reset && answers.startOffset.None?) || sent.Broken?)
            && (!r.RuntimeFailure? ==>
                  && (r.FailedFetch? <==> sent.ConnectionRefused? || sent.OtherError? || sent.OutOfRange?)
                  && (r.Fetch? ==> r.messages == Served(log, asked[|asked| - 1], cfg.fetchSize)))
  {
    hide Served;
    var from := offset;
    var msgs: Option<seq<Fetched>> := None;
    asked := [];
    var errors := 0;
    while errors < 2 && msgs.None?
      invariant 0 <= errors <= 2 && |asked| == errors
      invariant errors == 0 ==> from == offset && msgs.None?
      invariant errors > 0 ==> asked[0] == offset
      invariant errors == 1 && msgs.None? ==> Retries(cfg, answers) && answers.startOffset == Some(from)
      invariant errors == 1 && msgs.Some? ==> answers.first.Answered?
      invariant errors == 2 ==> Retries(cfg, answers) && answers.startOffset == Some(asked[1])
      invariant errors == 2 ==> answers.second.Answered? && msgs.Some?
      invariant msgs.Some? ==> msgs.value == Served(log, from, cfg.fetchSize) && from == asked[|asked| - 1]
    {
      var response := if errors == 0 then answers.first else answers.second;
      asked := asked + [from];
      if response.ConnectionRefused? {
        return FailedFetch, asked;
      } else if response.Broken? {
        return RuntimeFailure, asked;
      } else if response.Answered? {
        msgs := Some(Served(log, from, cfg.fetchSize));
      } else if response.OutOfRange? && cfg.useStartOffset && errors == 0 {
        if answers.startOffset.None? {
          return RuntimeFailure, asked;
        }
        from := answers.startOffset.value;
      } else {
        return FailedFetch, asked;
      }
      errors := errors + 1;
    }
    r := Fetch(msgs.value);
  }

  // ----- Emitting -----

  /** What the collector is given for these messages. */
  function Decoded(msgs: seq<Message>): seq<Message> {
    if msgs == [] then [] else (if msgs[0].decodes then [msgs[0]] else []) + Decoded(msgs[1..])
  }

  lemma {:induction false} DecodedSplit(a: seq<Message>, b: seq<Message>)
    ensures Decoded(a + b) == Decoded(a) + Decoded(b)
    decreases |a|
  {
    if a == [] {
      assert a + b == b;
    } else {
      DecodedSplit(a[1..], b);
      var head := if a[0].decodes then [a[0]] else [];
      assert (a + b)[1..] == a[1..] + b && (a + b)[0] == a[0];
      assert Decoded(a + b) == head + Decoded(a[1..] + b);
      assert head + (Decoded(a[1..]) + Decoded(b)) == (head + Decoded(a[1..])) + Decoded(b);
    }
  }

  /** The metadata of a batch; the metadata of a failed batch carries no instance id. */
  datatype Meta = Meta(offset: int, nextOffset: int, instanceId: Option<string>, topologyId: Option<string>)

  /** One attempt at a new batch. `fallback` and `forced` answer the two offset requests it may make (None where
      one throws). */
  datatype Attempt = Attempt(fallback: Option<int>, forced: Option<int>, answers: Answers)

  predicate Continues(cfg: Config, last: Meta) {
    !cfg.forceFromStart || last.topologyId == Some(cfg.topologyInstanceId)
  }

  function NewOffset(cfg: Config, last: Option<Meta>, attempt: Attempt): Option<int> {
    if last.None? then attempt.fallback
    else if Continues(cfg, last.value) then Some(last.value.nextOffset)
    else attempt.forced
  }

  /** What an attempt fetches. */
  function FetchNew(cfg: Config, log: Log, last: Option<Meta>, attempt: Attempt): FetchResult {
    var offset := NewOffset(cfg, last, attempt);
    if offset.None? then RuntimeFailure else FetchAt(cfg, log, offset.value, attempt.answers)
  }

  datatype Batch = Batch(meta: Option<Meta>, emitted: seq<Message>)

  /** The batch of a fetch that answered `msgs` at `offset`. */
  function Fresh(cfg: Config, offset: int, msgs: seq<Fetched>): Batch {
    Batch(Some(Meta(offset, EndOf(offset, msgs), Some(cfg.topologyInstanceId), Some(cfg.topologyInstanceId))),
          Decoded(Messages(msgs)))
  }

  /** How an attempt at a batch ends: with the batch, a FailedFetchException or another exception. */
  datatype Emission = Emitted(batch: Batch) | FetchFailed | Crashed

  /** The transactional emitter fails fast. */
  function FailFast(cfg: Config, log: Log, last: Option<Meta>, attempt: Attempt): Emission {
    match FetchNew(cfg, log, last, attempt)
    case Fetch(msgs) => Emitted(Fresh(cfg, NewOffset(cfg, last, attempt).GetOr(0), msgs))
    case FailedFetch => FetchFailed
    case RuntimeFailure => Crashed
  }

  /** The opaque emitter makes an empty batch of a failed fetch, or answers null when there is no earlier one. */
  function NewBatch(cfg: Config, log: Log, last: Option<Meta>, attempt: Attempt): Emission {
    var e := FailFast(cfg, log, last, attempt);
    if !e.FetchFailed? then e
    else if last.None? then Emitted(Batch(None, []))
    else
      var next := last.value.nextOffset;
      Emitted(Batch(Some(Meta(next, next, None, Some(cfg.topologyInstanceId))), []))
  }

  /** How a replay of the range from `offset` ends, given the messages fetched there. */
  datatype Replayed = Complete(emitted: seq<Message>) | Overshot(partial: seq<Message>)

  function Replay(offset: int, nextOffset: int, msgs: seq<Fetched>): Replayed
    decreases |msgs|
  {
    if msgs == [] || offset == nextOffset then Complete([])
    else if offset > nextOffset then Overshot([])
    else
      var head := if msgs[0].msg.decodes then [msgs[0].msg] else [];
      Resume(head, Replay(msgs[0].next, nextOffset, msgs[1..]))
  }

  /** How re-emitting a batch ends: it belongs to another instance and is left alone, its metadata names no
      instance where one is asked for (a null is dereferenced), the fetch throws, or it is replayed. */
  datatype ReEmission = Skipped | NoInstance | Unfetched | Ran(replay: Replayed)

  function ReEmit(cfg: Config, log: Log, meta: Meta, answers: Answers): ReEmission {
    if cfg.forceFromStart && meta.instanceId.None? then NoInstance
    else if cfg.forceFromStart && meta.instanceId.value != cfg.topologyInstanceId then Skipped
    else
      match FetchAt(cfg, log, meta.offset, answers)
      case Fetch(msgs) => Ran(Replay(meta.offset, meta.nextOffset, msgs))
      case _ => Unfetched
  }

  /** The emissions of `rest` come after those in `done`. */
  function Resume(done: seq<Message>, rest: Replayed): Replayed {
    match rest
    case Complete(tail) => Complete(done + tail)
    case Overshot(tail) => Overshot(done + tail)
  }

  lemma ResumeTwice(a: seq<Message>, b: seq<Message>, rest: Replayed)
    ensures Resume(a + b, rest) == Resume(a, Resume(b, rest))
  {
  }

  /** A message more is emitted, in its place, exactly if it decodes. */
  lemma DecodedOne(a: seq<Message>, m: Message, b: seq<Message>)
    ensures Decoded([]) == []
    ensures Decoded(a + [m] + b) == Decoded(a) + (if m.decodes then [m] else []) + Decoded(b)
  {
    DecodedSplit(a + [m], b);
    DecodedSplit(a, [m]);
  }

  /** How an attempt ends, by the answers to its requests alone. It asks from where the last batch ended, from
      the answer for the configured time after another topology under `forceFromStart`, and without an earlier
      batch from the answer for the configuration. An offset request it makes that throws, or a broken last
      fetch, ends it with an exception; a refused connection, an error, or an offset out of range without the
      reset configured or after it is a failed fetch, of which only the opaque emitter makes an empty batch
      after the last one. */
  lemma EmissionIs(cfg: Config, log: Log, last: Option<Meta>, attempt: Attempt)
    ensures var other := last.Some? && last.value.topologyId != Some(cfg.topologyInstanceId);
            var request := if last.None? then attempt.fallback
                           else if other && cfg.forceFromStart then attempt.forced
                           else Some(last.value.nextOffset);
            var reset := attempt.answers.first.OutOfRange? && cfg.useStartOffset;
            var sent := if reset then attempt.answers.second else attempt.answers.first;
            var e, batched := FailFast(cfg, log, last, attempt), NewBatch(cfg, log, last, attempt);
            && (e.Crashed? <==> request.None? || (reset && attempt.answers.startOffset.None?) || sent.Broken?)
            && (e.Crashed? <==> batched.Crashed?)
            && (!e.Crashed? && sent.Answered? ==>
                  var start := if reset then attempt.answers.startOffset.value else request.value;
                  var msgs := Served(log, start, cfg.fetchSize);
                  var id := Some(cfg.topologyInstanceId);
                  && e == Emitted(Batch(Some(Meta(request.value, EndOf(request.value, msgs), id, id)),
                                        Decoded(Messages(msgs))))
                  && batched == e)
            && (!e.Crashed? && !sent.Answered? ==>
                  && e.FetchFailed? && batched.Emitted? && batched.batch.emitted == []
                  && (last.None? ==> batched.batch.meta == None)
                  && (last.Some? ==>
                        batched.batch.meta == Some(Meta(last.value.nextOffset, last.value.nextOffset, None,
                                                       Some(cfg.topologyInstanceId)))))
  {
  }

  /** How re-emitting ends, by the metadata and the answers alone: an emitter that insists on its instance leaves
      another's batch alone and fails on metadata without one; a fetch that does not succeed is passed on; and
      otherwise the messages fetched are replayed against the range. */
  lemma ReEmissionIs(cfg: Config, log: Log, meta: Meta, answers: Answers)
    ensures var reset := answers.first.OutOfRange? && cfg.useStartOffset;
            var sent := if reset then answers.second else answers.first;
            var mine := !cfg.forceFromStart || meta.instanceId == Some(cfg.topologyInstanceId);
            var r := ReEmit(cfg, log, meta, answers);
            && (r.Skipped? <==> !mine && meta.instanceId.Some?)
            && (r.NoInstance? <==> !mine && meta.instanceId.None?)
            && (r.Unfetched? <==> mine && ((reset && answers.startOffset.None?) || !sent.Answered?))
            && (r.Ran? ==>
                  var start := if reset then answers.startOffset.value else meta.offset;
                  r.replay == Replay(meta.offset, meta.nextOffset, Served(log, start, cfg.fetchSize)))
  {
  }

  lemma EmitsNothing()
    ensures Decoded(Messages([])) == []
  {
  }

  lemma EmitsNext(msgs: seq<Fetched>, i: nat)
    requires i < |msgs|
    ensures Decoded(Messages(msgs[..i + 1])) ==
            Decoded(Messages(msgs[..i])) + (if msgs[i].msg.decodes then [msgs[i].msg] else [])
  {
    DecodedSplit(Messages(msgs[..i]), [msgs[i].msg]);
    assert Messages(msgs[..i + 1]) == Messages(msgs[..i]) + [msgs[i].msg];
  }

  class TridentKafkaEmitter {
    const cfg: Config

    constructor (cfg: Config)
      ensures this.cfg == cfg
    {
      this.cfg := cfg;
    }

    /** `log` is the partition's log at the time of the fetch. */
    method FailFastEmitNewPartitionBatch(log: Log, last: Option<Meta>, attempt: Attempt) returns (e: Emission)
      ensures e == FailFast(cfg, log, last, attempt)
    {
      hide Served, Decoded;
      var request: Option<int>;
      if last.Some? {
        if cfg.forceFromStart && Some(cfg.topologyInstanceId) != last.value.topologyId {
          request := attempt.forced;
        } else {
          request := Some(last.value.nextOffset);
        }
      } else {
        request := attempt.fallback;
      }
      if request.None? {
        return Crashed;
      }
      var offset := request.value;
      var result, _ := FetchMessages(cfg, log, offset, attempt.answers);
      if !result.Fetch? {
        return if result.FailedFetch? then FetchFailed else Crashed;
      }
      var endOffset, emitted := EmitAll(offset, result.messages);
      var id := Some(cfg.topologyInstanceId);
      e := Emitted(Batch(Some(Meta(offset, endOffset, id, id)), emitted));
    }

    /** The loop over the messages fetched. */
    method EmitAll(offset: int, msgs: seq<Fetched>) returns (endOffset: int, emitted: seq<Message>)
      ensures endOffset == EndOf(offset, msgs) && emitted == Decoded(Messages(msgs))
    {
      hide Decoded;
      emitted, endOffset := [], offset;
      EmitsNothing();
      var i := 0;
      while i < |msgs|
        invariant 0 <= i <= |msgs|
        invariant endOffset == EndOf(offset, msgs[..i])
        invariant emitted == Decoded(Messages(msgs[..i]))
      {
        EmitsNext(msgs, i);
        if msgs[i].msg.decodes {
          emitted := emitted + [msgs[i].msg];
        }
        endOffset := msgs[i].next;
        i := i + 1;
      }
      assert msgs[..i] == msgs;
    }

    method EmitNewPartitionBatch(log: Log, last: Option<Meta>, attempt: Attempt) returns (e: Emission)
      ensures e == NewBatch(cfg, log, last, attempt)
    {
      e := FailFastEmitNewPartitionBatch(log, last, attempt);
      if e.FetchFailed? {
        if last.None? {
          e := Emitted(Batch(None, []));
        } else {
          var next := last.value.nextOffset;
          e := Emitted(Batch(Some(Meta(next, next, None, Some(cfg.topologyInstanceId))), []));
        }
      }
    }

    method ReEmitPartitionBatch(log: Log, meta: Meta, answers: Answers) returns (r: ReEmission)
      ensures r == ReEmit(cfg, log, meta, answers)
    {
      if cfg.forceFromStart {
        if meta.instanceId.None? {
          return NoInstance;
        }
        if meta.instanceId.value != cfg.topologyInstanceId {
          return Skipped;
        }
      }
      hide Served;
      var offset := meta.offset;
      var result, _ := FetchMessages(cfg, log, offset, answers);
      if !result.Fetch? {
        return Unfetched;
      }
      var msgs := result.messages;
      ghost var whole := Replay(offset, meta.nextOffset, msgs);
      var emitted := [];
      var i := 0;
      while i < |msgs|
        invariant 0 <= i <= |msgs|
        invariant Resume(emitted, Replay(offset, meta.nextOffset, msgs[i..])) == whole
      {
        if offset == meta.nextOffset {
          break;
        }
        if offset > meta.nextOffset {
          assert emitted + [] == emitted;
          return Ran(Overshot(emitted));
        }
        ghost var rest := Replay(msgs[i].next, meta.nextOffset, msgs[i + 1..]);
        assert msgs[i..][1..] == msgs[i + 1..];
        ResumeTwice(emitted, if msgs[i].msg.decodes then [msgs[i].msg] else [], rest);
        emitted := emitted + (if msgs[i].msg.decodes then [msgs[i].msg] else []);
        offset := msgs[i].next;
        i := i + 1;
      }
      assert emitted + [] == emitted;
      r := Ran(Complete(emitted));
    }
  }

  // ----- Replay equals original -----

  /** The messages a replay takes up, before decoding. */
  function Taken(offset: int, nextOffset: int, msgs: seq<Fetched>): (taken: seq<Fetched>)
    ensures taken <= msgs
    decreases |msgs|
  {
    if msgs == [] || offset >= nextOffset then []
    else [msgs[0]] + Taken(msgs[0].next, nextOffset, msgs[1..])
  }

  predicate Overshoots(offset: int, nextOffset: int, msgs: seq<Fetched>)
    decreases |msgs|
  {
    msgs != [] && offset != nextOffset &&
    (offset > nextOffset || Overshoots(msgs[0].next, nextOffset, msgs[1..]))
  }

  /** Where the replay stands before its `n`-th message. */
  function Reached(offset: int, msgs: seq<Fetched>, n: nat): int
    requires n <= |msgs|
  {
    if n == 0 then offset else msgs[n - 1].next
  }

  /** A replay takes messages up to the first place that is not below the end of the range, and overshoots if
      that place is beyond the end and a message is left. */
  lemma {:induction false} TakenIs(offset: int, nextOffset: int, msgs: seq<Fetched>)
    ensures var n := |Taken(offset, nextOffset, msgs)|;
            && n <= |msgs| && Taken(offset, nextOffset, msgs) == msgs[..n]
            && (forall k :: 0 <= k < n ==> Reached(offset, msgs, k) < nextOffset)
            && (n < |msgs| ==> Reached(offset, msgs, n) >= nextOffset)
            && (Overshoots(offset, nextOffset, msgs) <==> n < |msgs| && Reached(offset, msgs, n) > nextOffset)
    decreases |msgs|
  {
    if msgs != [] && offset < nextOffset {
      var rest := msgs[1..];
      TakenIs(msgs[0].next, nextOffset, rest);
      var n := |Taken(offset, nextOffset, msgs)|;
      forall k | 1 <= k <= n
        ensures Reached(offset, msgs, k) == Reached(msgs[0].next, rest, k - 1)
      {
      }
      assert msgs[..n] == [msgs[0]] + rest[..n - 1];
    }
  }

  /** A replay emits what decodes of the messages it takes up. */
  lemma {:induction false} ReplayIs(offset: int, nextOffset: int, msgs: seq<Fetched>)
    ensures var emitted := Decoded(Messages(Taken(offset, nextOffset, msgs)));
            Replay(offset, nextOffset, msgs) ==
              if Overshoots(offset, nextOffset, msgs) then Overshot(emitted) else Complete(emitted)
    decreases |msgs|
  {
    var taken := Taken(offset, nextOffset, msgs);
    if msgs != [] && offset < nextOffset {
      var rest := Taken(msgs[0].next, nextOffset, msgs[1..]);
      ReplayIs(msgs[0].next, nextOffset, msgs[1..]);
      assert Messages(taken)[1..] == Messages(rest);
      assert Messages(taken)[0] == msgs[0].msg;
    }
  }

  /** A replay takes up exactly these messages and stops after them. */
  predicate Repeats(offset: int, nextOffset: int, msgs: seq<Fetched>, own: seq<Fetched>) {
    Taken(offset, nextOffset, msgs) == own && !Overshoots(offset, nextOffset, msgs)
  }

  /** A replay repeats a batch that climbs to its end exactly if it starts below the end and the batch comes
      first in what it fetches. */
  lemma {:induction false} RepeatsIff(offset: int, own: seq<Fetched>, msgs: seq<Fetched>)
    requires own != [] && PS.Climbs(own[0].next, own[1..])
    ensures var end := EndOf(offset, own); Repeats(offset, end, msgs, own) <==> offset < end && own <= msgs
    decreases |own|
  {
    var end := EndOf(offset, own);
    if offset < end && msgs != [] && msgs[0] == own[0] {
      var next, rest := own[0].next, own[1..];
      SameHead(own, msgs);
      SameHead(Taken(offset, end, msgs), own);
      if rest != [] {
        assert EndOf(next, rest) == end;
        ClimbsToEnd(next, rest);
        RepeatsIff(next, rest, msgs[1..]);
      } else {
        assert end == next && own == [own[0]];
        assert Taken(next, end, msgs[1..]) == [] && !Overshoots(next, end, msgs[1..]);
      }
    }
  }

  lemma SameHead<T>(a: seq<T>, b: seq<T>)
    requires a != [] && b != [] && a[0] == b[0]
    ensures a <= b <==> a[1..] <= b[1..]
    ensures a == b <==> a[1..] == b[1..]
  {
    assert a == [a[0]] + a[1..] && b == [b[0]] + b[1..];
  }

  lemma {:induction false} ClimbsToEnd(o: int, batch: seq<Fetched>)
    requires PS.Climbs(o, batch) && batch != []
    ensures o < EndOf(o, batch)
    decreases |batch|
  {
    if |batch| > 1 {
      ClimbsToEnd(batch[0].next, batch[1..]);
    }
  }

  /** A batch fetched from `req` comes first in what a later request is served, exactly if no message lies
      between the two offsets and the batch fits. */
  lemma ServedAgainIff(log: Log, req: int, own: seq<Fetched>, again: int, budget: nat)
    requires own != [] && IsRun(log, req, own)
    ensures own <= Served(log, again, budget) <==> NothingBetween(log, req, again) && Size(own) <= budget
  {
    ServedIff(log, again, own, budget);
    FirstBetween(log, req, again);
  }

  /** By what can be seen before a replay, it repeats the batch: the batch is empty, or its range is not, the
      replay's last request passes over no message that the batch's own did not, and the batch fits. */
  ghost predicate Repeatable(log: Log, o: int, own: seq<Fetched>, req: int, again: int, budget: nat) {
    own == [] || (o < EndOf(o, own) && NothingBetween(log, req, again) && Size(own) <= budget)
  }

  /** Re-emitting a batch of the transactional emitter, on any later state of the log and with any answers. It
      is skipped exactly by another instance under `forceFromStart`, and otherwise replayed if its fetch
      succeeds. The replay takes up exactly the batch's own messages, without overshooting, if and only if it
      is repeatable, and then emits exactly what the batch emitted. */
  lemma ReplayEqualsOriginal(cfg: Config, later: Config, log: Log, more: Log, last: Option<Meta>, attempt: Attempt,
                             answers: Answers)
    requires FetchNew(cfg, log, last, attempt).Fetch?
    ensures var own := FetchNew(cfg, log, last, attempt).messages;
            var o := NewOffset(cfg, last, attempt).GetOr(0);
            var batch := FailFast(cfg, log, last, attempt).batch;
            var meta := batch.meta.GetOr(Meta(0, 0, None, None));
            var fetch := FetchAt(later, log + more, o, answers);
            && FailFast(cfg, log, last, attempt).Emitted? && meta.offset == o && meta.nextOffset == EndOf(o, own)
            && match ReEmit(later, log + more, meta, answers)
               case Skipped => later.forceFromStart && later.topologyInstanceId != cfg.topologyInstanceId
               case NoInstance => false
               case Unfetched => !fetch.Fetch?
               case Ran(replay) =>
                 && fetch.Fetch? && (later.forceFromStart ==> later.topologyInstanceId == cfg.topologyInstanceId)
                 && (Repeats(o, EndOf(o, own), fetch.messages, own) <==>
                     Repeatable(log + more, o, own, Requested(cfg, o, attempt.answers),
                                Requested(later, o, answers), later.fetchSize))
                 && (Repeats(o, EndOf(o, own), fetch.messages, own) ==> replay == Complete(batch.emitted))
  {
    hide Served, Replay, NothingBetween, Taken, Overshoots;
    var o := NewOffset(cfg, last, attempt).GetOr(0);
    var own := FetchNew(cfg, log, last, attempt).messages;
    var fetch := FetchAt(later, log + more, o, answers);
    if fetch.Fetch? {
      ReplayIs(o, EndOf(o, own), fetch.messages);
      RepeatsExactly(cfg, later, log, more, o, attempt.answers, answers);
    }
  }

  lemma FetchServes(cfg: Config, log: Log, o: int, answers: Answers)
    requires FetchAt(cfg, log, o, answers).Fetch?
    ensures FetchAt(cfg, log, o, answers).messages == Served(log, Requested(cfg, o, answers), cfg.fetchSize)
  {
  }

  lemma RepeatsExactly(cfg: Config, later: Config, log: Log, more: Log, o: int, before: Answers, after: Answers)
    requires FetchAt(cfg, log, o, before).Fetch? && FetchAt(later, log + more, o, after).Fetch?
    ensures var own, msgs := FetchAt(cfg, log, o, before).messages, FetchAt(later, log + more, o, after).messages;
            Repeats(o, EndOf(o, own), msgs, own) <==>
            Repeatable(log + more, o, own, Requested(cfg, o, before), Requested(later, o, after), later.fetchSize)
  {
    var own, msgs := FetchAt(cfg, log, o, before).messages, FetchAt(later, log + more, o, after).messages;
    var req, again := Requested(cfg, o, before), Requested(later, o, after);
    FetchServes(cfg, log, o, before);
    FetchServes(later, log + more, o, after);
    hide FetchAt, Requested, Served, NothingBetween, Taken, Overshoots, IsRun;
    if own != [] {
      hide Repeats;
      RunStable(log, more, req, own);
      PS.RunClimbs(log, req, own);
      RepeatsIff(o, own, msgs);
      ServedAgainIff(log + more, req, own, again, later.fetchSize);
    }
  }

  /** Without second requests that pass over a message, a fetch at least as large repeats every batch. */
  lemma OrdinaryReplays(cfg: Config, later: Config, log: Log, more: Log, o: int, before: Answers, after: Answers)
    requires FetchAt(cfg, log, o, before).Fetch? && cfg.fetchSize <= later.fetchSize
    requires PassesNothing(cfg, log, o, before) && PassesNothing(later, log + more, o, after)
    ensures var own := FetchAt(cfg, log, o, before).messages;
            Repeatable(log + more, o, own, Requested(cfg, o, before), Requested(later, o, after), later.fetchSize)
  {
    hide Served, NothingBetween;
    var own := FetchAt(cfg, log, o, before).messages;
    var req, again := Requested(cfg, o, before), Requested(later, o, after);
    if own != [] {
      ServedIff(log, req, own, cfg.fetchSize);
      FirstBetween(log, o, req);
      PS.RunClimbs(log, o, own);
      ClimbsToEnd(o, own);
      FirstStable(log, more, req);
      FirstStable(log, more, o);
      FirstBetween(log + more, o, again);
      FirstBetween(log + more, req, again);
    }
  }

  // Replays that go wrong, of a batch that emitted message 0 of three from range [0, 1).

  function Three(): Log {
    [Some(Message(0, 10, true)), Some(Message(1, 5, true)), Some(Message(2, 5, true))]
  }

  function Plain(fetchSize: nat): Config {
    Config("", false, fetchSize, true)
  }

  function Direct(): Answers {
    Answers(Answered, Answered, None)
  }

  function Reset(start: int): Answers {
    Answers(OutOfRange, Answered, Some(start))
  }

  lemma ThreeServed()
    ensures Served(Three(), 0, 10) == [Fetched(Three()[0].value, 1)] && Served(Three(), 0, 5) == []
    ensures Served(Three(), 1, 10) == [Fetched(Three()[1].value, 2), Fetched(Three()[2].value, 3)]
    ensures Served(Three(), 2, 10) == [Fetched(Three()[2].value, 3)]
  {
    assert First(Three(), 0) == Some(0) && First(Three(), 1) == Some(1) && First(Three(), 2) == Some(2);
    assert First(Three(), 3) == None;
    assert Served(Three(), 3, 0) == [] && Served(Three(), 3, 5) == [];
  }

  /** The batch's metadata. */
  function MetaOfFirst(): Meta {
    Meta(0, 1, Some(""), Some(""))
  }

  /** The batch, and three replays of it by emitters that do not insist on their instance: with the start offset
      moved to 2 another message is emitted in its place, with the start offset at 1 the replay overshoots, and
      with a smaller fetch size nothing is emitted. */
  lemma ReplaysThatFail(attempt: Attempt)
    requires attempt.fallback == Some(0) && attempt.answers == Direct()
    ensures FailFast(Plain(10), Three(), None, attempt) == Emitted(Batch(Some(MetaOfFirst()), [Three()[0].value]))
    ensures ReEmit(Plain(10), Three(), MetaOfFirst(), Reset(2)) == Ran(Complete([Three()[2].value]))
    ensures ReEmit(Plain(10), Three(), MetaOfFirst(), Reset(1)) == Ran(Overshot([Three()[1].value]))
    ensures ReEmit(Plain(5), Three(), MetaOfFirst(), Direct()) == Ran(Complete([]))
  {
    ThreeServed();
    assert Messages(Served(Three(), 0, 10)) == [Three()[0].value];
    var another, over := Served(Three(), 2, 10), Served(Three(), 1, 10);
    assert another[1..] == [];
    assert Replay(0, 1, another) == Resume([Three()[2].value], Replay(3, 1, []));
    assert Replay(2, 1, over[1..]) == Overshot([]);
    assert Replay(0, 1, over) == Resume([Three()[1].value], Overshot([]));
  }

  /** A second request that passes over nothing is served what the first should have been. */
  lemma FetchIsServed(cfg: Config, log: Log, o: int, answers: Answers)
    requires PassesNothing(cfg, log, o, answers)
    ensures FetchAt(cfg, log, o, answers).Fetch? ==>
              FetchAt(cfg, log, o, answers).messages == Served(log, o, cfg.fetchSize)
  {
    FirstBetween(log, o, Requested(cfg, o, answers));
  }

  /** The range recorded for a batch, from the offset asked for first, is the log that was fetched, exactly if
      nothing was fetched or no second request passed over a message. */
  lemma RangeIsFetchedIff(cfg: Config, log: Log, o: int, answers: Answers)
    requires FetchAt(cfg, log, o, answers).Fetch?
    ensures var msgs := FetchAt(cfg, log, o, answers).messages;
            Messages(msgs) == Segment(log, o, EndOf(o, msgs)) <==> msgs == [] || PassesNothing(cfg, log, o, answers)
  {
    hide Served;
    var msgs := FetchAt(cfg, log, o, answers).messages;
    var start := Requested(cfg, o, answers);
    RunIsSegment(log, start, msgs);
    if PassesNothing(cfg, log, o, answers) {
      FetchIsServed(cfg, log, o, answers);
      RunIsSegment(log, o, msgs);
    } else if msgs != [] {
      var end := EndOf(o, msgs);
      var x :| (o <= x < start || start <= x < o) && Present(log, x);
      if o < start {
        SegmentSplit(log, o, start, end);
        SegmentHas(log, o, start, x);
      } else if o <= end {
        SegmentSplit(log, start, o, end);
        SegmentHas(log, start, o, x);
      }
    }
  }

  /** A reset downwards: two messages below the offset asked for are emitted, and the range ends below it. */
  lemma ResetBelowMisrecords(a: Message, b: Message, cfg: Config)
    requires cfg.useStartOffset && a.size + b.size <= cfg.fetchSize
    ensures var msgs := FetchAt(cfg, [Some(a), Some(b)], 5, Reset(0)).messages;
            Messages(msgs) == [a, b] && EndOf(5, msgs) == 2 && Segment([Some(a), Some(b)], 5, 2) == []
  {
    var log := [Some(a), Some(b)];
    assert First(log, 0) == Some(0) && First(log, 1) == Some(1) && First(log, 2) == None;
    assert Served(log, 2, cfg.fetchSize - a.size - b.size) == [];
    assert Served(log, 1, cfg.fetchSize - a.size) == [Fetched(b, 2)];
    assert Served(log, 0, cfg.fetchSize) == [Fetched(a, 1), Fetched(b, 2)];
  }

  // ----- Batches tile the log -----

  /** A batch attempted: the log grew by `more` before. */
  datatype Round = Round(more: Log, attempt: Attempt)

  /** `fetched` is what the batches fetched, before decoding, and `emitted` what they emitted. */
  datatype History =
    History(log: Log, last: Option<Meta>, metas: seq<Meta>, fetched: seq<Message>, emitted: seq<Message>)

  /** What a round fetches; nothing if the fetch fails. */
  function RoundFetches(cfg: Config, h: History, round: Round): seq<Fetched> {
    match FetchNew(cfg, h.log + round.more, h.last, round.attempt)
    case Fetch(msgs) => msgs
    case _ => []
  }

  /** An attempt that ends in an exception commits nothing. */
  function Advance(cfg: Config, h: History, round: Round): History {
    var log := h.log + round.more;
    match NewBatch(cfg, log, h.last, round.attempt)
    case Emitted(batch) =>
      History(log, batch.meta, h.metas + (if batch.meta.Some? then [batch.meta.value] else []),
              h.fetched + Messages(RoundFetches(cfg, h, round)), h.emitted + batch.emitted)
    case _ => h.(log := log)
  }

  /** The ranges join up, what was fetched is the log from the first offset to the last, and what was emitted
      is what decodes of it. */
  ghost predicate Tiled(cfg: Config, h: History) {
    && h.emitted == Decoded(h.fetched)
    && if h.metas == [] then h.last == None && h.fetched == []
       else
         && h.last == Some(h.metas[|h.metas| - 1]) && h.last.value.topologyId == Some(cfg.topologyInstanceId)
         && (forall i :: 0 < i < |h.metas| ==> h.metas[i].offset == h.metas[i - 1].nextOffset)
         && h.metas[0].offset <= h.last.value.nextOffset <= |h.log|
         && h.fetched == Segment(h.log, h.metas[0].offset, h.last.value.nextOffset)
  }

  /** A round that fetches messages does not pass over any by a second request; a first batch without messages
      starts at an offset the log has. */
  ghost predicate InRange(cfg: Config, h: History, round: Round) {
    var log := h.log + round.more;
    var o := NewOffset(cfg, h.last, round.attempt).GetOr(0);
    FetchNew(cfg, log, h.last, round.attempt).Fetch? ==>
      if RoundFetches(cfg, h, round) == [] then h.metas == [] ==> o <= |log|
      else PassesNothing(cfg, log, o, round.attempt.answers)
  }

  lemma SameFront<T>(front: seq<T>, a: seq<T>, b: seq<T>)
    ensures front + a == front + b <==> a == b
  {
    assert (front + a)[|front|..] == a && (front + b)[|front|..] == b;
  }

  /** A segment and what is fetched at its end join to one segment exactly if no message was passed over. */
  lemma JoinsIff(cfg: Config, log: Log, first: int, mid: int, answers: Answers)
    requires FetchAt(cfg, log, mid, answers).Fetch? && first <= mid
    ensures var msgs := FetchAt(cfg, log, mid, answers).messages;
            var end := EndOf(mid, msgs);
            first <= end <= |log| && Segment(log, first, mid) + Messages(msgs) == Segment(log, first, end) <==>
            if msgs == [] then mid <= |log| else PassesNothing(cfg, log, mid, answers)
  {
    hide Segment, Served, PassesNothing;
    var msgs := FetchAt(cfg, log, mid, answers).messages;
    var end := EndOf(mid, msgs);
    if msgs != [] {
      var req := Requested(cfg, mid, answers);
      RunIsSegment(log, req, msgs);
      RangeIsFetchedIff(cfg, log, mid, answers);
      if mid <= end {
        SegmentSplit(log, first, mid, end);
        SameFront(Segment(log, first, mid), Messages(msgs), Segment(log, mid, end));
      } else {
        PassedIfBelow(cfg, log, mid, answers);
        if first <= end {
          SegmentSplit(log, first, end, mid);
        }
      }
    }
  }

  lemma PassedIfBelow(cfg: Config, log: Log, o: int, answers: Answers)
    requires FetchAt(cfg, log, o, answers).Fetch? && EndOf(o, FetchAt(cfg, log, o, answers).messages) < o
    ensures !PassesNothing(cfg, log, o, answers)
  {
    if PassesNothing(cfg, log, o, answers) {
      FetchIsServed(cfg, log, o, answers);
      RunIsSegment(log, o, FetchAt(cfg, log, o, answers).messages);
      assert false;
    }
  }

  /** One more attempt, fetched, failed or ended by an exception, keeps the tiling if and only if it is in range. */
  lemma AdvanceTilesIff(cfg: Config, h: History, round: Round)
    requires Tiled(cfg, h)
    ensures Tiled(cfg, Advance(cfg, h, round)) <==> InRange(cfg, h, round)
    ensures !FetchNew(cfg, h.log + round.more, h.last, round.attempt).Fetch? ==>
              Advance(cfg, h, round).emitted == h.emitted
  {
    hide PassesNothing, FetchAt, Served, Decoded;
    var log := h.log + round.more;
    var msgs := RoundFetches(cfg, h, round);
    EmitsNothing();
    DecodedSplit(h.fetched, Messages(msgs));
    if h.metas != [] {
      SegmentStable(h.log, round.more, h.metas[0].offset, h.last.value.nextOffset);
    }
    if FetchNew(cfg, log, h.last, round.attempt).Fetch? {
      var o := NewOffset(cfg, h.last, round.attempt).value;
      JoinsIff(cfg, log, if h.metas == [] then o else h.metas[0].offset, o, round.attempt.answers);
    }
  }

  function AdvanceAll(cfg: Config, h: History, rounds: seq<Round>): History
    decreases |rounds|
  {
    if rounds == [] then h else AdvanceAll(cfg, Advance(cfg, h, rounds[0]), rounds[1..])
  }

  ghost predicate AllInRange(cfg: Config, h: History, rounds: seq<Round>)
    decreases |rounds|
  {
    rounds == [] || (InRange(cfg, h, rounds[0]) && AllInRange(cfg, Advance(cfg, h, rounds[0]), rounds[1..]))
  }

  /** For any interleaving of successful and failed fetches and exceptions while the log grows, from a fresh
      start of one topology instance: after every round the batches' ranges are adjacent and everything fetched,
      in order, is one contiguous segment of the log, if and only if every round is in range. */
  lemma {:induction false} BatchesTileIff(cfg: Config, h: History, rounds: seq<Round>)
    requires Tiled(cfg, h)
    ensures AllInRange(cfg, h, rounds) <==>
            forall n :: 0 <= n <= |rounds| ==> Tiled(cfg, AdvanceAll(cfg, h, rounds[..n]))
    decreases |rounds|
  {
    hide InRange, Tiled, Advance;
    if rounds == [] {
      assert rounds[..0] == [];
    } else {
      var t, rest := Advance(cfg, h, rounds[0]), rounds[1..];
      AdvanceTilesIff(cfg, h, rounds[0]);
      if Tiled(cfg, t) {
        BatchesTileIff(cfg, t, rest);
      } else {
        assert rounds[..1][1..] == [];
        assert AdvanceAll(cfg, h, rounds[..1]) == t;
      }
      forall n | 1 <= n <= |rounds|
        ensures AdvanceAll(cfg, h, rounds[..n]) == AdvanceAll(cfg, t, rest[..n - 1])
      {
        assert rounds[..n][1..] == rest[..n - 1];
      }
      assert AdvanceAll(cfg, h, rounds[..0]) == h;
      if forall n :: 0 <= n <= |rounds| ==> Tiled(cfg, AdvanceAll(cfg, h, rounds[..n])) {
        forall m | 0 <= m <= |rest|
          ensures Tiled(cfg, AdvanceAll(cfg, t, rest[..m]))
        {
          assert Tiled(cfg, AdvanceAll(cfg, h, rounds[..m + 1]));
        }
      }
    }
  }
}
