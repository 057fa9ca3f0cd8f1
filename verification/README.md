# Storm-Kafka spout, Knockout reconciliation and when.js scheduling: a verified model

This project models four stateful parts of the repository and proves what each of them is for.

**The Kafka spout.** A `PartitionManager` reads one partition: it fetches, queues, emits, hears acks and
failures, and now and then stores how far it is. `PartitionState` holds its steps as functions on its four
fields, `PartitionManagers` the class that changes the fields in place, each method proved equal to its step.
`AtLeastOnce` then puts any number of managers of one partition id over a growing log: they are opened, closed,
crash and replace each other, several may be alive at once, and acks and failures of old emissions arrive late
and in any order. The main theorem holds over every run of these steps; `Starts`, with `StoredZero`,
decides which starts are safe. Around it are the task's shared connections (`Connections`), the manager map (`Coordinator`), the round robin
(`Spout`) and the striding allocation of partitions to tasks (`Allocation`).

**The Trident emitter** (`TridentEmitter`): batches over the same log, their metadata, replay and failed fetches.

**Knockout's array reconciliation.** `EditMatrix` is the banded edit distance and its optimality, `Shortest`
says when that is the shortest of all, `EditScript` is the loops that fill the matrix, walk it back and pair moves,
`Reconcile` the interpreter of the script over mapped items. `Computed` is the dependency bookkeeping
of computed observables.

**when.js**: the promise scheduler with its self-extending queue (`Promises`), the counting race `some` (`Race`) and
the n-permit guard (`Guard`).

`dafny verify dfyconfig.toml` checks the whole project.

## How the model is set up

- A partition's log (`MessageLog`) is a sequence whose index is the offset; an index may hold no message
  (compaction, expiry). A fetch answers with the next messages at or after the offset asked for, without a hole
  (`IsRun`). The offset under which a manager tracks a message is the offset after the previous one, as in the
  code, so it may lie below the message's own offset.
- ZooKeeper is a map from partition id to topology id and offset. A stored node that is missing or cannot be read
  or parsed is read as `None`, as in the constructor; each start may read the node or fail to. Kafka's answers to fetches and offset requests are
  parameters of the operations; a refresh may happen at any time.
- A message counts as owed when the scheme makes tuples of it; the manager acks the others itself.
- `System.inflight` holds the emissions that were neither acked nor failed, per manager key. A crash or a closed
  manager may leave them to arrive at a later manager under the same key, or drop them.

## Where the code falls short of what it is for

- *At least once* does not cover a crash before the first commit when `forceFromStart` is off: nothing is stored, so
  the next manager starts at the latest offset (`KafkaUtils.java:42-48`) and what was emitted but not acked is never
  emitted again (`Starts.CrashBeforeFirstCommitLoses`). The exact condition on a start compares offsets that are known
  before it: it must be no higher than the stored offset or the very first start (`Starts.StartSafeIff`, which names
  the one exception). The branch that resumes from the stored offset always meets it
  (`Starts.AtLeastOnceWhenResuming`); a node that exists and cannot be read, and a topology change under
  `forceFromStart`, meet it when the offset Kafka answers does.
- The *committed offset* can go down: exactly when a failure names an offset below the completed one
  (`PartitionState.FailLowersIff`). `Starts.CommittedFalls` is a run of one manager in which it happens.
- *Re-emitting* a batch does not always emit it again. Another topology instance under `forceFromStart` emits nothing. A
  replay whose fetch is reset past a message (retention moved the start offset) emits other messages or overshoots, and
  one with a fetch size the batch no longer fits emits less (`TridentEmitter.ReplaysThatFail`). The exact condition is in
  `TridentEmitter.ReplayEqualsOriginal`; without such resets and with the same fetch size it always holds
  (`TridentEmitter.OrdinaryReplays`).
- A batch whose fetch is *reset* to the start offset records a range it did not fetch, exactly if something was fetched
  and a message lies between the two offsets (`TridentEmitter.RangeIsFetchedIff`, `TridentEmitter.ResetBelowMisrecords`);
  the batches then no longer tile the log (`TridentEmitter.BatchesTileIff`).
- The *edit script* is not always the shortest: for [1, 2, 3, 4] and [3, 4, 5, 6] it has eight edits where four would do
  (`Shortest.ShorterOutsideBand`). It is the shortest for all arrays of given lengths exactly if the smaller has at most
  one entry or both have two (`Shortest.LengthsIff`); for longer arrays it is when all equal entries lie where the band
  can keep them, or when it has few edits (`EditScript.CompareArrays`).
- The race *some* may stay pending for ever on an input with holes, since `len` counts the holes
  (`Race.HangsIffHole`).
- The guard `n` lets nobody in without permits (`Guard.GrantsIff`), and cannot tell who calls an exit: an exit by an
  entry that is not inside is harmless exactly while nobody is inside or waits (`Guard.ExitSafeIff`).

## Model

| member | source | states |
|---|---|---|
| AtLeastOnce.AtLeastOnce | storm-kafkaplus/src/jvm/storm/kafka/PartitionManager.java:75-215 | over every run: below the stored offset every owed message was emitted and acked; below the offset a live manager has emitted to, it was acked or is pending there |
| AtLeastOnce.NoStuckCommit | storm-kafkaplus/src/jvm/storm/kafka/PartitionManager.java:105-215 | in every reachable state, once a manager has an empty queue and no emission out, nothing is pending and its next commit is exactly the offset it has emitted to |
| AtLeastOnce.PendingIsAlive | storm-kafkaplus/src/jvm/storm/kafka/PartitionManager.java:105-174 | in every reachable state each pending offset is queued or has an unresolved emission out, whatever stale queue entries and late acks there are |
| Starts.AtLeastOnceWhenResuming | storm-kafkaplus/src/jvm/storm/kafka/PartitionManager.java:65-215 | over every run of possible steps in which managers resume from what is stored, and start no higher than the first one while nothing is, with no assumption on the offsets they start at: below the stored offset every owed message was acked |
| Starts.ResumesWhereCommitted | storm-kafkaplus/src/jvm/storm/kafka/PartitionManager.java:75-91 | once a commit writes, a later manager of the same topology begins at exactly the completed offset that was written, with nothing pending, whatever was lost in between |
| Starts.OpensAtStored | storm-kafkaplus/src/jvm/storm/kafka/PartitionManager.java:81-83 | a manager that reads the stored node, for the same topology or without `forceFromStart`, begins exactly at the stored offset |
| PartitionState.StartsWhere | storm-kafkaplus/src/jvm/storm/kafka/PartitionManager.java:75-91 | which offset a manager starts at: the stored one, Kafka's answer for the configured time after another topology under `forceFromStart`, or the answer for the configuration |
| Starts.StartSafeIff | storm-kafkaplus/src/jvm/storm/kafka/PartitionManager.java:65-87 | a start is safe (from every reachable state with that stored node, read or unreadable, and however the system goes on, everything owed below the stored offset is acked) if and only if its offset is no higher than the stored offset or the very first start, or it is 1, 0 is stored and reading began at 0 |
| Starts.StartKeepsIff | storm-kafkaplus/src/jvm/storm/kafka/PartitionManager.java:65-87 | the first of these comparisons decides, for every stored node and whether or not it can be read, if opening a manager keeps the invariant in all states that satisfy it |
| Starts.ExposedLoses | storm-kafkaplus/src/jvm/storm/kafka/PartitionManager.java:75-87 | a start above an unacked message can be continued until an offset above that message is stored |
| Starts.ReachExposed | storm-kafkaplus/src/jvm/storm/kafka/PartitionManager.java:75-87 | whatever node is stored, also at or below offset 0, some run of safe steps ends with it stored and an unacked message just below any higher start, but for the one exception of `Starts.StartSafeIff` |
| StoredZero.StoredZeroMeansAcked | storm-kafkaplus/src/jvm/storm/kafka/PartitionManager.java:105-215 | over every run that began at offset 0: once 0 itself is stored, the first message is acked or owed to nobody |
| Starts.CrashBeforeFirstCommitLoses | storm-kafkaplus/src/jvm/storm/kafka/KafkaUtils.java:42-48 | from an empty log, with every manager asking for the latest offset as the code does: a message is emitted, the worker crashes before the first commit, and the message ends up below the stored offset without an ack |
| Starts.CommittedFalls | storm-kafkaplus/src/jvm/storm/kafka/PartitionManager.java:167-194 | a run in which one manager stores 2 and, after the late failure of an older emission, stores 1 |
| AtLeastOnce.RunKeeps | storm-kafkaplus/src/jvm/storm/kafka/PartitionManager.java:105-223 | the invariant holds after any run of enabled steps |
| AtLeastOnce.StepKeeps | storm-kafkaplus/src/jvm/storm/kafka/PartitionManager.java:105-223 | each of append, open, close, next, ack, fail and commit keeps the invariant of the whole system |
| AtLeastOnce.FillKeeps | storm-kafkaplus/src/jvm/storm/kafka/PartitionManager.java:131-153 | a fill of the next messages of the log keeps coverage, and every pending offset stays queued or in flight, although old queue entries may name the same offsets |
| AtLeastOnce.PollKeeps | storm-kafkaplus/src/jvm/storm/kafka/PartitionManager.java:105-129 | taking from the queue until a message decodes keeps coverage: what is taken is out or acked |
| AtLeastOnce.AckCovers | storm-kafkaplus/src/jvm/storm/kafka/PartitionManager.java:163-165 | an ack removes from pending only what the ack itself accounts for, whichever message the offset names |
| AtLeastOnce.FailCovers | storm-kafkaplus/src/jvm/storm/kafka/PartitionManager.java:167-174 | rewinding to a failed offset keeps everything below it acked or pending |
| AtLeastOnce.CommitCovers | storm-kafkaplus/src/jvm/storm/kafka/PartitionManager.java:176-215 | everything owed below the completed offset has been acked |
| AtLeastOnce.OpenKeeps | storm-kafkaplus/src/jvm/storm/kafka/PartitionManager.java:75-91 | a manager opened at a safe start keeps the invariant, with other managers of the id alive |
| AtLeastOnce.CloseKeeps | storm-kafkaplus/src/jvm/storm/kafka/PartitionManager.java:221-223 | closing or losing a manager keeps the invariant, whether or not its emissions may still be answered |
| MessageLog.ResetIsSameRunIff | storm-kafkaplus/src/jvm/storm/kafka/KafkaUtils.java:158-163 | a fetch retried from another offset, higher or lower, can answer exactly what the first could, if and only if no message lies between the two |
| MessageLog.RunIsSegment | storm-kafkaplus/src/jvm/storm/kafka/PartitionManager.java:148-152 | a fetched run is exactly the segment of the log from the offset asked for to the offset after its end |
| PartitionState.FillKeepsCompleted | storm-kafkaplus/src/jvm/storm/kafka/PartitionManager.java:148-152 | a fill leaves the completed offset and the committed one unchanged, for any fetch whose offsets climb |
| PartitionState.AckNeverLowers | storm-kafkaplus/src/jvm/storm/kafka/PartitionManager.java:163-165 | an ack never lowers the completed offset, and changes it only if it names it |
| PartitionState.FailTakesMinimum | storm-kafkaplus/src/jvm/storm/kafka/PartitionManager.java:167-174 | after a failure the completed offset is the smaller of the old one and the failed offset |
| PartitionState.FillIs | storm-kafkaplus/src/jvm/storm/kafka/PartitionManager.java:148-152 | a fill appends the messages fetched in order, each under the offset after the one before, makes exactly these offsets pending, and ends after the last |
| PartitionState.PollIs | storm-kafkaplus/src/jvm/storm/kafka/PartitionManager.java:109-123 | what is emitted is the first queued message that decodes; exactly those before it are acked, and those after it stay in order |
| PartitionState.NextIs | storm-kafkaplus/src/jvm/storm/kafka/PartitionManager.java:105-109 | a fetch counts only when nothing is queued |
| PartitionState.FailIs | storm-kafkaplus/src/jvm/storm/kafka/PartitionManager.java:167-174 | a failure below the emitted offset goes back to exactly it and keeps pending exactly what lies below; any other changes nothing |
| PartitionState.PollNeverLowers | storm-kafkaplus/src/jvm/storm/kafka/PartitionManager.java:109-123 | emitting never lowers the completed offset and moves neither the committed nor the emitted one |
| PartitionState.CommittedMonotone | storm-kafkaplus/src/jvm/storm/kafka/PartitionManager.java:163-215 | over any run of calls the completed and the committed offsets only grow unless a failure names an offset below the completed one |
| PartitionState.FailLowersIff | storm-kafkaplus/src/jvm/storm/kafka/PartitionManager.java:167-194 | a failure lowers the completed offset, and the one the next commit writes, if and only if it names an offset below the completed one |
| PartitionState.FailuresCollapse | storm-kafkaplus/src/jvm/storm/kafka/PartitionManager.java:167-174 | any failures in any order have the effect of the single failure of their minimum |
| PartitionState.RunClimbs | storm-kafkaplus/src/jvm/storm/kafka/PartitionManager.java:148-152 | the next-offsets of a fetched run climb above the offset asked for |
| PartitionManagers.PartitionManager.constructor | storm-kafkaplus/src/jvm/storm/kafka/PartitionManager.java:52-93 | registers with the shared connections and starts, with nothing pending, at the stored offset (same topology or no `forceFromStart`), at the forced answer after another topology, or at the fallback when nothing can be read |
| PartitionManagers.PartitionManager.FillFrom | storm-kafkaplus/src/jvm/storm/kafka/PartitionManager.java:148-152 | the loop over the fetched messages is the step `Fill` |
| PartitionManagers.PartitionManager.NextTuple | storm-kafkaplus/src/jvm/storm/kafka/PartitionManager.java:105-129 | the loop is the step `Next`; the answer says whether something was emitted and whether more is queued; a fetch that throws leaves the manager unchanged |
| PartitionManagers.PartitionManager.AckOffset | storm-kafkaplus/src/jvm/storm/kafka/PartitionManager.java:163-165 | removes exactly that offset from pending |
| PartitionManagers.PartitionManager.FailOffset | storm-kafkaplus/src/jvm/storm/kafka/PartitionManager.java:167-174 | rewinds and drops the pending tail exactly when the offset is below the emitted one |
| PartitionManagers.PartitionManager.LastCompletedOffset | storm-kafkaplus/src/jvm/storm/kafka/PartitionManager.java:209-215 | answers the smallest pending offset, or the emitted one when nothing is pending |
| PartitionManagers.PartitionManager.CommitOffset | storm-kafkaplus/src/jvm/storm/kafka/PartitionManager.java:176-194 | stores the completed offset under the partition id exactly when it differs from the committed one, and changes no other stored node |
| PartitionManagers.PartitionManager.Close | storm-kafkaplus/src/jvm/storm/kafka/PartitionManager.java:221-223 | gives up this partition's share of the broker's connection, closing the consumer if and only if it was the last |
| Connections.DynamicPartitionConnections.Register | storm-kafkaplus/src/jvm/storm/kafka/DynamicPartitionConnections.java:41-48 | adds the partition to its broker's entry, with the entry's consumer or a new open one, and touches no other entry |
| Connections.DynamicPartitionConnections.GetConnection | storm-kafkaplus/src/jvm/storm/kafka/DynamicPartitionConnections.java:50-56 | answers the registered consumer of the broker, and nothing without an entry |
| Connections.DynamicPartitionConnections.Unregister | storm-kafkaplus/src/jvm/storm/kafka/DynamicPartitionConnections.java:58-65 | removes the partition; the last one closes the consumer and drops the entry, any other leaves the consumer open |
| Connections.DynamicPartitionConnections.Clear | storm-kafkaplus/src/jvm/storm/kafka/DynamicPartitionConnections.java:71-76 | closes every consumer and leaves no entry |
| Coordinator.ZkCoordinator.constructor | storm-kafkaplus/src/jvm/storm/kafka/ZkCoordinator.java:31-42 | a coordinator without managers agrees with connections that are empty |
| Coordinator.ZkCoordinator.Refresh | storm-kafkaplus/src/jvm/storm/kafka/ZkCoordinator.java:58-89 | afterwards the managers are exactly this task's share of the table, one per partition id; they agree with the connections, which hold open consumers only, every consumer no longer needed being closed; surviving managers keep their state and new ones start as the constructor says. When a constructor throws, only unwanted managers are gone and that partition is the one registration without a manager; a bad task index changes nothing |
| Coordinator.ZkCoordinator.Replace | storm-kafkaplus/src/jvm/storm/kafka/ZkCoordinator.java:67-83 | the two loops turn any manager map into one keyed exactly by the partitions wanted, keeping those that stay, or stop at the constructor that throws |
| Coordinator.ZkCoordinator.Drop | storm-kafkaplus/src/jvm/storm/kafka/ZkCoordinator.java:73-76 | closing one manager leaves every other one with its registration and an open consumer, also on the same broker, and closes the consumer of a broker that loses its last partition |
| Coordinator.ZkCoordinator.Open | storm-kafkaplus/src/jvm/storm/kafka/ZkCoordinator.java:81-84 | opening one manager keeps managers and connections in agreement and changes no other manager |
| Coordinator.ZkCoordinator.FailToOpen | storm-kafkaplus/src/jvm/storm/kafka/ZkCoordinator.java:81-84 | a constructor that throws leaves its partition registered without a manager, and disturbs no other |
| Spout.KafkaSpout.NextTuple | storm-kafkaplus/src/jvm/storm/kafka/KafkaSpout.java:118-131 | the loop over managers and index leaves exactly what the round `Ask` describes, for any index left over from a longer list, also when a fetch throws |
| Spout.RoundIs | storm-kafkaplus/src/jvm/storm/kafka/KafkaSpout.java:118-131 | managers are asked in ring order, each at most once, up to the first that emits or whose fetch throws; without a throw a tuple is emitted if and only if some manager can; the others are untouched, and the index stays on an emitter with more queued and on one that throws, and else moves past it |
| Spout.AtIsRemainder | storm-kafkaplus/src/jvm/storm/kafka/KafkaSpout.java:123-126 | the ring is walked forward, as the remainder of the index counts |
| Spout.TurnShrinks | storm-kafkaplus/src/jvm/storm/kafka/PartitionManager.java:105-129 | each emission leaves fewer messages queued than were queued or fetched when it began, and a manager with nothing to emit ends with an empty queue |
| Spout.CallAdvances | storm-kafkaplus/src/jvm/storm/kafka/KafkaSpout.java:118-131 | a call that does not ask a given manager brings the index strictly nearer to it |
| Spout.NoStarvation | storm-kafkaplus/src/jvm/storm/kafka/KafkaSpout.java:118-131 | along any sequence of calls, with acks, failures and commits between them, every one of n managers is asked within n * w calls, w bounding queues and fetches |
| Spout.KafkaSpout.AckTuple | storm-kafkaplus/src/jvm/storm/kafka/KafkaSpout.java:143-149 | an ack reaches the manager of its partition, if there is one, and no other |
| Spout.KafkaSpout.FailTuple | storm-kafkaplus/src/jvm/storm/kafka/KafkaSpout.java:152-158 | a failure reaches the manager of its partition, if there is one, and no other |
| Spout.KafkaSpout.CommitAll | storm-kafkaplus/src/jvm/storm/kafka/KafkaSpout.java:170-175 | every manager is committed, and each partition id ends with what its own manager wrote |
| Allocation.GlobalPartitionInformation.AddPartition | storm-kafkaplus/src/jvm/storm/kafka/trident/GlobalPartitionInformation.java:23-25 | a partition id has one broker, the last one added |
| Allocation.GlobalPartitionInformation.GetOrderedPartitions | storm-kafkaplus/src/jvm/storm/kafka/trident/GlobalPartitionInformation.java:38-44 | lists every entry of the table once, by ascending id |
| Allocation.CalculatePartitionsForTask | storm-kafkaplus/src/jvm/storm/kafka/KafkaUtils.java:190-204 | rejects exactly a task index out of range, and else answers every totalTasks-th partition of the ordered list from the index on |
| Allocation.ShareAt | storm-kafkaplus/src/jvm/storm/kafka/KafkaUtils.java:198-201 | position q of a task's list is position i + q * step of the ordered one: order is kept |
| Allocation.PartitionOfTheList | storm-kafkaplus/src/jvm/storm/kafka/KafkaUtils.java:198-201 | the lists of all tasks together hold every partition exactly as often as the ordered list does |
| Allocation.OwnerIff | storm-kafkaplus/src/jvm/storm/kafka/KafkaUtils.java:198-201 | a partition is in a task's list if and only if its place modulo the number of tasks is the task: the lists are disjoint |
| Allocation.Balanced | storm-kafkaplus/src/jvm/storm/kafka/KafkaUtils.java:198-201 | the lists of any two tasks differ in length by at most one |
| Allocation.ShareOfTable | storm-kafkaplus/src/jvm/storm/kafka/KafkaUtils.java:190-204 | a task's list has distinct, ascending ids, each with the broker of the table |
| TridentEmitter.FetchMessages | storm-kafkaplus/src/jvm/storm/kafka/KafkaUtils.java:138-174 | a second request is sent, from the start offset, exactly after an out-of-range first answer with the reset configured; a broken last fetch or a start offset that throws is fatal, a refused connection, an error code or an offset still out of range is a failed fetch, and otherwise the messages at the offset last asked for are answered |
| TridentEmitter.RangeIsFetchedIff | storm-kafkaplus/src/jvm/storm/kafka/trident/TridentKafkaEmitter.java:100-109 | the range recorded for a batch is the log that was fetched, if and only if nothing was fetched or no second request passed over a message, upwards or downwards |
| TridentEmitter.ResetBelowMisrecords | storm-kafkaplus/src/jvm/storm/kafka/trident/TridentKafkaEmitter.java:100-109 | a fetch at 5 reset to 0 on a log of two messages emits both and records a range from 5 to 2 |
| TridentEmitter.ServedIff | storm-kafkaplus/src/jvm/storm/kafka/trident/TridentKafkaEmitter.java:100-105 | what a request is served begins with a batch if and only if the batch is the next messages of the log and fits the fetch size |
| TridentEmitter.TridentKafkaEmitter.EmitNewPartitionBatch | storm-kafkaplus/src/jvm/storm/kafka/trident/TridentKafkaEmitter.java:65-83 | the batch of the fail-fast path, or the empty batch after the last one when its fetch failed, or null when there was none; other exceptions pass |
| TridentEmitter.TridentKafkaEmitter.FailFastEmitNewPartitionBatch | storm-kafkaplus/src/jvm/storm/kafka/trident/TridentKafkaEmitter.java:85-116 | the loop yields the decoded messages fetched from the next offset on, and metadata for their range; an exception of the fetch passes |
| TridentEmitter.EmissionIs | storm-kafkaplus/src/jvm/storm/kafka/trident/TridentKafkaEmitter.java:65-116 | by the answers alone, where an attempt asks from (also after another topology instance, with or without `forceFromStart`), when it ends with an exception, when with the empty adjacent batch or null, and otherwise its range, ids and messages |
| TridentEmitter.ReEmissionIs | storm-kafkaplus/src/jvm/storm/kafka/trident/TridentKafkaEmitter.java:136-155 | by the metadata and the answers alone, when re-emitting skips, dereferences a null, passes on a failed fetch, or replays what was fetched |
| TridentEmitter.DecodedOne | storm-kafkaplus/src/jvm/storm/kafka/trident/TridentKafkaEmitter.java:157-164 | a message is emitted, in its place, if and only if it decodes |
| TridentEmitter.TakenIs | storm-kafkaplus/src/jvm/storm/kafka/trident/TridentKafkaEmitter.java:143-152 | a replay takes messages up to the first place at or beyond the end of the range, and overshoots if and only if that place is beyond it and a message is left |
| TridentEmitter.TridentKafkaEmitter.ReEmitPartitionBatch | storm-kafkaplus/src/jvm/storm/kafka/trident/TridentKafkaEmitter.java:136-155 | the loop ends as `ReEmit` says: left alone, null instance, fetch failed, replayed to the end of the range, or overshot |
| TridentEmitter.RepeatsIff | storm-kafkaplus/src/jvm/storm/kafka/trident/TridentKafkaEmitter.java:143-152 | the replay loop takes up exactly a batch and stops after it if and only if it starts below the end and the batch comes first in what is fetched |
| TridentEmitter.ReplayEqualsOriginal | storm-kafkaplus/src/jvm/storm/kafka/trident/TridentKafkaEmitter.java:85-155 | re-emitting any batch of the fail-fast path, on any later log and with any answers: it is skipped exactly by another instance under `forceFromStart`; replayed, it takes up exactly the batch's messages without overshooting if and only if the batch is empty, or its range is not, no message lies between the last offsets the two fetches asked for, and the batch fits the fetch size; then it emits exactly what the batch emitted |
| TridentEmitter.OrdinaryReplays | storm-kafkaplus/src/jvm/storm/kafka/trident/TridentKafkaEmitter.java:85-155 | the condition holds for every batch when no reset passes over a message and the fetch size has not shrunk |
| TridentEmitter.ReplaysThatFail | storm-kafkaplus/src/jvm/storm/kafka/trident/TridentKafkaEmitter.java:136-155 | one batch and three replays of it: another message in its place, an overshoot, and nothing at all |
| TridentEmitter.AdvanceTilesIff | storm-kafkaplus/src/jvm/storm/kafka/trident/TridentKafkaEmitter.java:65-116 | one more attempt, fetched, failed or ended by an exception, keeps the ranges adjacent and what was fetched one segment, if and only if a fetch with messages passed over none and a first fetch without messages asked within the log; only a successful fetch emits |
| TridentEmitter.BatchesTileIff | storm-kafkaplus/src/jvm/storm/kafka/trident/TridentKafkaEmitter.java:65-116 | for any interleaving of fetches, failures and exceptions on a growing log, from a fresh start of one instance: after every attempt ranges are adjacent and everything fetched is one contiguous segment, if and only if every attempt is in range |
| EditMatrix.NeighboursDiffer | storm-demo-webapp/src/main/webapp/assets/lib/knockout/knockout-2.3.0.debug.js:3305-3323 | neighbouring cells of the band differ by exactly one |
| EditMatrix.CellBounds | storm-demo-webapp/src/main/webapp/assets/lib/knockout/knockout-2.3.0.debug.js:3305-3323 | no cell is zero or as large as the distance that stands in for an undefined neighbour |
| EditMatrix.NoPathIsShorter | storm-demo-webapp/src/main/webapp/assets/lib/knockout/knockout-2.3.0.debug.js:3305-3323 | no path in the band has fewer edits than its end cell minus one, so copying the diagonal loses nothing |
| EditMatrix.StepBackKeeps | storm-demo-webapp/src/main/webapp/assets/lib/knockout/knockout-2.3.0.debug.js:3326-3343 | when neither edit explains a cell, the two entries are equal and the cell is the diagonal one; the walk never leaves the band |
| EditMatrix.WalkBackIsOptimal | storm-demo-webapp/src/main/webapp/assets/lib/knockout/knockout-2.3.0.debug.js:3325-3344 | the walk back is a path in the band with exactly as many edits as the cell minus one |
| EditMatrix.WalkBackIsPreferred | storm-demo-webapp/src/main/webapp/assets/lib/knockout/knockout-2.3.0.debug.js:3326-3343 | the walk back takes an entry of the longer array alone wherever that explains the cell, else one of the shorter, and keeps only where neither does |
| EditMatrix.BandOptimality | storm-demo-webapp/src/main/webapp/assets/lib/knockout/knockout-2.3.0.debug.js:3305-3344 | a filled cell minus one is the least number of edits over all paths in the band |
| Shortest.LengthsIff | storm-demo-webapp/src/main/webapp/assets/lib/knockout/knockout-2.3.0.debug.js:3294-3344 | by lengths alone: the script is the shortest of all for all arrays of two given lengths if and only if the smaller has at most one entry or both have two |
| Shortest.KeepableIsShortest | storm-demo-webapp/src/main/webapp/assets/lib/knockout/knockout-2.3.0.debug.js:3294-3344 | when all equal entries lie where the band can keep them, the script is the shortest over all paths of the whole matrix |
| Shortest.FewEditsAreShortest | storm-demo-webapp/src/main/webapp/assets/lib/knockout/knockout-2.3.0.debug.js:3294-3344 | a script with no more edits than a path needs to leave the band and return is the shortest of all |
| Shortest.NoneKeepableIff | storm-demo-webapp/src/main/webapp/assets/lib/knockout/knockout-2.3.0.debug.js:3294-3344 | without equal entries in the band everything is deleted and added, which is the shortest if and only if there are no equal entries at all |
| Shortest.ShorterOutsideBand | storm-demo-webapp/src/main/webapp/assets/lib/knockout/knockout-2.3.0.debug.js:3294-3344 | [1, 2, 3, 4] against [3, 4, 5, 6] takes eight edits where four would do |
| Shortest.FreePathBound | storm-demo-webapp/src/main/webapp/assets/lib/knockout/knockout-2.3.0.debug.js:3294-3344 | when all equal entries can be kept in the band, no path anywhere in the matrix has fewer edits than the nearest band cell says |
| Shortest.LeavingCosts | storm-demo-webapp/src/main/webapp/assets/lib/knockout/knockout-2.3.0.debug.js:3294-3344 | a path that has been outside the band needs at least the difference in length plus two edits, or four for equal lengths |
| EditScript.FillRow | storm-demo-webapp/src/main/webapp/assets/lib/knockout/knockout-2.3.0.debug.js:3309-3322 | the inner loop defines exactly the columns of the band, each with its cell |
| EditScript.FillMatrix | storm-demo-webapp/src/main/webapp/assets/lib/knockout/knockout-2.3.0.debug.js:3305-3323 | every row holds exactly the cells of the band; all other columns stay undefined |
| EditScript.ChooseStep | storm-demo-webapp/src/main/webapp/assets/lib/knockout/knockout-2.3.0.debug.js:3326-3343 | the tests against possibly undefined neighbours choose the step back of the full recurrence |
| EditScript.WalkMatrix | storm-demo-webapp/src/main/webapp/assets/lib/knockout/knockout-2.3.0.debug.js:3325-3344 | the walk terminates, and what it pushed accounts for both arrays, with exactly the edits the corner cell promises, and both kinds of edits listed apart |
| EditScript.TryMatch | storm-demo-webapp/src/main/webapp/assets/lib/knockout/knockout-2.3.0.debug.js:3352-3362 | an entry is matched with the first unmatched one of the same value, if any, and removed from the list; the matching stays symmetric, one to one, and from the end of the arrays on |
| EditScript.MarkMoved | storm-demo-webapp/src/main/webapp/assets/lib/knockout/knockout-2.3.0.debug.js:3354-3356 | setting both moved fields extends a one-to-one, value-preserving matching |
| EditScript.PairMoves | storm-demo-webapp/src/main/webapp/assets/lib/knockout/knockout-2.3.0.debug.js:3346-3364 | the moved fields are exactly those of a search that matches from the end of the arrays on, in turn, until all entries were tried or the consecutive failed comparisons reach ten times the shorter length, and no earlier or later |
| EditScript.SearchExhausts | storm-demo-webapp/src/main/webapp/assets/lib/knockout/knockout-2.3.0.debug.js:3346-3364 | a search without a limit, or with no more pairs than ten times the shorter length, leaves no deletion and addition of equal value unpaired |
| EditScript.MatchesOn | storm-demo-webapp/src/main/webapp/assets/lib/knockout/knockout-2.3.0.debug.js:3355-3363 | each unmatched entry adds as many failed comparisons as entries are left, and a match starts the count again |
| EditScript.FailuresBounded | storm-demo-webapp/src/main/webapp/assets/lib/knockout/knockout-2.3.0.debug.js:3352-3363 | the failed comparisons are at most the entries tried times those listed |
| EditScript.ScriptSpells | storm-demo-webapp/src/main/webapp/assets/lib/knockout/knockout-2.3.0.debug.js:3325-3344 | what is not added spells the old array, what is not deleted spells the new one |
| EditScript.AccountsSwapped | storm-demo-webapp/src/main/webapp/assets/lib/knockout/knockout-2.3.0.debug.js:3288-3291 | a script made with the arrays and the statuses swapped turns the old array into the new one all the same |
| EditScript.CompareSmallArrayToBigArray | storm-demo-webapp/src/main/webapp/assets/lib/knockout/knockout-2.3.0.debug.js:3294-3366 | the returned script accounts for both arrays in order, by the preferred steps of the walk back, has exactly the corner cell minus one edits, and carries exactly the moves the search finds |
| EditScript.CompareArrays | storm-demo-webapp/src/main/webapp/assets/lib/knockout/knockout-2.3.0.debug.js:3284-3292 | in either length order the script turns the old array into the new one by preferred steps, index fields naming the positions, in as few edits as the band allows, and as any path allows when equal entries lie in the band or the edits are few; moves pair equal values one to one as the search finds them, exhaustively whenever additions times deletions are at most ten times the shorter length |
| Reconcile.PlanCovers | storm-demo-webapp/src/main/webapp/assets/lib/knockout/knockout-2.3.0.debug.js:3487-3524 | a script says of every new position that it is added or kept and of every old one that it is deleted or kept, never both |
| Reconcile.PlanMirrors | storm-demo-webapp/src/main/webapp/assets/lib/knockout/knockout-2.3.0.debug.js:3487-3524 | the position the interpreter counts to is the index field of the entry |
| Reconcile.PairingLinks | storm-demo-webapp/src/main/webapp/assets/lib/knockout/knockout-2.3.0.debug.js:3346-3364 | the pairing links each moved new position with one deleted old position of equal value, both ways |
| Reconcile.OriginsPartition | storm-demo-webapp/src/main/webapp/assets/lib/knockout/knockout-2.3.0.debug.js:3487-3524 | no old position is the origin of two new ones, and exactly those deleted without a move are the origin of none |
| Reconcile.Reuse | storm-demo-webapp/src/main/webapp/assets/lib/knockout/knockout-2.3.0.debug.js:3464-3473 | reusing an old item puts it at the next place with that index, disturbing no item placed before |
| Reconcile.InterpretEntry | storm-demo-webapp/src/main/webapp/assets/lib/knockout/knockout-2.3.0.debug.js:3487-3524 | each case of the loop body keeps the built items, the deletion queue and the old position in step with the script |
| Reconcile.RetainedPlace | storm-demo-webapp/src/main/webapp/assets/lib/knockout/knockout-2.3.0.debug.js:3508-3510 | a retained entry stands at the old place counted by the entries before it that are not added, and at the new place counted by those that are not deleted |
| Reconcile.ScriptApplied | storm-demo-webapp/src/main/webapp/assets/lib/knockout/knockout-2.3.0.debug.js:3487-3524 | every entry did what it says: new item or moved one at its index, deleted item queued, retained item from its old to its new place |
| Reconcile.NotRemade | storm-demo-webapp/src/main/webapp/assets/lib/knockout/knockout-2.3.0.debug.js:3487-3524 | with a complete search for moves, no item queued for deletion shows the entry of a new one |
| Reconcile.UnchangedStays | storm-demo-webapp/src/main/webapp/assets/lib/knockout/knockout-2.3.0.debug.js:3487-3524 | an unchanged array keeps every item in place |
| Reconcile.Interpret | storm-demo-webapp/src/main/webapp/assets/lib/knockout/knockout-2.3.0.debug.js:3487-3524 | the loop builds exactly the items the script describes and conserves the old ones |
| Reconcile.ItemGoesOneWay | storm-demo-webapp/src/main/webapp/assets/lib/knockout/knockout-2.3.0.debug.js:3487-3524 | an old item is in the result if and only if it is not queued for deletion |
| Reconcile.SetDomNodeChildrenFromArrayMapping | storm-demo-webapp/src/main/webapp/assets/lib/knockout/knockout-2.3.0.debug.js:3443-3524 | item k of the result shows entry k of the array with index k; every old item is reused exactly once or queued for deletion exactly once, in order; reused items come from the places the comparison's script retains or moves them from; deleted and new items are at most the fewest edits in the band; an unchanged array keeps every item in place; and with a complete search nothing is remade |
| Computed.KeptAre | storm-demo-webapp/src/main/webapp/assets/lib/knockout/knockout-2.3.0.debug.js:1271-1276 | exactly the old subscriptions whose target was read are kept |
| Computed.KeptInOrder | storm-demo-webapp/src/main/webapp/assets/lib/knockout/knockout-2.3.0.debug.js:1271-1276 | kept subscriptions stay in their order |
| Computed.FirstReadsInOrder | storm-demo-webapp/src/main/webapp/assets/lib/knockout/knockout-2.3.0.debug.js:991-1001 | what is read first is subscribed first |
| Computed.FirstReadsAre | storm-demo-webapp/src/main/webapp/assets/lib/knockout/knockout-2.3.0.debug.js:991-1001 | the new subscriptions are the targets read that had none, each once |
| Computed.ExactlyTheReads | storm-demo-webapp/src/main/webapp/assets/lib/knockout/knockout-2.3.0.debug.js:1239-1292 | kept and new subscriptions together target exactly what was read, each once |
| Computed.DependentObservable.Run | storm-demo-webapp/src/main/webapp/assets/lib/knockout/knockout-2.3.0.debug.js:1260-1268 | reading crosses off exactly the old targets read and appends a live subscription for each other target, in the order first read |
| Computed.DependentObservable.DropUnused | storm-demo-webapp/src/main/webapp/assets/lib/knockout/knockout-2.3.0.debug.js:1272-1275 | splicing by old indices from the end removes and disposes exactly the unread subscriptions, although new ones were appended |
| Computed.DependentObservable.BreakOff | storm-demo-webapp/src/main/webapp/assets/lib/knockout/knockout-2.3.0.debug.js:1239-1292 | a read function that throws leaves the old subscriptions and those for what it had newly read, distinct and live, so that the next evaluation is exact again |
| Computed.DependentObservable.EvaluateImmediate | storm-demo-webapp/src/main/webapp/assets/lib/knockout/knockout-2.3.0.debug.js:1239-1292 | after an evaluation the subscriptions target exactly the distinct subscribables read; unread ones are disposed and no other; a throwing one only adds, a nested call changes nothing and a disposing one disposes every subscription and leaves none |
| Computed.DependentObservable.Dispose | storm-demo-webapp/src/main/webapp/assets/lib/knockout/knockout-2.3.0.debug.js:1223-1228 | disposes every subscription and leaves none |
| Promises.StepKeeps | storm-demo-webapp/src/main/webapp/assets/lib/when/when.js:250-318 | create, then, resolve and each step of a drain keep the invariant on order, values and drains |
| Promises.RunKeeps | storm-demo-webapp/src/main/webapp/assets/lib/when/when.js:250-318 | the invariant holds after any run, and a value once given stays |
| Promises.SettlesOnce | storm-demo-webapp/src/main/webapp/assets/lib/when/when.js:305-318 | whatever follows, a promise keeps the first value it was given |
| Promises.OrderedOnceOnly | storm-demo-webapp/src/main/webapp/assets/lib/when/when.js:266-318 | the handlers run for a promise are the beginning of those registered, in order, each once and with its value, and all of them once the queue is empty; a non-empty queue has exactly one drain scheduled or running |
| Promises.EverythingIsDelivered | storm-demo-webapp/src/main/webapp/assets/lib/when/when.js:266-318 | after any run, the drain that is due or under way ends after finitely many steps of its own, and then each handler registered with a settled promise has been run, once and in order |
| Promises.DrainEnds | storm-demo-webapp/src/main/webapp/assets/lib/when/when.js:797-805 | a drain takes exactly one step for each task and handler left and one more, and ends with an empty queue |
| Promises.RunRecords | storm-demo-webapp/src/main/webapp/assets/lib/when/when.js:478-485 | over any run, what is recorded as delivered by a promise is exactly what was run for it, in order |
| Promises.DeliverKeeps | storm-demo-webapp/src/main/webapp/assets/lib/when/when.js:478-485 | running one handler of a task, with the rest still to come, keeps the invariant |
| Promises.FinishKeeps | storm-demo-webapp/src/main/webapp/assets/lib/when/when.js:797-805 | clearing the queue at the end of a drain loses nothing: every task in it has been run |
| Promises.Scheduler.EnqueueTask | storm-demo-webapp/src/main/webapp/assets/lib/when/when.js:786-790 | appends the task and schedules a drain exactly when the queue was empty |
| Promises.Scheduler.Register | storm-demo-webapp/src/main/webapp/assets/lib/when/when.js:266-272 | a pending promise keeps the handler, a settled one queues it as a task |
| Promises.Scheduler.PromiseResolve | storm-demo-webapp/src/main/webapp/assets/lib/when/when.js:305-318 | the first call settles the promise and queues its consumers as one task; later calls change nothing |
| Promises.Scheduler.GoOn | storm-demo-webapp/src/main/webapp/assets/lib/when/when.js:797-805 | runs the next handler, takes the next task or ends the drain and empties the queue; what was run is exactly what is added to the deliveries of its promise |
| Race.SomeRace.constructor | storm-demo-webapp/src/main/webapp/assets/lib/when/when.js:526-540 | starts with the thresholds, resolved at once when nothing is wanted |
| Race.SomeRace.FulfillOne | storm-demo-webapp/src/main/webapp/assets/lib/when/when.js:550-557 | the countdown agrees with the verdict on all settlements so far; resolve is called at most once |
| Race.SomeRace.RejectOne | storm-demo-webapp/src/main/webapp/assets/lib/when/when.js:542-548 | the countdown agrees with the verdict on all settlements so far; reject is called at most once and never after resolve |
| Race.RaceDecided | storm-demo-webapp/src/main/webapp/assets/lib/when/when.js:526-573 | when every item has settled the race is decided one way: resolved with exactly the first howMany values if that many fulfilled, otherwise rejected with exactly the first len - howMany + 1 reasons |
| Race.RaceStands | storm-demo-webapp/src/main/webapp/assets/lib/when/when.js:526-557 | at any time, in howMany and len themselves: resolved with the first howMany values exactly once that many fulfilled, rejected exactly once len - howMany + 1 rejected |
| Race.DecidedForGood | storm-demo-webapp/src/main/webapp/assets/lib/when/when.js:542-557 | no later settlement changes an outcome |
| Race.HangsIffHole | storm-demo-webapp/src/main/webapp/assets/lib/when/when.js:526-567 | the race can stay pending after all present items settled if and only if some item is missing |
| Guard.GuardSafety | storm-demo-webapp/src/main/webapp/assets/lib/when/guard.js:50-73 | over all runs in which only entries inside exit (none before it is let in, none twice): never more than allowed inside, count is those inside and waiting, nobody waits while a permit is free, permits go out in the order of asking |
| Guard.RunKeeps | storm-demo-webapp/src/main/webapp/assets/lib/when/guard.js:50-73 | the invariant holds after any such run, for any number of permits |
| Guard.GrantsIff | storm-demo-webapp/src/main/webapp/assets/lib/when/guard.js:50-73 | in a run in which anybody asks, somebody is let in if and only if there are permits |
| Guard.OverfillsIff | storm-demo-webapp/src/main/webapp/assets/lib/when/guard.js:65-70 | an exit puts more inside than there are permits at once if and only if its caller is not inside and someone waits |
| Guard.ExitSafeIff | storm-demo-webapp/src/main/webapp/assets/lib/when/guard.js:65-70 | an exit is safe for every disciplined continuation if and only if its caller is inside or the count is zero |
| Guard.DoubleExit | storm-demo-webapp/src/main/webapp/assets/lib/when/guard.js:65-70 | an entry that exits twice breaks the discipline, and with one permit leaves two inside |
| Guard.Condition.EnterOne | storm-demo-webapp/src/main/webapp/assets/lib/when/guard.js:57-63 | lets the caller in or appends it to the waiting list, as the step `Enter` |
| Guard.Condition.ExitOne | storm-demo-webapp/src/main/webapp/assets/lib/when/guard.js:65-70 | frees a permit and wakes the first that waits, as the step `Exit` |

## Left out

- For the spout's own fetches, offsets reset above the high end of the log, and compressed message sets that return offsets below the one asked for: they rewind the emitted offset under pending ones; a fetch is taken to be a run of the log.
- Messages that expand to several tuples under one message id, and empty tuple lists: claims are at message granularity.
- Log expiry or compaction while an offset is in flight: gaps of the log are fixed when it is appended to.
- Spout.KafkaSpout.NextTuple: the clock that decides whether the call ends with a commit is not part of this model: a commit may come at any time. A call that throws ends the worker, which is the closing of a manager with its tuples dropped in `AtLeastOnce`.
- Spout.NoStarvation: a fixed manager list; a refresh between calls starts a new sequence.
- Coordinator.ZkCoordinator.Refresh: a broker table that cannot be read, which changes nothing, and the clock that triggers a refresh are not modelled.
- TridentEmitter.BatchesTileIff: one topology instance from a fresh start; a reset on a topology change under `forceFromStart`, after which a failed first fetch records the new instance id, is not part of the tiling.
- TridentEmitter.TridentKafkaEmitter.ReEmitPartitionBatch: the registration of the connection is not modelled.
- Shortest.LengthsIff: for longer arrays the converse goes as far as `Shortest.NoneKeepableIff`; with equal entries both inside and outside the band and many edits, no condition is given.
- EditScript.FillMatrix: the search for a matching entry and the row loops are methods of their own; sparse rows are maps.
- NaN entries, which equal nothing in JavaScript.
- DOM nodes, callbacks, templates and bindings around the reconciliation; the mapped item is its entry and index.
- Computed.DependentObservable.EvaluateImmediate: an evaluation disposed midway, throttling, and the notifications of subscribers with the re-entrant evaluations they may cause.
- Promises.Scheduler.PromiseResolve: resolution with another promise, which hands the consumers on to that one, is not modelled; nor are progress notifications and the status monitor.
- Promises.Scheduler.GoOn: a drain is split into steps because handlers call back into the scheduler; handlers that throw are not modelled.
- Race.SomeRace.FulfillOne: items settle through parameters; how `when` turns an item into a settlement is not modelled.
- Connections.DynamicPartitionConnections.Unregister: the entry of a broker must exist, as the source dereferences it; entries are values in the map, and the lookup of a broker through the reader is not modelled.
- Trident's transactional wrapper, offset metrics, latency metrics, error-code lookup, Broker parsing and JSON encoding, which would only add easy members.
- The map and table pages, Spring configuration, the simulator, jQuery, Bootstrap, SockJS, the curl loader, polyfills, message adapters and the minified copy of Knockout.
