/** The manager of one partition, with its fields updated in place. Each method is proved against
    the step of the same name in PartitionState. */
module PartitionManagers {
  import opened Wrappers
  import opened MessageLog
  import opened PartitionState
  import opened Allocation
  import opened Connections

  /** The stored state, by partition id. */
  class ZkState {
    var nodes: map<int, Stored>

    constructor ()
      ensures nodes == map[]
    {
      nodes := map[];
    }

    function ReadJson(id: int): Option<Stored>
      reads this
    {
      if id in nodes then Some(nodes[id]) else None
    }

    method WriteJson(id: int, data: Stored)
      modifies this
      ensures nodes == old(nodes)[id := data]
    {
      nodes := nodes[id := data];
    }
  }

  class PartitionManager {
    var emittedToOffset: int
    var pending: set<int>
    var committedTo: int
    var waitingToEmit: seq<Queued>
    const partition: Partition
    const topologyInstanceId: string
    const consumer: SimpleConsumer
    const connections: DynamicPartitionConnections
    const state: ZkState

    ghost function Now(): PartitionState.State
      reads this
    {
      State(emittedToOffset, pending, committedTo, waitingToEmit)
    }

    /** `cfg` holds the configuration and Kafka's answers to the offset requests. */
    constructor (connections: DynamicPartitionConnections, state: ZkState, cfg: StartConfig, id: Partition)
      requires connections.Valid()
      modifies connections
      ensures Now() == Start(StartOffset(state.ReadJson(id.id), cfg))
      ensures pending == {} && waitingToEmit == [] && emittedToOffset == committedTo
      ensures var read := state.ReadJson(id.id);
              committedTo ==
                if read.Some? && (read.value.topologyId == cfg.instanceId || !cfg.forceFromStart) then read.value.offset
                else if read.Some? then cfg.forced
                else cfg.fallback
      ensures partition == id && this.connections == connections && this.state == state
              && topologyInstanceId == cfg.instanceId
      ensures connections.Valid() && id.host in connections.connections
              && consumer == connections.connections[id.host].consumer
      ensures if id.host in old(connections.connections)
              then consumer == old(connections.connections)[id.host].consumer else fresh(consumer)
      ensures connections.connections == old(connections.connections)[id.host := ConnectionInfo(consumer,
                (if id.host in old(connections.connections)
                 then old(connections.connections)[id.host].partitions else {}) + {id.id})]
      ensures old(connections.Consumers()) <= connections.Consumers()
    {
      var registered := connections.Register(id.host, id.id);
      consumer := registered;
      partition := id;
      this.connections := connections;
      this.state := state;
      topologyInstanceId := cfg.instanceId;
      pending := {};
      waitingToEmit := [];
      var json := state.ReadJson(id.id);
      if json.None? {
        committedTo := cfg.fallback;
        emittedToOffset := cfg.fallback;
      } else if cfg.instanceId != json.value.topologyId && cfg.forceFromStart {
        committedTo := cfg.forced;
        emittedToOffset := cfg.forced;
      } else {
        committedTo := json.value.offset;
        emittedToOffset := json.value.offset;
      }
    }

    /** `msgs` is the answer to a fetch at `emittedToOffset`. */
    method FillFrom(msgs: seq<Fetched>)
      modifies this
      ensures Now() == Fill(old(Now()), msgs)
    {
      var i := 0;
      while i < |msgs|
        invariant 0 <= i <= |msgs|
        invariant Fill(Now(), msgs[i..]) == Fill(old(Now()), msgs)
      {
        pending := pending + {emittedToOffset};
        waitingToEmit := waitingToEmit + [Queued(msgs[i].msg, emittedToOffset)];
        emittedToOffset := msgs[i].next;
        i := i + 1;
      }
      assert msgs[i..] == [];
    }

    /** Emits one message that decodes, if there is one. `fetched` is what a fetch would answer now; without
        an answer the fetch throws and nothing changes. `collected` is what the collector is given. */
    method NextTuple(fetched: Option<seq<Fetched>>) returns (verdict: Option<EmitState>, collected: Option<Queued>)
      modifies this
      ensures verdict.None? <==> old(waitingToEmit) == [] && fetched.None?
      ensures verdict.None? ==> Now() == old(Now()) && collected == None
      ensures verdict.Some? ==>
        var r := Next(old(Now()), fetched.GetOr([])); Now() == r.0 && collected == r.1 && verdict.value == Verdict(r)
      ensures verdict == Some(NoEmitted) ==> collected == None && waitingToEmit == []
      ensures verdict == Some(EmittedEnd) ==> collected.Some? && waitingToEmit == []
      ensures verdict == Some(EmittedMoreLeft) ==> collected.Some? && waitingToEmit != []
    {
      if waitingToEmit == [] {
        if fetched.None? {
          return None, None;
        }
        FillFrom(fetched.value);
      }
      ghost var full := Now();
      while true
        invariant Poll(Now()) == Poll(full)
        decreases |waitingToEmit|
      {
        if waitingToEmit == [] {
          return Some(NoEmitted), None;
        }
        var toEmit := waitingToEmit[0];
        waitingToEmit := waitingToEmit[1..];
        if toEmit.msg.decodes {
          collected := Some(toEmit);
          break;
        } else {
          AckOffset(toEmit.offset);
        }
      }
      if waitingToEmit != [] {
        verdict := Some(EmittedMoreLeft);
      } else {
        verdict := Some(EmittedEnd);
      }
    }

    method AckOffset(offset: int)
      modifies this`pending
      ensures Now() == Ack(old(Now()), offset)
      ensures forall p :: p in pending <==> p in old(pending) && p != offset
    {
      pending := pending - {offset};
    }

    method FailOffset(offset: int)
      modifies this`emittedToOffset, this`pending
      ensures Now() == Fail(old(Now()), offset)
      ensures emittedToOffset == if offset < old(emittedToOffset) then offset else old(emittedToOffset)
      ensures forall p :: p in pending <==> p in old(pending) && (offset < old(emittedToOffset) ==> p < offset)
    {
      if emittedToOffset > offset {
        emittedToOffset := offset;
        pending := set p | p in pending && p < offset;
      }
    }

    method LastCompletedOffset() returns (offset: int)
      ensures offset == Completed(Now())
      ensures pending == {} ==> offset == emittedToOffset
      ensures pending != {} ==> offset in pending && forall p :: p in pending ==> offset <= p
    {
      if pending == {} {
        offset := emittedToOffset;
      } else {
        offset := Smallest(pending);
      }
    }

    /** Stores the completed offset when it is not the committed one already. */
    method CommitOffset()
      modifies this`committedTo, state
      ensures Now() == Commit(old(Now())) && committedTo == Completed(old(Now()))
      ensures pending == {} ==> committedTo == emittedToOffset
      ensures pending != {} ==> committedTo in pending && forall p :: p in pending ==> committedTo <= p
      ensures state.nodes == if committedTo == old(committedTo) then old(state.nodes)
                             else old(state.nodes)[partition.id := Stored(topologyInstanceId, committedTo)]
    {
      var lastCompletedOffset := LastCompletedOffset();
      if lastCompletedOffset != committedTo {
        state.WriteJson(partition.id, Stored(topologyInstanceId, lastCompletedOffset));
        committedTo := lastCompletedOffset;
      }
    }

    method Close()
      requires connections.Valid() && partition.host in connections.connections
      modifies connections, connections.connections[partition.host].consumer
      ensures connections.Valid()
      ensures var info := old(connections.connections)[partition.host];
              var left := info.partitions - {partition.id};
              if left == {} then
                connections.connections == old(connections.connections) - {partition.host} && !info.consumer.isOpen
              else
                && connections.connections == old(connections.connections)[partition.host := info.(partitions := left)]
                && info.consumer.isOpen
      ensures AllClosed(old(connections.Consumers()) - connections.Consumers())
    {
      connections.Unregister(partition.host, partition.id);
    }
  }
}
