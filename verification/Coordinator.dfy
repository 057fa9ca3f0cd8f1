/** Which managers a task keeps as partitions move between tasks and leaders. */
module Coordinator {
  import opened Wrappers
  import opened Allocation
  import opened Connections
  import opened PartitionManagers
  import PS = PartitionState

  /** How a refresh ends: done, rejected for a task index out of range, or broken off because the constructor
      of a new manager threw. */
  datatype Refreshing = Refreshed | BadTask | BrokenOff(at: Partition)

  class ZkCoordinator {
    const taskIndex: nat
    const totalTasks: int
    const connections: DynamicPartitionConnections
    const state: ZkState
    var managers: map<Partition, PartitionManager>
    var cachedList: seq<PartitionManager>
    /** Registered partitions whose manager's constructor threw. */
    ghost var orphans: set<Partition>

    /** A manager serves its own key, through the open consumer registered for its broker. */
    ghost predicate Serves(p: Partition, m: PartitionManager)
      reads connections
    {
      && m.partition == p && m.connections == connections && m.state == state
      && connections.Registered(p.host, p.id) && m.consumer == connections.connections[p.host].consumer
    }

    /** Managers and connections agree, but for the orphans. */
    ghost predicate Valid()
      reads this`managers, this`orphans, connections, connections.Consumers()
    {
      && connections.Valid()
      && (forall p :: p in managers ==> Serves(p, managers[p]))
      && (forall host, id :: connections.Registered(host, id) ==> Partition(host, id) in managers.Keys + orphans)
      && (forall p :: p in orphans ==> p !in managers && connections.Registered(p.host, p.id))
    }

    ghost predicate OnePerId()
      reads this`managers
    {
      forall p, q :: p in managers && q in managers && p.id == q.id ==> p == q
    }

    constructor (connections: DynamicPartitionConnections, state: ZkState, taskIndex: nat, totalTasks: int)
      requires connections.Valid() && connections.connections == map[]
      ensures Valid() && OnePerId() && managers == map[] && cachedList == [] && orphans == {}
      ensures this.connections == connections && this.state == state
      ensures this.taskIndex == taskIndex && this.totalTasks == totalTasks
    {
      this.connections := connections;
      this.state := state;
      this.taskIndex := taskIndex;
      this.totalTasks := totalTasks;
      managers := map[];
      cachedList, orphans := [], {};
    }

    function GetManager(partition: Partition): Option<PartitionManager>
      reads this
    {
      if partition in managers then Some(managers[partition]) else None
    }

    /** Closes the manager of `id` and forgets it. */
    method Drop(id: Partition)
      requires Valid() && id in managers
      modifies this`managers, connections, connections.Consumers()
      ensures Valid()
      ensures forall p :: p in managers <==> p in old(managers) && p != id
      ensures forall p :: p in managers ==> managers[p] == old(managers)[p]
      ensures connections.Consumers() <= old(connections.Consumers())
      ensures AllClosed(old(connections.Consumers()) - connections.Consumers())
    {
      var man := managers[id];
      managers := managers - {id};
      assert man.consumer in connections.Consumers();
      man.Close();
      ServedWithout(id);
    }

    /** Giving up one partition takes no registration from another. */
    twostate lemma ServedWithout(id: Partition)
      requires old(Valid()) && id in old(managers) && managers == old(managers) - {id} && orphans == old(orphans)
      requires connections.Valid()
      requires var was := old(connections.connections)[id.host];
               var left := was.partitions - {id.id};
               connections.connections ==
                 if left == {} then old(connections.connections) - {id.host}
                 else old(connections.connections)[id.host := was.(partitions := left)]
      ensures Valid()
    {
      forall host, p | Partition(host, p) != id && old(connections.Registered(host, p))
        ensures connections.Registered(host, p)
        ensures connections.connections[host].consumer == old(connections.connections)[host].consumer
      {
        if host == id.host {
          assert p in old(connections.connections)[id.host].partitions - {id.id};
        }
      }
      forall p | p in managers
        ensures Serves(p, managers[p])
      {
        assert old(Serves(p, managers[p]));
      }
      forall p | p in orphans
        ensures connections.Registered(p.host, p.id)
      {
        assert old(connections.Registered(p.host, p.id));
      }
      forall host, p | connections.Registered(host, p)
        ensures Partition(host, p) in managers.Keys + orphans
      {
        assert old(connections.Registered(host, p)) && Partition(host, p) != id;
      }
    }

    /** Opens a manager for `id`. */
    method Open(id: Partition, cfg: PS.StartConfig)
      requires Valid() && id !in managers
      modifies this`managers, this`orphans, connections
      ensures Valid() && orphans == old(orphans) - {id}
      ensures forall p :: p in managers <==> p in old(managers) || p == id
      ensures forall p :: p in old(managers) ==> managers[p] == old(managers)[p]
      ensures fresh(managers[id]) && managers[id].Now() == PS.Start(PS.StartOffset(state.ReadJson(id.id), cfg))
      ensures managers[id].topologyInstanceId == cfg.instanceId
      ensures forall c :: c in connections.Consumers() ==> c in old(connections.Consumers()) || fresh(c)
      ensures old(connections.Consumers()) <= connections.Consumers()
    {
      var man := new PartitionManager(connections, state, cfg, id);
      StillServed(id, man.consumer);
      managers := managers[id := man];
      orphans := orphans - {id};
    }

    /** Registering one more partition takes no registration from another. */
    twostate lemma StillServed(id: Partition, new consumer: SimpleConsumer)
      requires old(Valid()) && managers == old(managers) && orphans == old(orphans)
      requires id.host in old(connections.connections) ==> consumer == old(connections.connections)[id.host].consumer
      requires var was := old(connections.connections);
               var known := if id.host in was then was[id.host].partitions else {};
               connections.connections == was[id.host := ConnectionInfo(consumer, known + {id.id})]
      ensures forall p :: p in managers ==> Serves(p, managers[p])
      ensures forall p :: p in orphans ==> connections.Registered(p.host, p.id)
      ensures connections.Registered(id.host, id.id)
      ensures forall host, p :: connections.Registered(host, p) ==>
                Partition(host, p) in managers.Keys + orphans + {id}
    {
      forall p | p in managers
        ensures Serves(p, managers[p])
      {
        assert old(Serves(p, managers[p]));
      }
      forall p | p in orphans
        ensures connections.Registered(p.host, p.id)
      {
        assert old(connections.Registered(p.host, p.id));
      }
      forall host, p | connections.Registered(host, p)
        ensures Partition(host, p) in managers.Keys + orphans + {id}
      {
        assert Partition(host, p) == id || old(connections.Registered(host, p));
      }
    }

    /** The constructor throws on the request for an offset, after it has registered. */
    method FailToOpen(id: Partition)
      requires Valid() && id !in managers
      modifies this`orphans, connections
      ensures Valid() && orphans == old(orphans) + {id}
      ensures forall c :: c in connections.Consumers() ==> c in old(connections.Consumers()) || fresh(c)
      ensures old(connections.Consumers()) <= connections.Consumers()
    {
      var consumer := connections.Register(id.host, id.id);
      StillServed(id, consumer);
      orphans := orphans + {id};
    }

    // ----- Refreshing -----

    /** The managers are exactly those of the partitions wanted. */
    twostate predicate Completed(mine: seq<Partition>)
      reads this`managers, this`orphans
    {
      (forall p :: p in managers <==> p in mine) && orphans == old(orphans) - managers.Keys
    }

    /** The constructor for `at` threw: no manager is left that is not wanted, none that is wanted was lost, and
        `at` is the one new orphan. */
    twostate predicate Stopped(mine: seq<Partition>, answers: Partition -> Option<PS.StartConfig>, at: Partition)
      reads this`managers, this`orphans
    {
      && at in mine && at !in old(managers) && answers(at).None?
      && (forall p :: p in managers ==> p in mine)
      && (forall p :: p in mine && p in old(managers) ==> p in managers)
      && at in orphans && orphans <= old(orphans) + {at}
    }

    /** `answers` gives the configuration and the offset answers for each partition it may start, or None where
        the request throws. A task index out of range is rejected before anything changes. */
    method Refresh(brokerInfo: GlobalPartitionInformation, answers: Partition -> Option<PS.StartConfig>)
      returns (r: Refreshing, ghost mine: seq<Partition>, ghost ordered: seq<Partition>)
      requires Valid() && OnePerId()
      modifies this, connections, connections.Consumers()
      ensures Valid() && OnePerId() && AllClosed(old(connections.Consumers()) - connections.Consumers())
      ensures r == BadTask <==> taskIndex >= totalTasks
      ensures r == BadTask ==>
                managers == old(managers) && cachedList == old(cachedList) && orphans == old(orphans) &&
                connections.connections == old(connections.connections)
      ensures r != BadTask ==> Lists(ordered, brokerInfo.partitionMap) && mine == Share(ordered, totalTasks, taskIndex)
      ensures r == Refreshed ==> Completed(mine) && CachesAll()
      ensures r.BrokenOff? ==> Stopped(mine, answers, r.at) && cachedList == old(cachedList)
      ensures forall p :: p in managers && p in old(managers) ==> managers[p] == old(managers)[p]
      ensures forall p :: p in managers && p !in old(managers) ==> answers(p).Some? && Started(p, answers(p).value)
      ensures forall p :: p in managers && p in old(managers) ==> managers[p].Now() == old(managers[p].Now())
      ensures forall p :: p in managers ==> managers[p].consumer.isOpen
    {
      hide Share, Lists, Valid, CachesAll, OnePerId;
      AllOpen();
      var share;
      share, ordered := CalculatePartitionsForTask(brokerInfo, totalTasks, taskIndex);
      mine := [];
      if share.None? {
        return BadTask, [], ordered;
      }
      mine := share.value;
      ShareOfTable(ordered, brokerInfo.partitionMap, totalTasks, taskIndex);
      r := Rearrange(share.value, answers);
    }

    /** The refresh, once the partitions of this task are known. */
    method Rearrange(mine: seq<Partition>, answers: Partition -> Option<PS.StartConfig>) returns (r: Refreshing)
      requires Valid() && forall a, b :: 0 <= a < b < |mine| ==> mine[a].id < mine[b].id
      modifies this`managers, this`orphans, this`cachedList, connections, connections.Consumers()
      ensures Valid() && OnePerId() && AllClosed(old(connections.Consumers()) - connections.Consumers()) && r != BadTask
      ensures r == Refreshed ==> Completed(mine) && CachesAll()
      ensures r.BrokenOff? ==> Stopped(mine, answers, r.at) && cachedList == old(cachedList)
      ensures forall p :: p in managers && p in old(managers) ==> managers[p] == old(managers)[p]
      ensures forall p :: p in managers && p !in old(managers) ==> answers(p).Some? && Started(p, answers(p).value)
      ensures forall p :: p in managers ==> managers[p].consumer.isOpen
    {
      hide Valid;
      var list;
      r, list := ReplaceAndList(mine, answers);
      OneEach(mine);
      AllOpen();
      label replaced:
      if r == Refreshed {
        cachedList := list;
        StaysValid@replaced();
      }
    }

    method ReplaceAndList(mine: seq<Partition>, answers: Partition -> Option<PS.StartConfig>)
      returns (r: Refreshing, list: seq<PartitionManager>)
      requires Valid()
      modifies this`managers, this`orphans, connections, connections.Consumers()
      ensures Valid() && AllClosed(old(connections.Consumers()) - connections.Consumers()) && r != BadTask
      ensures r == Refreshed ==> Completed(mine)
      ensures r == Refreshed ==> |list| == |managers| && forall p :: p in managers ==> managers[p] in list
      ensures r.BrokenOff? ==> Stopped(mine, answers, r.at)
      ensures forall p :: p in managers && p in old(managers) ==> managers[p] == old(managers)[p]
      ensures forall p :: p in managers && p !in old(managers) ==> answers(p).Some? && Started(p, answers(p).value)
    {
      hide Valid;
      r := Replace(mine, answers);
      label replaced:
      list := ListManagers();
      StaysValid@replaced();
    }

    /** Nothing but the cached list changed. */
    twostate lemma StaysValid()
      requires old(Valid()) && managers == old(managers) && orphans == old(orphans)
      requires unchanged(connections) && unchanged(connections.Consumers())
      ensures Valid()
    {
    }

    lemma OneEach(mine: seq<Partition>)
      requires forall a, b :: 0 <= a < b < |mine| ==> mine[a].id < mine[b].id
      requires forall p :: p in managers ==> p in mine
      ensures OnePerId()
    {
    }

    /** Orphans have no manager, so dropping the managers from them drops only the new ones. */
    lemma OrphansLeft(curr: set<Partition>, added: set<Partition>, keys: set<Partition>)
      requires Valid() && curr == managers.Keys && added <= keys && keys <= curr + added
      ensures orphans - added == orphans - keys
    {
    }

    lemma AllOpen()
      requires Valid()
      ensures forall p :: p in managers ==> managers[p].consumer.isOpen
    {
    }

    /** A manager that was opened just now. */
    twostate predicate Started(p: Partition, cfg: PS.StartConfig)
      requires p in managers
      reads this`managers, managers[p], state
    {
      && fresh(managers[p]) && managers[p].topologyInstanceId == cfg.instanceId
      && managers[p].Now() == PS.Start(PS.StartOffset(state.ReadJson(p.id), cfg))
    }

    method Replace(mine: seq<Partition>, answers: Partition -> Option<PS.StartConfig>) returns (r: Refreshing)
      requires Valid()
      modifies this`managers, this`orphans, connections, connections.Consumers()
      ensures Valid() && AllClosed(old(connections.Consumers()) - connections.Consumers()) && r != BadTask
      ensures r == Refreshed ==> Completed(mine)
      ensures r.BrokenOff? ==> Stopped(mine, answers, r.at)
      ensures forall p :: p in managers && p in old(managers) ==> managers[p] == old(managers)[p]
      ensures forall p :: p in managers && p !in old(managers) ==> answers(p).Some? && Started(p, answers(p).value)
    {
      hide Valid, Serves;
      var curr := managers.Keys;
      var newPartitions := set p | p in mine && p !in curr;
      var deletedPartitions := set p | p in curr && p !in mine;
      OrphansLeft(curr, newPartitions, set p | p in mine);
      DropAll(deletedPartitions);
      r := OpenAll(newPartitions, answers);
    }

    /** The cached list holds every manager, each once. */
    ghost predicate CachesAll()
      reads this
    {
      |cachedList| == |managers| && forall p :: p in managers ==> managers[p] in cachedList
    }

    method ListManagers() returns (list: seq<PartitionManager>)
      ensures |list| == |managers| && forall p :: p in managers ==> managers[p] in list
    {
      list := [];
      var rest := managers.Keys;
      while rest != {}
        invariant rest <= managers.Keys && |list| + |rest| == |managers|
        invariant forall p :: p in managers ==> p in rest || managers[p] in list
        decreases |rest|
      {
        var p :| p in rest;
        list := list + [managers[p]];
        rest := rest - {p};
      }
    }

    method DropAll(deleted: set<Partition>)
      requires Valid() && deleted <= managers.Keys
      modifies this`managers, connections, connections.Consumers()
      ensures Valid()
      ensures forall p :: p in managers <==> p in old(managers) && p !in deleted
      ensures forall p :: p in managers ==> managers[p] == old(managers)[p]
      ensures connections.Consumers() <= old(connections.Consumers())
      ensures AllClosed(old(connections.Consumers()) - connections.Consumers())
    {
      hide Valid;
      var rest := deleted;
      while rest != {}
        invariant Valid() && rest <= deleted
        invariant forall p :: p in managers <==> p in old(managers) && (p in deleted ==> p in rest)
        invariant forall p :: p in managers ==> managers[p] == old(managers)[p]
        invariant connections.Consumers() <= old(connections.Consumers())
        invariant AllClosed(old(connections.Consumers()) - connections.Consumers())
        decreases |rest|
      {
        var id :| id in rest;
        Drop(id);
        rest := rest - {id};
      }
    }

    method OpenAll(added: set<Partition>, answers: Partition -> Option<PS.StartConfig>) returns (r: Refreshing)
      requires Valid() && added !! managers.Keys
      modifies this`managers, this`orphans, connections
      ensures Valid() && r != BadTask && old(connections.Consumers()) <= connections.Consumers()
      ensures forall p :: p in old(managers) ==> p in managers && managers[p] == old(managers)[p]
      ensures forall p :: p in managers && p !in old(managers) ==>
                p in added && answers(p).Some? && Started(p, answers(p).value)
      ensures r == Refreshed ==> (forall p :: p in added ==> p in managers) && orphans == old(orphans) - added
      ensures r.BrokenOff? ==>
                r.at in added && answers(r.at).None? && r.at in orphans && orphans <= old(orphans) + {r.at}
    {
      hide Valid;
      var rest := added;
      while rest != {}
        invariant old(connections.Consumers()) <= connections.Consumers()
        invariant Valid() && rest <= added && orphans == old(orphans) - (added - rest)
        invariant forall p :: p in managers <==> p in old(managers) || (p in added && p !in rest)
        invariant forall p :: p in old(managers) ==> managers[p] == old(managers)[p]
        invariant forall p :: p in added && p !in rest ==> answers(p).Some? && Started(p, answers(p).value)
        decreases |rest|
      {
        var id :| id in rest;
        if answers(id).None? {
          FailToOpen(id);
          return BrokenOff(id);
        }
        Open(id, answers(id).value);
        rest := rest - {id};
      }
      r := Refreshed;
    }
  }
}
