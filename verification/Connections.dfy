/** The consumers a task shares among its partitions, one per broker. */
module Connections {
  import opened Wrappers
  import opened Allocation

  class SimpleConsumer {
    const host: Broker
    var isOpen: bool

    constructor (host: Broker)
      ensures this.host == host && isOpen
    {
      this.host := host;
      isOpen := true;
    }

    method Close()
      modifies this
      ensures !isOpen
    {
      isOpen := false;
    }
  }

  datatype ConnectionInfo = ConnectionInfo(consumer: SimpleConsumer, partitions: set<int>)

  function ConsumersIn(connections: map<Broker, ConnectionInfo>): set<SimpleConsumer> {
    set host | host in connections :: connections[host].consumer
  }

  lemma ConsumersKept(m: map<Broker, ConnectionInfo>, host: Broker, info: ConnectionInfo)
    requires host in m ==> m[host].consumer == info.consumer
    ensures ConsumersIn(m) <= ConsumersIn(m[host := info])
  {
    forall c | c in ConsumersIn(m)
      ensures c in ConsumersIn(m[host := info])
    {
      var h :| h in m && m[h].consumer == c;
      assert m[host := info][h].consumer == c;
    }
  }

  lemma ConsumersDropped(m: map<Broker, ConnectionInfo>, host: Broker)
    requires host in m
    ensures ConsumersIn(m) - ConsumersIn(m - {host}) <= {m[host].consumer}
  {
    forall c | c in ConsumersIn(m) && c != m[host].consumer
      ensures c in ConsumersIn(m - {host})
    {
      var h :| h in m && m[h].consumer == c;
      assert (m - {host})[h].consumer == c;
    }
  }

  ghost predicate AllClosed(consumers: set<SimpleConsumer>)
    reads consumers
  {
    forall c :: c in consumers ==> !c.isOpen
  }

  class DynamicPartitionConnections {
    var connections: map<Broker, ConnectionInfo>

    ghost predicate Registered(host: Broker, partition: int)
      reads this
    {
      host in connections && partition in connections[host].partitions
    }

    ghost function Consumers(): set<SimpleConsumer>
      reads this
    {
      ConsumersIn(connections)
    }

    /** No entry is empty, and every entry holds an open consumer of its own broker. */
    ghost predicate Valid()
      reads this, Consumers()
    {
      forall host :: host in connections ==>
        && connections[host].partitions != {}
        && connections[host].consumer.isOpen
        && connections[host].consumer.host == host
    }

    constructor ()
      ensures Valid() && connections == map[]
    {
      connections := map[];
    }

    method Register(host: Broker, partition: int) returns (consumer: SimpleConsumer)
      requires Valid()
      modifies this
      ensures Valid()
      ensures if host in old(connections) then consumer == old(connections)[host].consumer else fresh(consumer)
      ensures connections == old(connections)[host :=
                ConnectionInfo(consumer, (if host in old(connections) then old(connections)[host].partitions else {})
                               + {partition})]
      ensures old(Consumers()) <= Consumers()
    {
      if host !in connections {
        var added := new SimpleConsumer(host);
        connections := connections[host := ConnectionInfo(added, {})];
      }
      var info := connections[host];
      connections := connections[host := info.(partitions := info.partitions + {partition})];
      Inhabited(info.partitions, partition);
      consumer := info.consumer;
      ConsumersKept(old(connections), host, connections[host]);
    }

    method GetConnection(partition: Partition) returns (r: Option<SimpleConsumer>)
      ensures r == if partition.host in connections then Some(connections[partition.host].consumer) else None
    {
      if partition.host in connections {
        r := Some(connections[partition.host].consumer);
      } else {
        r := None;
      }
    }

    /** The source dereferences the entry of `host`: it must exist. */
    method Unregister(host: Broker, partition: int)
      requires Valid() && host in connections
      modifies this, connections[host].consumer
      ensures Valid()
      ensures var left := old(connections)[host].partitions - {partition};
              if left == {} then connections == old(connections) - {host} && !old(connections)[host].consumer.isOpen
              else connections == old(connections)[host := old(connections)[host].(partitions := left)]
                   && old(connections)[host].consumer.isOpen
      ensures AllClosed(old(Consumers()) - Consumers())
    {
      ConsumersDropped(connections, host);
      ConsumersKept(connections, host, connections[host].(partitions := connections[host].partitions - {partition}));
      var info := connections[host];
      info := info.(partitions := info.partitions - {partition});
      if info.partitions == {} {
        info.consumer.Close();
        connections := connections - {host};
      } else {
        connections := connections[host := info];
      }
    }

    method Clear()
      requires Valid()
      modifies this, Consumers()
      ensures Valid() && connections == map[]
      ensures forall host :: host in old(connections) ==> !old(connections)[host].consumer.isOpen
    {
      var rest := connections.Keys;
      while rest != {}
        invariant rest <= connections.Keys && connections == old(connections)
        invariant forall host :: host in connections && host !in rest ==> !connections[host].consumer.isOpen
        decreases |rest|
      {
        var host :| host in rest;
        assert connections[host].consumer in old(Consumers());
        connections[host].consumer.Close();
        rest := rest - {host};
      }
      connections := map[];
    }
  }

  lemma Inhabited<T>(s: set<T>, x: T)
    ensures s + {x} != {}
  {
  }
}
