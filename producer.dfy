/**
 * `EventProducer`: the fixed table from (resource, lifecycle stage) to routing key, and the
 * publishing of one service event through the shared broker connection.
 */
module Producer {
  import opened Json
  import Topic
  import Broker

  datatype Resource = Warehouse | Shipment
  datatype Stage = Created | Updated | Deleted

  /** One call of an `EventProducer` method: which of the six, its payload and its operation name. */
  datatype Event = Event(resource: Resource, stage: Stage, data: Object, operationName: string)

  function ResourceWord(r: Resource): (w: string)
    ensures '.' !in w && w != "#" && w != "*"
  {
    match r
    case Warehouse => "warehouse"
    case Shipment => "shipment"
  }

  function StageWord(s: Stage): (w: string)
    ensures '.' !in w
  {
    match s
    case Created => "created"
    case Updated => "updated"
    case Deleted => "deleted"
  }

  /** The routing key each producer method publishes with: `<resource>.<stage>`. */
  function RoutingKey(r: Resource, s: Stage): (key: string)
    ensures (r, s) == (Warehouse, Created) ==> key == "warehouse.created"
    ensures (r, s) == (Warehouse, Updated) ==> key == "warehouse.updated"
    ensures (r, s) == (Warehouse, Deleted) ==> key == "warehouse.deleted"
    ensures (r, s) == (Shipment, Created) ==> key == "shipment.created"
    ensures (r, s) == (Shipment, Updated) ==> key == "shipment.updated"
    ensures (r, s) == (Shipment, Deleted) ==> key == "shipment.deleted"
  {
    ResourceWord(r) + "." + StageWord(s)
  }

  /** The queue whose binding is meant to receive a resource's events. */
  function QueueFor(r: Resource): string {
    match r
    case Warehouse => Broker.WarehouseQueue
    case Shipment => Broker.ShipmentQueue
  }

  /** A routing key is made of exactly two words: the resource and the stage. */
  lemma RoutingKeyWords(r: Resource, s: Stage)
    ensures Topic.Split(RoutingKey(r, s)) == [ResourceWord(r), StageWord(s)]
  {
    Topic.SplitCons(ResourceWord(r), StageWord(s));
    Topic.SplitWord(StageWord(s));
  }

  /** The six keys are distinct: the key determines the producer method. */
  lemma RoutingKeyInjective(r1: Resource, s1: Stage, r2: Resource, s2: Stage)
    ensures RoutingKey(r1, s1) == RoutingKey(r2, s2) <==> r1 == r2 && s1 == s2
  {
    RoutingKeyWords(r1, s1);
    RoutingKeyWords(r2, s2);
    if RoutingKey(r1, s1) == RoutingKey(r2, s2) {
      assert [ResourceWord(r1), StageWord(s1)] == [ResourceWord(r2), StageWord(s2)];
      assert ResourceWord(r1) == ResourceWord(r2) && StageWord(s1) == StageWord(s2);
      assert |ResourceWord(r1)| == |ResourceWord(r2)|;
    }
  }

  /**
   * Under the bindings `connect` declares, every producer key reaches exactly one queue: the one
   * of its resource.
   */
  lemma RoutesToOwnQueue(r: Resource, s: Stage)
    ensures Topic.Route(Broker.Bindings(), RoutingKey(r, s)) == {QueueFor(r)}
  {
    RouteByFirstWord(RoutingKey(r, s));
    RouteSingleQueue(RoutingKey(r, s));
    RoutingKeyWords(r, s);
  }

  /** The route of any key under the two bindings, one binding at a time. */
  lemma RouteOfBindings(key: string)
    ensures Topic.Route(Broker.Bindings(), key) ==
      (if Topic.KeyMatches("warehouse" + ".*", key) then {Broker.WarehouseQueue} else {}) +
      (if Topic.KeyMatches("shipment" + ".*", key) then {Broker.ShipmentQueue} else {})
  {
    var bs := Broker.Bindings();
    assert "warehouse.*" == "warehouse" + ".*" && "shipment.*" == "shipment" + ".*";
    assert bs[1..][1..] == [];
    assert Topic.Route(bs[1..][1..], key) == {};
  }

  /**
   * A message is delivered to `warehouse_events` exactly when its key is `warehouse.<word>`,
   * and to `shipment_events` exactly when it is `shipment.<word>`.
   */
  lemma RouteByFirstWord(key: string)
    ensures Broker.WarehouseQueue in Topic.Route(Broker.Bindings(), key) <==>
      |Topic.Split(key)| == 2 && Topic.Split(key)[0] == "warehouse"
    ensures Broker.ShipmentQueue in Topic.Route(Broker.Bindings(), key) <==>
      |Topic.Split(key)| == 2 && Topic.Split(key)[0] == "shipment"
  {
    RouteOfBindings(key);
    BindingMatches("warehouse", key);
    BindingMatches("shipment", key);
    var k := Topic.Split(key);
    var w := Topic.KeyMatches("warehouse" + ".*", key);
    var sh := Topic.KeyMatches("shipment" + ".*", key);
    assert w <==> |k| == 2 && k[0] == "warehouse";
    assert sh <==> |k| == 2 && k[0] == "shipment";
    assert Broker.WarehouseQueue != Broker.ShipmentQueue;
  }

  /** No routing key at all reaches both queues. */
  lemma RouteSingleQueue(key: string)
    ensures Topic.Route(Broker.Bindings(), key) == {} ||
      Topic.Route(Broker.Bindings(), key) == {Broker.WarehouseQueue} ||
      Topic.Route(Broker.Bindings(), key) == {Broker.ShipmentQueue}
  {
    RouteOfBindings(key);
    BindingMatches("warehouse", key);
    BindingMatches("shipment", key);
    var w := Topic.KeyMatches("warehouse" + ".*", key);
    var sh := Topic.KeyMatches("shipment" + ".*", key);
    assert !(w && sh);
  }

  /** The binding key `<word>.*` as a statement about the words of the routing key. */
  lemma BindingMatches(word: string, key: string)
    requires word == "warehouse" || word == "shipment"
    ensures Topic.KeyMatches(word + ".*", key) <==> |Topic.Split(key)| == 2 && Topic.Split(key)[0] == word
  {
    Topic.StarBindingMatches(word, key);
  }

  /** What the broker does with one publish: the envelope time, the fault a lazy connect meets, and whether the send goes through. */
  datatype Attempt = Attempt(timestamp: string, fault: Broker.ConnectFault, transportOk: bool)

  /** The effect of one `EventProducer` call with event `e` on the shared connection, whatever it returned. */
  twostate predicate Published(conn: Broker.RabbitMQConnection, e: Event, a: Attempt)
    reads conn
  {
    exists ok: bool :: conn.PublishEffect(RoutingKey(e.resource, e.stage), e.data, e.operationName, a.timestamp, a.fault, a.transportOk, ok)
  }

  /**
   * An `EventProducer` method: publish the event with its key through the shared connection and
   * return the publish result; the payload and operation name pass through unchanged.
   */
  method Emit(conn: Broker.RabbitMQConnection, e: Event, a: Attempt) returns (ok: bool)
    requires conn.Valid()
    modifies conn
    ensures conn.Valid()
    ensures conn.PublishEffect(RoutingKey(e.resource, e.stage), e.data, e.operationName, a.timestamp, a.fault, a.transportOk, ok)
    ensures Published(conn, e, a)
  {
    ok := conn.PublishEvent(RoutingKey(e.resource, e.stage), e.data, e.operationName, a.timestamp, a.fault, a.transportOk);
  }
}
