/**
 * `EventConsumer`: one delivery at a time, the consumer callback parses the body, reads the
 * three envelope fields with their defaults, classifies the routing key by prefix, and settles
 * the delivery with exactly one ack (success) or one nack without requeue (any exception).
 *
 * `json.loads` is abstract: the body arrives already parsed, or as `None` when it is not JSON.
 */
module Consumer {
  import opened Wrappers
  import opened Json
  import Topic
  import Broker
  import Producer

  /** The branch `process_event` takes. */
  datatype EventKind = WarehouseEvent | ShipmentEvent | UnknownEvent

  /** Why the callback's `try` block raised. */
  datatype ConsumeError =
    | MalformedJson       // `json.loads` raised
    | NotAnObject         // the document is not a dict, so `.get` raised
    | RoutingKeyNotText   // `routing_key` is not a string, so `.startswith` raised

  /** What the callback did with one delivery. */
  datatype Handled =
    | Processed(kind: EventKind, routingKey: string, operationName: Value, eventData: Value)
    | Failed(error: ConsumeError)

  /** Python's `str.startswith`. */
  predicate StartsWith(s: string, prefix: string) {
    |prefix| <= |s| && s[..|prefix|] == prefix
  }

  const WarehousePrefix := "warehouse."
  const ShipmentPrefix := "shipment."

  /** `process_event`: the warehouse prefix is tested first, then the shipment prefix. */
  function ProcessEvent(routingKey: string): (k: EventKind)
    ensures k == WarehouseEvent <==> StartsWith(routingKey, WarehousePrefix)
    ensures k == ShipmentEvent ==> StartsWith(routingKey, ShipmentPrefix)
    ensures k == UnknownEvent <==> !StartsWith(routingKey, WarehousePrefix) && !StartsWith(routingKey, ShipmentPrefix)
  {
    if StartsWith(routingKey, WarehousePrefix) then WarehouseEvent
    else if StartsWith(routingKey, ShipmentPrefix) then ShipmentEvent
    else UnknownEvent
  }

  /** The branch meant for a resource's events. */
  function KindFor(r: Producer.Resource): EventKind {
    match r
    case Warehouse => WarehouseEvent
    case Shipment => ShipmentEvent
  }

  /** The two prefixes exclude each other, so the order of the tests decides nothing. */
  lemma PrefixesExclusive(routingKey: string)
    ensures !(StartsWith(routingKey, WarehousePrefix) && StartsWith(routingKey, ShipmentPrefix))
    ensures ProcessEvent(routingKey) == ShipmentEvent <==> StartsWith(routingKey, ShipmentPrefix)
  {
    assert StartsWith(routingKey, WarehousePrefix) ==> routingKey[0] == 'w' by {
      if StartsWith(routingKey, WarehousePrefix) { assert routingKey[..10][0] == routingKey[0]; }
    }
    assert StartsWith(routingKey, ShipmentPrefix) ==> routingKey[0] == 's' by {
      if StartsWith(routingKey, ShipmentPrefix) { assert routingKey[..9][0] == routingKey[0]; }
    }
  }

  /** Every producer key is classified as its own resource's event. */
  lemma ProducerKeyClassified(r: Producer.Resource, s: Producer.Stage)
    ensures ProcessEvent(Producer.RoutingKey(r, s)) == KindFor(r)
  {
    var key := Producer.RoutingKey(r, s);
    var prefix := Producer.ResourceWord(r) + ".";
    assert key == prefix + Producer.StageWord(s);
    assert key[..|prefix|] == prefix;
    PrefixesExclusive(key);
  }

  /**
   * A key the bindings deliver to a queue is classified as that queue's resource. The converse
   * fails: `warehouse.a.b` is a warehouse event to `process_event` but reaches no queue.
   */
  lemma RoutedKeyClassified(key: string)
    ensures Broker.WarehouseQueue in Topic.Route(Broker.Bindings(), key) ==> ProcessEvent(key) == WarehouseEvent
    ensures Broker.ShipmentQueue in Topic.Route(Broker.Bindings(), key) ==> ProcessEvent(key) == ShipmentEvent
  {
    Producer.RouteByFirstWord(key);
    FirstWordClassified(key);
  }

  /** The same, stated on the words of the key. */
  lemma FirstWordClassified(key: string)
    ensures |Topic.Split(key)| == 2 && Topic.Split(key)[0] == "warehouse" ==> ProcessEvent(key) == WarehouseEvent
    ensures |Topic.Split(key)| == 2 && Topic.Split(key)[0] == "shipment" ==> ProcessEvent(key) == ShipmentEvent
  {
    var ws := Topic.Split(key);
    if |ws| == 2 {
      TwoWordKeyPrefix(key);
      PrefixesExclusive(key);
      assert WarehousePrefix == "warehouse" + ".";
      assert ShipmentPrefix == "shipment" + ".";
    }
  }

  /** A key of two words starts with its first word and a dot. */
  lemma TwoWordKeyPrefix(key: string)
    requires |Topic.Split(key)| == 2
    ensures StartsWith(key, Topic.Split(key)[0] + ".")
  {
    var ws := Topic.Split(key);
    Topic.JoinSplit(key);
    assert ws[1..] == [ws[1]];
    assert key == ws[0] + "." + ws[1];
    var prefix := ws[0] + ".";
    assert key[..|prefix|] == prefix;
  }

  /** The callback's `try` block, as a value: what it reads and whether it raises. */
  function Handle(body: Option<Value>): (h: Handled)
    ensures body.None? ==> h == Failed(MalformedJson)
    ensures body.Some? && !body.value.Obj? ==> h == Failed(NotAnObject)
    ensures h.Processed? <==> body.Some? && body.value.Obj? && Get(body.value.fields, "routing_key", Str("")).Str?
    ensures h.Processed? ==> (
      && h.kind == ProcessEvent(h.routingKey)
      && Get(body.value.fields, "routing_key", Str("")) == Str(h.routingKey)
      && h.operationName == Get(body.value.fields, "operation_name", Str("unknown"))
      && h.eventData == Get(body.value.fields, "event_data", Obj(map[])))
  {
    match body
    case None => Failed(MalformedJson)
    case Some(doc) =>
      if !doc.Obj? then Failed(NotAnObject)
      else
        var operationName := Get(doc.fields, "operation_name", Str("unknown"));
        var eventData := Get(doc.fields, "event_data", Obj(map[]));
        var routingKey := Get(doc.fields, "routing_key", Str(""));
        if !routingKey.Str? then Failed(RoutingKeyNotText)
        else Processed(ProcessEvent(routingKey.s), routingKey.s, operationName, eventData)
  }

  /** The one settlement of a delivery: ack after processing, nack without requeue otherwise. */
  function Settle(deliveryTag: nat, h: Handled): (c: Broker.BrokerCall)
    ensures c == Broker.Acked(deliveryTag) <==> h.Processed?
    ensures c == Broker.Nacked(deliveryTag, false) <==> h.Failed?
  {
    if h.Processed? then Broker.Acked(deliveryTag) else Broker.Nacked(deliveryTag, false)
  }

  /** A delivery is acked exactly when it was processed, and a nack never requeues. */
  lemma SettleExactlyOnce(deliveryTag: nat, body: Option<Value>)
    ensures Settle(deliveryTag, Handle(body)) == Broker.Acked(deliveryTag) <==> Handle(body).Processed?
    ensures Settle(deliveryTag, Handle(body)) == Broker.Nacked(deliveryTag, false) <==> Handle(body).Failed?
    ensures Handle(body).Processed? <==>
      body.Some? && body.value.Obj? && Get(body.value.fields, "routing_key", Str("")).Str?
  {
  }

  /** Missing envelope fields read as `"unknown"`, `{}` and `""`; present ones as they are. */
  lemma HandleDefaults(fields: Object)
    requires "routing_key" !in fields || fields["routing_key"].Str?
    ensures Handle(Some(Obj(fields))).Processed?
    ensures var h := Handle(Some(Obj(fields)));
      && h.operationName == (if "operation_name" in fields then fields["operation_name"] else Str("unknown"))
      && h.eventData == (if "event_data" in fields then fields["event_data"] else Obj(map[]))
      && h.routingKey == (if "routing_key" in fields then fields["routing_key"].s else "")
  {
  }

  /**
   * An envelope as `publish_event` builds it (read back unchanged by `json.loads`) is processed,
   * acked, classified as its resource's event, and hands back the published key, operation name
   * and payload.
   */
  lemma PublishedEnvelopeProcessed(e: Producer.Event, timestamp: string, deliveryTag: nat)
    ensures var key := Producer.RoutingKey(e.resource, e.stage);
      var sent := Broker.Message(key, e.data, e.operationName, timestamp);
      && Handle(Some(sent.body)) == Processed(KindFor(e.resource), key, Str(e.operationName), Obj(e.data))
      && Settle(deliveryTag, Handle(Some(sent.body))) == Broker.Acked(deliveryTag)
  {
    ProducerKeyClassified(e.resource, e.stage);
  }

  /** How `start_consuming` ends before the blocking loop, or that it entered it. */
  datatype StartOutcome =
    | NotConnected     // `connect` failed: logged, and the method returns
    | ConsumeRaised    // `basic_consume` raised, out of the method
    | Consuming        // the callback is registered and the loop runs

  class EventConsumer {
    const connection: Broker.RabbitMQConnection
    /** The queue whose callback is registered, once `start_consuming` got that far. */
    var consuming: Option<string>

    ghost predicate Valid()
      reads this, connection
    {
      connection.Valid()
    }

    constructor ()
      ensures Valid() && fresh(connection) && consuming == None
      ensures connection.host == Broker.DefaultHost && connection.port == Broker.DefaultPort
      ensures connection.username == Broker.DefaultUser && connection.password == Broker.DefaultPassword
      ensures connection.connection == None && connection.channel == None
      ensures connection.transports == 0 && connection.closed == {} && connection.broker == []
    {
      connection := new Broker.RabbitMQConnection(Broker.DefaultHost, Broker.DefaultPort, Broker.DefaultUser, Broker.DefaultPassword);
      consuming := None;
    }

    /** `start_consuming`: a fresh `connect`, then the callback's registration on `queueName`. */
    method StartConsuming(queueName: string, fault: Broker.ConnectFault, consumeOk: bool) returns (r: StartOutcome)
      requires Valid()
      modifies this, connection
      ensures Valid()
      ensures connection.ConnectFields(fault)
      ensures r == NotConnected <==> fault != Broker.NoFault
      ensures r == Consuming <==> fault == Broker.NoFault && consumeOk
      ensures connection.broker == old(connection.broker) + Broker.Topology()[..Broker.DeclarationsDone(fault)]
                                   + (if r == Consuming then [Broker.ConsumerRegistered(queueName)] else [])
      ensures consuming == if r == Consuming then Some(queueName) else old(consuming)
    {
      var connected := connection.Connect(fault);
      if !connected { return NotConnected; }
      if !consumeOk { return ConsumeRaised; }
      connection.broker := connection.broker + [Broker.ConsumerRegistered(queueName)];
      consuming := Some(queueName);
      return Consuming;
    }

    /** The callback, for one delivery: handle it, then settle it exactly once on the channel. */
    method OnMessage(deliveryTag: nat, body: Option<Value>) returns (h: Handled)
      requires Valid() && consuming.Some?
      modifies connection`broker
      ensures Valid()
      ensures h == Handle(body)
      ensures connection.broker == old(connection.broker) + [Settle(deliveryTag, h)]
    {
      h := Handle(body);
      connection.broker := connection.broker + [Settle(deliveryTag, h)];
    }
  }
}
