/**
 * The broker connection (`RabbitMQConnection`): one transport and one channel to RabbitMQ,
 * the topology it declares on every connect, and the publishing of one event envelope.
 *
 * The pika calls are abstract steps: a `ConnectFault` names the first step of `connect` that
 * raises (or none), and a boolean says whether the transport accepts a `basic_publish`. What the
 * broker has seen is the log `broker` of the calls that completed.
 */
module Broker {
  import opened Wrappers
  import opened Json
  import Topic

  const DefaultHost := "localhost"
  const DefaultPort := 5672
  const DefaultUser := "guest"
  const DefaultPassword := "guest"

  const Exchange := "logistic_events"
  const WarehouseQueue := "warehouse_events"
  const ShipmentQueue := "shipment_events"

  /** `delivery_mode=2`: the broker persists the message. */
  const Persistent := 2

  /** The two queue bindings `connect` declares. */
  function Bindings(): seq<Topic.Binding> {
    [Topic.Binding(WarehouseQueue, "warehouse.*"), Topic.Binding(ShipmentQueue, "shipment.*")]
  }

  /** A call that reached the broker and completed. */
  datatype BrokerCall =
    | ExchangeDeclared(exchange: string, exchangeType: string, durable: bool)
    | QueueDeclared(queue: string, durable: bool)
    | QueueBound(exchange: string, queue: string, bindingKey: string)
    | Published(exchange: string, routingKey: string, body: Value, deliveryMode: int, headers: map<string, string>)
    | ConsumerRegistered(queue: string)
    | Acked(deliveryTag: nat)
    | Nacked(deliveryTag: nat, requeue: bool)

  /**
   * The declarations of a complete `connect`, in order: a topic exchange (pika's default,
   * not durable), two durable queues, and one binding per queue.
   */
  function Topology(): (t: seq<BrokerCall>)
    ensures |t| == 5
    ensures forall b :: b in Bindings() ==> QueueBound(Exchange, b.queue, b.pattern) in t
  {
    [ ExchangeDeclared(Exchange, "topic", false),
      QueueDeclared(WarehouseQueue, true),
      QueueDeclared(ShipmentQueue, true),
      QueueBound(Exchange, WarehouseQueue, Bindings()[0].pattern),
      QueueBound(Exchange, ShipmentQueue, Bindings()[1].pattern) ]
  }

  /** The steps of `connect` that can raise, in the order they run. */
  datatype ConnectStep =
    | OpenConnection        // credentials, parameters and `BlockingConnection`
    | OpenChannel
    | DeclareExchange
    | DeclareWarehouseQueue
    | DeclareShipmentQueue
    | BindWarehouseQueue
    | BindShipmentQueue

  /** Which step of a `connect` raises, if any. */
  datatype ConnectFault = NoFault | FaultAt(step: ConnectStep)

  /** How many of the declarations of Topology complete before the fault. */
  function DeclarationsDone(fault: ConnectFault): (n: nat)
    ensures n <= |Topology()|
    ensures n == |Topology()| <==> fault == NoFault
  {
    match fault
    case NoFault => 5
    case FaultAt(step) =>
      match step
      case OpenConnection => 0
      case OpenChannel => 0
      case DeclareExchange => 0
      case DeclareWarehouseQueue => 1
      case DeclareShipmentQueue => 2
      case BindWarehouseQueue => 3
      case BindShipmentQueue => 4
  }

  /** Does the fault strike before the transport is assigned to the `connection` field? */
  predicate FailsBeforeConnection(fault: ConnectFault) {
    fault == FaultAt(OpenConnection)
  }

  /** Does the fault strike before the channel is assigned to the `channel` field? */
  predicate FailsBeforeChannel(fault: ConnectFault) {
    fault == FaultAt(OpenConnection) || fault == FaultAt(OpenChannel)
  }

  /** A transport, numbered in the order the process opened it. */
  datatype Connection = Connection(serial: nat)

  /** A channel, on the transport with the given number. */
  datatype Channel = Channel(connectionSerial: nat)

  /** The body of a published message: exactly these four keys. */
  function Envelope(operationName: string, eventData: Object, timestamp: string, routingKey: string): (m: Object)
    ensures m.Keys == {"operation_name", "event_data", "timestamp", "routing_key"}
    ensures m["event_data"] == Obj(eventData) && m["routing_key"] == Str(routingKey)
    ensures m["operation_name"] == Str(operationName) && m["timestamp"] == Str(timestamp)
  {
    map["operation_name" := Str(operationName), "event_data" := Obj(eventData),
        "timestamp" := Str(timestamp), "routing_key" := Str(routingKey)]
  }

  /** The one `basic_publish` of `publish_event`. */
  function Message(routingKey: string, eventData: Object, operationName: string, timestamp: string): (c: BrokerCall)
    ensures c.Published? && c.exchange == Exchange && c.routingKey == routingKey
    ensures c.deliveryMode == Persistent && c.headers == map["operation-name" := operationName]
    ensures c.body == Obj(Envelope(operationName, eventData, timestamp, routingKey))
  {
    Published(Exchange, routingKey, Obj(Envelope(operationName, eventData, timestamp, routingKey)),
              Persistent, map["operation-name" := operationName])
  }

  class RabbitMQConnection {
    const host: string
    const port: int
    const username: string
    const password: string

    var connection: Option<Connection>
    var channel: Option<Channel>
    /** How many transports have been opened; transport n is the n-th. */
    var transports: nat
    /** The transports that `disconnect` has closed. */
    var closed: set<nat>
    /** The calls the broker has completed for this object. */
    var broker: seq<BrokerCall>

    ghost predicate Valid()
      reads this
    {
      && (connection.Some? ==> 1 <= connection.value.serial <= transports)
      && (channel.Some? ==> 1 <= channel.value.connectionSerial <= transports)
      && (forall n :: n in closed ==> 1 <= n <= transports)
    }

    /** Can the channel still carry a publish (its transport has not been closed)? */
    predicate ChannelOpen()
      reads this
    {
      channel.Some? && channel.value.connectionSerial !in closed
    }

    constructor (host: string, port: int, username: string, password: string)
      ensures Valid()
      ensures this.host == host && this.port == port && this.username == username && this.password == password
      ensures connection == None && channel == None && transports == 0 && closed == {} && broker == []
    {
      this.host, this.port, this.username, this.password := host, port, username, password;
      connection, channel, transports, closed, broker := None, None, 0, {}, [];
    }

    /**
     * `connect`: never raises; reports success. Every call opens a new transport, so calling it
     * again while connected replaces both fields. A fault keeps whatever the fields held before
     * the step that raised.
     */
    method Connect(fault: ConnectFault) returns (ok: bool)
      requires Valid()
      modifies this
      ensures Valid()
      ensures ok <==> fault == NoFault
      ensures ConnectEffect(fault)
    {
      if fault.FaultAt? && fault.step.OpenConnection? { return false; }
      transports := transports + 1;
      connection := Some(Connection(transports));
      if fault.FaultAt? && fault.step.OpenChannel? { return false; }
      channel := Some(Channel(transports));
      if fault.FaultAt? && fault.step.DeclareExchange? { return false; }
      broker := broker + [ExchangeDeclared(Exchange, "topic", false)];
      if fault.FaultAt? && fault.step.DeclareWarehouseQueue? { return false; }
      broker := broker + [QueueDeclared(WarehouseQueue, true)];
      if fault.FaultAt? && fault.step.DeclareShipmentQueue? { return false; }
      broker := broker + [QueueDeclared(ShipmentQueue, true)];
      if fault.FaultAt? && fault.step.BindWarehouseQueue? { return false; }
      broker := broker + [QueueBound(Exchange, WarehouseQueue, "warehouse.*")];
      if fault.FaultAt? && fault.step.BindShipmentQueue? { return false; }
      broker := broker + [QueueBound(Exchange, ShipmentQueue, "shipment.*")];
      return true;
    }

    /** The new state after one `connect` that meets `fault`. */
    twostate predicate ConnectEffect(fault: ConnectFault)
      reads this
    {
      && ConnectFields(fault)
      && broker == old(broker) + Topology()[..DeclarationsDone(fault)]
    }

    /** The fields after one `connect` that meets `fault`: each keeps its old value if the step that assigns it did not run. */
    twostate predicate ConnectFields(fault: ConnectFault)
      reads this
    {
      && closed == old(closed)
      && (if FailsBeforeConnection(fault)
          then transports == old(transports) && connection == old(connection)
          else transports == old(transports) + 1 && connection == Some(Connection(transports)))
      && (if FailsBeforeChannel(fault) then channel == old(channel) else channel == Some(Channel(transports)))
    }

    /** `disconnect`: closes the transport if there is an open one; the fields keep their values. */
    method Disconnect()
      requires Valid()
      modifies this
      ensures Valid()
      ensures connection == old(connection) && channel == old(channel) && transports == old(transports)
      ensures broker == old(broker)
      ensures closed == if connection.Some? then old(closed) + {connection.value.serial} else old(closed)
    {
      if connection.Some? && connection.value.serial !in closed {
        closed := closed + {connection.value.serial};
      }
    }

    /**
     * `publish_event`: with no channel, one lazy `connect`, and no send when it fails; then one
     * `basic_publish`, which fails when the transport refuses it or the channel was closed.
     */
    method PublishEvent(routingKey: string, eventData: Object, operationName: string,
                        timestamp: string, fault: ConnectFault, transportOk: bool) returns (ok: bool)
      requires Valid()
      modifies this
      ensures Valid()
      ensures PublishEffect(routingKey, eventData, operationName, timestamp, fault, transportOk, ok)
    {
      if channel.None? {
        var connected := Connect(fault);
        if !connected { return false; }
      }
      var message := Message(routingKey, eventData, operationName, timestamp);
      if transportOk && channel.value.connectionSerial !in closed {
        broker := broker + [message];
        return true;
      }
      return false;
    }

    /** The result and new state of one `publish_event`. */
    twostate predicate PublishEffect(routingKey: string, eventData: Object, operationName: string,
                                     timestamp: string, fault: ConnectFault, transportOk: bool, ok: bool)
      reads this
    {
      var send := Message(routingKey, eventData, operationName, timestamp);
      if old(channel).Some? then
        && connection == old(connection) && channel == old(channel)
        && transports == old(transports) && closed == old(closed)
        && ok == (transportOk && old(ChannelOpen()))
        && broker == old(broker) + (if ok then [send] else [])
      else
        && ConnectFields(fault)
        && ok == (fault == NoFault && transportOk)
        && broker == old(broker) + Topology()[..DeclarationsDone(fault)] + (if ok then [send] else [])
    }
  }
}
