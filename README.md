# Logistics event layer: a Dafny model

This project models the event layer of a small FastAPI logistics service (warehouses and
shipments) that tells other instances about its writes through RabbitMQ:

- `RabbitMQConnection` is the broker connection. `connect` declares the `logistic_events` topic
  exchange, two durable queues and their `warehouse.*` / `shipment.*` bindings. `publish_event`
  connects lazily and sends a four-key JSON envelope. `disconnect` closes the transport.
- `EventProducer` is the fixed table from (resource, stage) to the routing key `<resource>.<stage>`.
- The topic bindings follow section 3.1.3.3 of the AMQP 0-9-1 specification: `*` matches one
  word and `#` matches zero or more.
- The consumer callback handles one delivery: parse, default the missing fields, classify by
  prefix, then send exactly one ack or one nack without requeue.
- `WarehouseService` and `ShipmentService` are CRUD operations on two tables. Every successful
  write makes exactly one `EventProducer` call on the shared connection. Its result is ignored,
  so a failed publish loses the event.
- `ReplicationMiddleware.dispatch` turns the `X-Replicated-From` header into the request-state
  fields `is_replicated` and `source_server`.
- `start_server.py` validates the server id, loads `.env.server_<id>`, forces `SERVER_ID` and
  picks the port.

Modules, one concept each:

| file | module | contents |
|---|---|---|
| `wrappers.dfy` | `Wrappers` | `Option` |
| `json.dfy` | `Json` | JSON values, `dict.get` |
| `topic.dfy` | `Topic` | routing-key words, topic matching, routing over bindings |
| `broker.dfy` | `Broker` | the topology, the envelope and the `RabbitMQConnection` class |
| `producer.dfy` | `Producer` | the key table, routing lemmas, one `EventProducer` call |
| `consumer.dfy` | `Consumer` | the pure handler, the settlement, the `EventConsumer` class |
| `logistic.dfy` | `Logistic` | ORM records, request schemas, `exclude_unset` update semantics |
| `services.dfy` | `Services` | the `Store` class (two tables, an event log, the connection) |
| `middleware.dfy` | `Middleware` | header lookup, the replication context, `Dispatch` |
| `launcher.dfy` | `Launcher` | id check, port map, env-line parser, the env-loading loop |

How the model stands in for the environment and external libraries:

- Every pika step that can raise is an input. A `ConnectFault` names the first `connect` step
  that raises. A boolean says whether `basic_publish` goes through.
- What the broker has received is the log `broker` of completed calls. Transports are numbered,
  so the model can tell which transport `disconnect` closed.
- A table is a sequence in rowid order, which is the order SQLite returns rows for an unordered
  `offset`/`limit` query. A new row's id is SQLite's rowid choice: one more than the largest id,
  or 1 in an empty table.
- A column that an update may null is an `Option`. A NOT NULL violation, or a duplicate
  `tracking_number`, makes the commit fail (`IntegrityError`). The model then changes nothing
  and publishes nothing.
- Deleting a warehouse sets `warehouse_id` to null on its shipments, which is what the
  relationship does without a delete cascade. Their `updated_at` is stamped. `updated_at`'s
  `onupdate` fires only when some column actually changed.
- The code has no per-peer fan-out, no source/target check and no HTTP replay. The services
  publish whether or not the request carries the replication marker; they never read
  `is_replicated`.

## Model

| member | source | states |
|---|---|---|
| Topic.Route | app/core/rabbitmq.py:30-36 | a topic exchange delivers to the queue of every binding whose key matches the routing key, and to no other queue |
| Topic.StarBindingMatches | app/core/rabbitmq.py:35-36 | a binding `p.*` matches exactly the two-word keys whose first word is `p`; every key it matches is `p.<dot-free word>` |
| Topic.StarBindingSelects | app/core/rabbitmq.py:35-36 | `p.w` is matched by `p.*` and by no other `q.*` |
| Topic.JoinSplit | app/core/rabbitmq.py:35-36 | splitting a key into dot-separated words and joining them again gives the key back |
| Topic.Matches | app/core/rabbitmq.py:35-36 | the topic rule on word lists: `*` takes exactly one word, `#` any number of words including none, and any other binding word must equal the key's word |
| Topic.KeyMatches | app/core/rabbitmq.py:35-36 | a binding key matches a routing key when their dot-separated words match under that rule |
| Broker.Topology | app/core/rabbitmq.py:29-36 | a full connect declares five things: the non-durable topic exchange, two durable queues and the two bindings, each binding included |
| Broker.DeclarationsDone | app/core/rabbitmq.py:26-42 | the number of declarations that complete before a fault; all five complete exactly when no step raises |
| Broker.Envelope | app/core/rabbitmq.py:56-61 | the body has exactly the keys operation_name, event_data, timestamp and routing_key; the data and the key are the arguments, unchanged |
| Broker.Message | app/core/rabbitmq.py:63-71 | the send goes to `logistic_events` with the given key, delivery mode 2 and the header `operation-name` set to the operation name |
| Broker.RabbitMQConnection.constructor | app/core/rabbitmq.py:10-16 | keeps the four settings; no connection and no channel yet |
| Broker.RabbitMQConnection.Connect | app/core/rabbitmq.py:18-42 | never raises; true iff no step raised; every call opens a new transport and replaces the fields; a fault keeps the values from before the failing step, so a fault after line 27 leaves the channel set; the broker gets exactly the declarations made before the fault |
| Broker.RabbitMQConnection.Disconnect | app/core/rabbitmq.py:44-47 | closes the current transport if there is one; both fields keep their values |
| Broker.RabbitMQConnection.PublishEvent | app/core/rabbitmq.py:49-76 | with a channel: no reconnect, and one send that succeeds iff the transport accepts it and the channel's transport is not closed; with no channel: exactly one connect, and nothing is sent if it fails |
| Producer.RoutingKey | app/core/rabbitmq.py:84-105 | the six producer methods publish under `warehouse.created`, `warehouse.updated`, `warehouse.deleted`, `shipment.created`, `shipment.updated` and `shipment.deleted` |
| Producer.RoutingKeyWords | app/core/rabbitmq.py:84-105 | each producer key is the two words resource and stage |
| Producer.RoutingKeyInjective | app/core/rabbitmq.py:84-105 | the six keys are pairwise distinct, so a key names its producer method |
| Producer.RoutesToOwnQueue | app/core/rabbitmq.py:35-36 | under the declared bindings, every producer key reaches exactly its resource's queue |
| Producer.RouteByFirstWord | app/core/rabbitmq.py:35-36 | any key reaches `warehouse_events` iff it is `warehouse.<word>`, and `shipment_events` iff it is `shipment.<word>` |
| Producer.RouteSingleQueue | app/core/rabbitmq.py:35-36 | no key reaches both queues |
| Producer.Emit | app/core/rabbitmq.py:82-105 | an `EventProducer` method publishes the event's data and operation name, unchanged, under its key, and returns the publish result |
| Json.Get | app/core/rabbitmq.py:120-122 | `dict.get`: the stored value when the key is present, the default otherwise |
| Consumer.ProcessEvent | app/core/rabbitmq.py:141-148 | the warehouse branch runs iff the key starts with `warehouse.`; the shipment branch only for keys starting with `shipment.`; the unknown branch iff neither prefix |
| Consumer.Handle | app/core/rabbitmq.py:117-128 | a body that is not JSON or not an object fails; otherwise it is processed iff the routing key is absent or text, and then the key, operation name and data are the fields read with their defaults and the branch is `process_event`'s |
| Consumer.Settle | app/core/rabbitmq.py:131-135 | the settlement is one ack with the delivery tag iff processing succeeded, and one nack without requeue iff it failed |
| Consumer.PrefixesExclusive | app/core/rabbitmq.py:143-148 | no key has both prefixes, so the order of the two tests does not matter; the shipment branch runs iff the key starts with `shipment.` |
| Consumer.ProducerKeyClassified | app/core/rabbitmq.py:141-148 | every producer key is classified as its own resource's event |
| Consumer.RoutedKeyClassified | app/core/rabbitmq.py:141-148 | a key that the bindings deliver to a queue is classified as that queue's resource |
| Consumer.SettleExactlyOnce | app/core/rabbitmq.py:117-135 | each delivery gets one ack when processing succeeds and otherwise one nack without requeue; processing succeeds iff the body is a JSON object whose routing key is absent or text |
| Consumer.HandleDefaults | app/core/rabbitmq.py:119-122 | missing fields read as `"unknown"`, `{}` and `""`; fields that are present are read as they are |
| Consumer.PublishedEnvelopeProcessed | app/core/rabbitmq.py:117-131 | an envelope as `publish_event` builds it is processed, acked and classified as its resource's event, and gives back the key, operation name and data that were sent |
| Consumer.EventConsumer.constructor | app/core/rabbitmq.py:109-110 | a new connection with the default host, port, user name and password (`guest`/`guest`), not yet connected: no connection, no channel, no transport opened or closed, nothing sent |
| Consumer.EventConsumer.StartConsuming | app/core/rabbitmq.py:112-139 | one fresh connect; the callback is registered only when the connect succeeded and `basic_consume` did not raise |
| Consumer.EventConsumer.OnMessage | app/core/rabbitmq.py:117-135 | handles the delivery, then settles it on the channel exactly once |
| Logistic.WarehouseItems | app/services/logistic_service.py:46-47 | `dict(exclude_unset=True)`: a sent field, null included, has an entry carrying the sent value |
| Logistic.ShipmentItems | app/services/logistic_service.py:130-131 | `dict(exclude_unset=True)`: each sent field, null included, has an entry carrying the sent value |
| Logistic.WarehouseItemsSent | app/services/logistic_service.py:46-47 | every entry is a sent field with the value that was sent |
| Logistic.ShipmentItemsSent | app/services/logistic_service.py:130-131 | every entry is a sent field with the value that was sent |
| Logistic.ApplyWarehouse | app/services/logistic_service.py:47-48 | the `setattr` loop never changes the id or `created_at` |
| Logistic.ApplyShipment | app/services/logistic_service.py:131-132 | the `setattr` loop never changes the id, the tracking number or the stamps |
| Logistic.PatchWarehouse | app/services/logistic_service.py:46-48 | every sent field gets the sent value (null included); every other field, the id and `created_at` are kept |
| Logistic.PatchShipment | app/services/logistic_service.py:130-132 | the same for shipments; the tracking number and both timestamps are kept |
| Logistic.ApplyWarehouseItems | app/services/logistic_service.py:46-48 | the `setattr` loop over the `exclude_unset` items gives the patched record |
| Logistic.ApplyShipmentItems | app/services/logistic_service.py:130-132 | the same for shipments |
| Logistic.WarehouseItemKeys | app/services/logistic_service.py:46-59 | `list(update_data.keys())` holds exactly the names of the sent fields, each once |
| Logistic.ShipmentItemKeys | app/services/logistic_service.py:130-147 | the same for shipments, with `warehouse_id` for the foreign key |
| Logistic.ShipmentKeysInOrder | app/schemas/logistic.py:40-45 | the names come in the schema's declaration order |
| Services.WarehouseSnapshot | app/services/logistic_service.py:72-76 | a warehouse event holds exactly id, name and location, taken from the row |
| Services.ShipmentSnapshot | app/services/logistic_service.py:160-168 | a shipment event holds exactly the seven columns besides the timestamps, taken from the row |
| Services.WarehouseCreatedPayload | app/services/logistic_service.py:21-26 | `warehouse.created` has exactly the snapshot's keys plus `created_at`, each with the row's value |
| Services.WarehouseUpdatedPayload | app/services/logistic_service.py:55-60 | `warehouse.updated` has exactly the snapshot's keys, with the row's values, plus `updated_fields`, the list of the sent field names |
| Services.ShipmentCreatedPayload | app/services/logistic_service.py:97-106 | `shipment.created` has exactly the seven snapshot keys plus `created_at`, each with the row's value |
| Services.ShipmentUpdatedPayload | app/services/logistic_service.py:139-148 | `shipment.updated` has exactly the seven snapshot keys, with the row's values, plus `updated_fields`, the list of the sent field names |
| Services.UpdatedFieldsAreSentFields | app/services/logistic_service.py:54-62 | `updated_fields` lists each sent field once and nothing else; the other keys are the committed row |
| Services.Page | app/services/logistic_service.py:37-38 | `offset`/`limit` in SQLite: at most `limit` rows, consecutive from the offset; a negative offset counts as 0 and a negative limit means no limit |
| Services.NextWarehouseIdFresh | app/models/logistic.py:10 | a new warehouse's id is positive and used by no row |
| Services.NextShipmentIdFresh | app/models/logistic.py:22 | a new shipment's id is positive and used by no row |
| Services.AppendShipmentRow | app/models/logistic.py:22-26 | appending a row with a new id, filled NOT NULL columns and an unused tracking number keeps the table valid |
| Services.NewShipment | app/models/logistic.py:27 | a created shipment has status `pending`, takes the id it is given, copies the tracking number, origin, destination, weight and warehouse from the request, carries `now` in both stamps, and satisfies the NOT NULL constraints |
| Services.NewWarehouse | app/services/logistic_service.py:13 | a created warehouse takes the given id, the request's name and location and `now` as `created_at`, and satisfies the NOT NULL constraints |
| Services.Touch | app/models/logistic.py:30 | `onupdate`: only `updated_at` may differ from the assigned row, and it is `now` exactly when some column changed |
| Services.Detach | app/models/logistic.py:16 | deleting a warehouse nulls `warehouse_id` and stamps `updated_at` on exactly the shipments that referenced it |
| Services.DetachClearsReferences | app/models/logistic.py:28-33 | afterwards no shipment references the warehouse, every other column is kept, and the table stays valid |
| Services.Store.CommitAndPublish | app/services/logistic_service.py:78-82 | the commit installs the new tables, and exactly one `EventProducer` call follows whatever it returns |
| Services.Store.GetWarehouse | app/services/logistic_service.py:33-34 | returns a row with the id, or none when no row has it |
| Services.Store.ListWarehouses | app/services/logistic_service.py:37-38 | returns at most `limit` warehouses, in table order from offset `skip` |
| Services.Store.CreateWarehouse | app/services/logistic_service.py:13-30 | inserts one row under a fresh id and sends one `warehouse.created` event with the row's data |
| Services.Store.UpdateWarehouse | app/services/logistic_service.py:41-64 | a missing id changes nothing and sends nothing; a null in a NOT NULL column fails the commit; otherwise only this row changes, to the patched record, and one `warehouse.updated` event is sent |
| Services.Store.DeleteWarehouse | app/services/logistic_service.py:67-84 | a missing id gives false and changes nothing; otherwise exactly that row is removed, its shipments are detached, and the pre-delete snapshot is sent |
| Services.Store.GetShipment | app/services/logistic_service.py:113-114 | returns a row with the id, or none when no row has it |
| Services.Store.ListShipments | app/services/logistic_service.py:117-118 | returns at most `limit` shipments, in table order from offset `skip` |
| Services.Store.GetShipmentByTracking | app/services/logistic_service.py:121-122 | returns a row with the tracking number, or none when no row has it |
| Services.Store.CreateShipment | app/services/logistic_service.py:89-110 | a tracking number already in use fails the commit and changes nothing; otherwise one `pending` row is inserted under a fresh id and one `shipment.created` event is sent |
| Services.Store.UpdateShipment | app/services/logistic_service.py:125-152 | like the warehouse update; `updated_at` is stamped iff some column changed |
| Services.Store.DeleteShipment | app/services/logistic_service.py:155-176 | a missing id gives false and changes nothing; otherwise exactly that row is removed and the pre-delete snapshot is sent |
| Middleware.Header | app/core/middleware.py:12 | the value of the first header with the name, or none when there is none |
| Middleware.ReplicationContext | app/core/middleware.py:12-21 | replicated iff the header is present and non-empty, with that value as the source; otherwise not replicated and no source |
| Middleware.FirstHeaderDecides | app/core/middleware.py:12 | later `X-Replicated-From` headers never change the outcome |
| Middleware.OtherHeadersIgnored | app/core/middleware.py:12 | a header with another name, inserted at any position, does not change the outcome |
| Middleware.Downstream.Call | app/core/middleware.py:23 | the application sees the request state once and gives its response |
| Middleware.Dispatch | app/core/middleware.py:10-24 | both state fields are assigned before the application runs; the application runs exactly once; its response is returned unchanged |
| Launcher.UpperOneLetter | start_server.py:19-21 | the upper-cased argument is a server id iff the argument is one of the eight one-letter spellings |
| Launcher.ServerId | start_server.py:14-24 | exit status 1 with fewer than two arguments or an invalid id; otherwise the upper-cased id, one of A to D |
| Launcher.Port | start_server.py:40-41 | server `A` to `D` at position `i` gets port 8000 + i, and any other id gets 8000 |
| Launcher.PortsDistinct | start_server.py:40-41 | server i listens on 8000 + i, so no two servers share a port |
| Launcher.EnvFileName | start_server.py:27 | the file name is `.env.server_` followed by the id in lower case |
| Launcher.EnvFileNames | start_server.py:27 | each server reads its own file, `.env.server_a` to `.env.server_d` |
| Launcher.Strip | start_server.py:33-34 | the result is the slice of the input that starts after the leading stripped characters; it has no stripped character at either end, and every position holding a character that is not stripped lies inside it, which is `str.strip` |
| Launcher.SplitAtEquals | start_server.py:33 | split at the first `=`: the key has no `=`, and key + `=` + rest gives the line back |
| Launcher.ParseLine | start_server.py:32-34 | a line is used iff its raw text contains `=` and does not start with `#`; the key is the stripped line up to its first `=`; the value is the rest with quotes and brackets stripped from both ends |
| Launcher.Settable | start_server.py:34 | an assignment fails exactly when the name is empty (`OSError`) or the name or the value holds a NUL character (`ValueError`) |
| Launcher.LoadLines | start_server.py:31-34 | loading the lines only adds or overwrites variables; it never removes one |
| Launcher.LoadLinesCrash | start_server.py:31-34 | the load stops with an error exactly when some line's assignment raises |
| Launcher.LoadLinesAppend | start_server.py:30-34 | loading the file in two parts is the same as loading it at once |
| Launcher.LastAssignmentWins | start_server.py:31-34 | one line at a time: a skipped line changes nothing, a line `k=v` maps `k` to `v`, and an assignment that raises stops the loop |
| Launcher.LastAssignmentDecides | start_server.py:31-34 | for a key, the last line that assigns it decides its value: lines after it that assign other keys keep it, up to the end of the file or the first assignment that raises |
| Launcher.Environment.LoadFile | start_server.py:28-34 | the loop leaves the environment equal to the line-by-line fold of the file, and fails exactly when an assignment raises |
| Launcher.StartServer | start_server.py:13-41 | an invalid id exits with status 1 and changes nothing; otherwise the env file is loaded, `SERVER_ID` is forced to the id whatever the file said, and the server runs on the mapped port |

## Left out

- The pika transport, RabbitMQ itself, and their failures are not modelled. They appear as the
  `ConnectFault` and the boolean inputs. A failed connect leaves a transport opened by the step
  before it, as pika does; the model does not clean it up either.
- The blocking `start_consuming` loop is not modelled. `OnMessage` models one delivery at a time.
  Failures of `basic_ack` and `basic_nack` themselves are not modelled.
- `json.dumps` and `json.loads` are not modelled. The consumer receives the parsed document, or
  `None` for a body that is not JSON. `PublishedEnvelopeProcessed` assumes that `json.loads`
  gives back what `json.dumps` wrote.
- `datetime.utcnow()` is not modelled. Timestamps are opaque strings given as inputs. One
  operation gets one `now`, where the program calls `datetime.utcnow()` separately for each
  column default and for each row's `onupdate`. That a new shipment's `created_at` equals its
  `updated_at`, and that the shipments detached by one delete share a stamp, holds in the
  model but not necessarily in the program.
- Ids are unbounded integers. SQLite's rowid choice differs once the largest rowid reaches the
  64-bit maximum: it then picks an unused rowid at random, or fails with `SQLITE_FULL`. The
  model always uses one more than the largest id.
- `weight` is an opaque float. Its numeric value plays no part.
- The SQLAlchemy session and SQLite are replaced by the two sequences in `Store`. Concurrent
  sessions are not modelled. The refresh after a commit is the identity.
- SQLite does not enforce foreign keys by default, so a `warehouse_id` that names no warehouse
  is accepted, as in the code.
- A commit that fails raises out of the service, so the HTTP layer answers with an error. The
  model returns `IntegrityError` and leaves the tables as they were, which is the state after
  the rollback.
- Upper and Lower map ASCII letters only. No non-ASCII character upper-cases to `A`-`D`, so the
  set of accepted ids is the same.
- Header names are taken as already lower-cased, as the ASGI server delivers them. Logging is
  not modelled.
- Printing and `uvicorn.run` in `start_server.py` are not modelled. The launcher ends in `Serve`
  with the id and port. The file system is a map from file name to the file's lines.
- `os.environ` assignment raises `OSError` for an empty name and `ValueError` for a NUL
  character. Neither is caught, so the process exits with status 1. The model takes these as
  the only ways an assignment fails. Encoding errors are not modelled.
- The FastAPI routers and app setup (app/api/api_v1/api.py, the endpoint modules, app/main.py)
  are not part of this model. They map None and False to 404 and nothing more.
- `Settings` (app/core/config.py) is not part of this model. It holds static constants and
  has no server id or peer list.
- app/consumer.py is not part of this model. It imports `DistributedEventConsumer`, which
  app/core/rabbitmq.py does not define.
- test_system.py and app/tests/test_ping.py are not part of this model. They are live HTTP
  scripts.
- Per-peer fan-out, source/target authorisation, HTTP replay and the suppression of
  publication for replicated requests are not modelled. The code contains none of them.
- Services.Store.CommitAndPublish: the body sends before it installs the new tables, while the
  services commit first. The two touch disjoint state, so the final state is the same, but the
  interleaving is not modelled.
