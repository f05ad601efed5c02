/**
 * `WarehouseService` and `ShipmentService` over one in-memory database: two tables kept in
 * rowid order (what an unordered `offset`/`limit` query returns in SQLite) and the log of the
 * events the services hand to `EventProducer`. Every successful create, update and delete
 * appends exactly one event; a missing id or a rejected commit appends none and changes nothing.
 */
module Services {
  import opened Wrappers
  import opened Json
  import opened Logistic
  import Producer
  import Broker

  function Text(o: Option<string>): Value {
    match o
    case Some(s) => Str(s)
    case None => Null
  }

  function Number(o: Option<Float>): Value {
    match o
    case Some(f) => Num(f)
    case None => Null
  }

  function Integer(o: Option<int>): Value {
    match o
    case Some(i) => Int(i)
    case None => Null
  }

  /** A JSON list of field names. */
  function NameList(names: seq<string>): (v: Value)
    ensures v.Arr? && |v.items| == |names|
    ensures forall i :: 0 <= i < |names| ==> v.items[i] == Str(names[i])
  {
    Arr(seq(|names|, i requires 0 <= i < |names| => Str(names[i])))
  }

  /** The warehouse fields every event carries. */
  function WarehouseSnapshot(w: Warehouse): (p: Object)
    ensures p.Keys == {"id", "name", "location"}
    ensures p["id"] == Int(w.id) && p["name"] == Text(w.name) && p["location"] == Text(w.location)
  {
    map["id" := Int(w.id), "name" := Text(w.name), "location" := Text(w.location)]
  }

  /** The shipment fields every event carries. */
  function ShipmentSnapshot(s: Shipment): (p: Object)
    ensures p.Keys == {"id", "tracking_number", "origin", "destination", "weight", "status", "warehouse_id"}
    ensures p["id"] == Int(s.id) && p["tracking_number"] == Str(s.trackingNumber)
    ensures p["origin"] == Text(s.origin) && p["destination"] == Text(s.destination)
    ensures p["weight"] == Number(s.weight) && p["status"] == Text(s.status)
    ensures p["warehouse_id"] == Integer(s.warehouseId)
  {
    map["id" := Int(s.id), "tracking_number" := Str(s.trackingNumber), "origin" := Text(s.origin),
        "destination" := Text(s.destination), "weight" := Number(s.weight), "status" := Text(s.status),
        "warehouse_id" := Integer(s.warehouseId)]
  }

  /** The payload of `warehouse.created`: the snapshot and the creation time. */
  function WarehouseCreatedPayload(w: Warehouse): (p: Object)
    ensures p.Keys == {"id", "name", "location", "created_at"}
    ensures forall k :: k in WarehouseSnapshot(w) ==> p[k] == WarehouseSnapshot(w)[k]
    ensures p["created_at"] == Str(w.createdAt)
  {
    WarehouseSnapshot(w)["created_at" := Str(w.createdAt)]
  }

  /** The payload of `warehouse.updated`: the new snapshot and the names of the sent fields. */
  function WarehouseUpdatedPayload(w: Warehouse, u: WarehouseUpdate): (p: Object)
    ensures p.Keys == {"id", "name", "location", "updated_fields"}
    ensures forall k :: k in WarehouseSnapshot(w) ==> p[k] == WarehouseSnapshot(w)[k]
    ensures p["updated_fields"] == NameList(Keys(WarehouseItems(u), WarehouseFieldName))
  {
    WarehouseSnapshot(w)["updated_fields" := NameList(Keys(WarehouseItems(u), WarehouseFieldName))]
  }

  /** The payload of `shipment.created`: the snapshot and the creation time. */
  function ShipmentCreatedPayload(s: Shipment): (p: Object)
    ensures p.Keys == {"id", "tracking_number", "origin", "destination", "weight", "status", "warehouse_id", "created_at"}
    ensures forall k :: k in ShipmentSnapshot(s) ==> p[k] == ShipmentSnapshot(s)[k]
    ensures p["created_at"] == Str(s.createdAt)
  {
    ShipmentSnapshot(s)["created_at" := Str(s.createdAt)]
  }

  /** The payload of `shipment.updated`: the new snapshot and the names of the sent fields. */
  function ShipmentUpdatedPayload(s: Shipment, u: ShipmentUpdate): (p: Object)
    ensures p.Keys == {"id", "tracking_number", "origin", "destination", "weight", "status", "warehouse_id", "updated_fields"}
    ensures forall k :: k in ShipmentSnapshot(s) ==> p[k] == ShipmentSnapshot(s)[k]
    ensures p["updated_fields"] == NameList(Keys(ShipmentItems(u), ShipmentFieldName))
  {
    ShipmentSnapshot(s)["updated_fields" := NameList(Keys(ShipmentItems(u), ShipmentFieldName))]
  }

  /**
   * The `updated_fields` of an update event are exactly the names of the fields the request
   * sent, each once; the other keys are the record as committed.
   */
  lemma UpdatedFieldsAreSentFields(w: Warehouse, wu: WarehouseUpdate, s: Shipment, su: ShipmentUpdate)
    ensures var v := WarehouseUpdatedPayload(w, wu)["updated_fields"];
      v.Arr? && |v.items| == |WarehouseSentFields(wu)| &&
      forall f :: Str(f) in v.items <==> f in WarehouseSentFields(wu)
    ensures var v := ShipmentUpdatedPayload(s, su)["updated_fields"];
      v.Arr? && |v.items| == |ShipmentSentFields(su)| &&
      forall f :: Str(f) in v.items <==> f in ShipmentSentFields(su)
    ensures forall k :: k in WarehouseSnapshot(w) ==> WarehouseUpdatedPayload(w, wu)[k] == WarehouseSnapshot(w)[k]
    ensures forall k :: k in ShipmentSnapshot(s) ==> ShipmentUpdatedPayload(s, su)[k] == ShipmentSnapshot(s)[k]
  {
    WarehouseItemKeys(wu);
    ShipmentItemKeys(su);
    var wn := Keys(WarehouseItems(wu), WarehouseFieldName);
    var sn := Keys(ShipmentItems(su), ShipmentFieldName);
    NameListMembers(wn);
    NameListMembers(sn);
    DistinctCount(wn, WarehouseSentFields(wu));
    DistinctCount(sn, ShipmentSentFields(su));
  }

  lemma NameListMembers(names: seq<string>)
    ensures forall f :: Str(f) in NameList(names).items <==> f in names
  {
    var v := NameList(names);
    forall f ensures Str(f) in v.items <==> f in names {
      if Str(f) in v.items {
        var i :| 0 <= i < |v.items| && v.items[i] == Str(f);
        assert names[i] == f;
      }
      if f in names {
        var i :| 0 <= i < |names| && names[i] == f;
        assert v.items[i] == Str(f);
      }
    }
  }

  /** A list without repeats is as long as the set of its elements. */
  lemma {:induction false} DistinctCount(names: seq<string>, members: set<string>)
    requires Distinct(names)
    requires forall f :: f in names <==> f in members
    ensures |names| == |members|
  {
    if |names| > 0 {
      var rest := names[1..];
      assert Distinct(rest) by {
        forall i, j | 0 <= i < j < |rest| ensures rest[i] != rest[j] {
          assert rest[i] == names[i + 1] && rest[j] == names[j + 1];
        }
      }
      forall f ensures f in rest <==> f in members - {names[0]} {
        if f in rest {
          var j :| 0 <= j < |rest| && rest[j] == f;
          assert names[j + 1] == f;
        }
        if f in names && f != names[0] {
          var j :| 0 <= j < |names| && names[j] == f;
          assert j != 0;
          assert rest[j - 1] == f;
        }
      }
      DistinctCount(rest, members - {names[0]});
    } else {
      assert forall f :: f !in members;
      assert members == {};
    }
  }

  /** The index of the first row satisfying `p`, or the table size when there is none. */
  function FirstIndex<T>(rows: seq<T>, p: T -> bool): (k: nat)
    ensures k <= |rows|
    ensures k < |rows| ==> p(rows[k])
    ensures forall j :: 0 <= j < k ==> !p(rows[j])
  {
    if |rows| == 0 then 0
    else if p(rows[0]) then 0
    else 1 + FirstIndex(rows[1..], p)
  }

  /** `query.filter(id == ...).first()` as a position. */
  function WarehouseIndex(rows: seq<Warehouse>, id: int): nat {
    FirstIndex(rows, (w: Warehouse) => w.id == id)
  }

  function ShipmentIndex(rows: seq<Shipment>, id: int): nat {
    FirstIndex(rows, (s: Shipment) => s.id == id)
  }

  /** Where SQLite starts reading for `OFFSET skip`: a negative offset counts as zero. */
  function Offset(skip: int, size: nat): (start: nat)
    ensures start <= size
    ensures 0 <= skip <= size ==> start == skip
  {
    if skip < 0 then 0 else if skip > size then size else skip
  }

  /** `query.offset(skip).limit(limit).all()` in SQLite: a negative limit means no limit. */
  function Page<T>(rows: seq<T>, skip: int, limit: int): (r: seq<T>)
    ensures var start := Offset(skip, |rows|);
      && |r| == (if limit < 0 || start + limit > |rows| then |rows| - start else limit)
      && start + |r| <= |rows|
      && forall i :: 0 <= i < |r| ==> r[i] == rows[start + i]
  {
    var rest := rows[Offset(skip, |rows|)..];
    if limit < 0 || limit > |rest| then rest else rest[..limit]
  }

  /** The rowid SQLite gives a new row: one more than the largest, 1 in an empty table. */
  function NextWarehouseId(rows: seq<Warehouse>): int {
    if |rows| == 0 then 1 else rows[|rows| - 1].id + 1
  }

  function NextShipmentId(rows: seq<Shipment>): int {
    if |rows| == 0 then 1 else rows[|rows| - 1].id + 1
  }

  /** The warehouses table: rowid order, positive ids, NOT NULL columns filled. */
  ghost predicate WarehouseTable(rows: seq<Warehouse>) {
    && (forall i, j :: 0 <= i < j < |rows| ==> rows[i].id < rows[j].id)
    && (forall i :: 0 <= i < |rows| ==> rows[i].id >= 1 && WarehouseNotNull(rows[i]))
  }

  /** The shipments table: as above, and `tracking_number` is unique. */
  ghost predicate ShipmentTable(rows: seq<Shipment>) {
    && (forall i, j :: 0 <= i < j < |rows| ==> rows[i].id < rows[j].id)
    && (forall i :: 0 <= i < |rows| ==> rows[i].id >= 1 && ShipmentNotNull(rows[i]))
    && (forall i, j :: 0 <= i < j < |rows| ==> rows[i].trackingNumber != rows[j].trackingNumber)
  }

  /** The id of a new warehouse is used by no row. */
  lemma NextWarehouseIdFresh(rows: seq<Warehouse>)
    requires WarehouseTable(rows)
    ensures NextWarehouseId(rows) >= 1
    ensures forall w :: w in rows ==> w.id < NextWarehouseId(rows)
  {
    forall w | w in rows ensures w.id < NextWarehouseId(rows) {
      var i :| 0 <= i < |rows| && rows[i] == w;
      assert i == |rows| - 1 || rows[i].id < rows[|rows| - 1].id;
    }
  }

  lemma NextShipmentIdFresh(rows: seq<Shipment>)
    requires ShipmentTable(rows)
    ensures NextShipmentId(rows) >= 1
    ensures forall s :: s in rows ==> s.id < NextShipmentId(rows)
  {
    forall s | s in rows ensures s.id < NextShipmentId(rows) {
      var i :| 0 <= i < |rows| && rows[i] == s;
      assert i == |rows| - 1 || rows[i].id < rows[|rows| - 1].id;
    }
  }

  /** Appending a row with a new, larger id and an unused tracking number keeps the table valid. */
  lemma AppendShipmentRow(rows: seq<Shipment>, s: Shipment)
    requires ShipmentTable(rows) && ShipmentNotNull(s) && s.id == NextShipmentId(rows)
    requires forall x :: x in rows ==> x.trackingNumber != s.trackingNumber
    ensures ShipmentTable(rows + [s])
  {
    NextShipmentIdFresh(rows);
    var r := rows + [s];
    assert forall i :: 0 <= i < |rows| ==> r[i] == rows[i] && rows[i] in rows;
  }

  /** The row `Warehouse(**warehouse.dict())` commits. */
  function NewWarehouse(id: int, c: WarehouseCreate, now: Timestamp): (w: Warehouse)
    ensures w.id == id && w.name == Some(c.name) && w.location == Some(c.location) && w.createdAt == now
    ensures WarehouseNotNull(w)
  {
    Warehouse(id, Some(c.name), Some(c.location), now)
  }

  /** The row `Shipment(**shipment.dict())` commits: the schema has no status, so the default applies. */
  function NewShipment(id: int, c: ShipmentCreate, now: Timestamp): (s: Shipment)
    ensures s.status == Some(DefaultStatus) && ShipmentNotNull(s)
    ensures s.id == id && s.trackingNumber == c.trackingNumber && s.warehouseId == Some(c.warehouseId)
    ensures s.origin == Some(c.origin) && s.destination == Some(c.destination) && s.weight == Some(c.weight)
    ensures s.createdAt == now && s.updatedAt == now
  {
    Shipment(id, c.trackingNumber, Some(c.origin), Some(c.destination), Some(c.weight),
             Some(DefaultStatus), Some(c.warehouseId), now, now)
  }

  /** `updated_at`'s `onupdate`: the flush stamps the time only when some column changed. */
  function Touch(before: Shipment, after: Shipment, now: Timestamp): (s: Shipment)
    ensures s.(updatedAt := after.updatedAt) == after
    ensures s.updatedAt == if after != before then now else before.updatedAt
  {
    if after != before then after.(updatedAt := now) else after
  }

  /**
   * Deleting a warehouse sets `warehouse_id` to null on the shipments that reference it (the
   * relationship has no delete cascade), which stamps their `updated_at`.
   */
  function Detach(rows: seq<Shipment>, warehouseId: int, now: Timestamp): (r: seq<Shipment>)
    ensures |r| == |rows|
    ensures forall i :: 0 <= i < |rows| ==>
      r[i] == if rows[i].warehouseId == Some(warehouseId) then rows[i].(warehouseId := None, updatedAt := now) else rows[i]
  {
    seq(|rows|, i requires 0 <= i < |rows| =>
      if rows[i].warehouseId == Some(warehouseId) then rows[i].(warehouseId := None, updatedAt := now) else rows[i])
  }

  /** After the delete no shipment references the warehouse, and every column but the two is kept. */
  lemma DetachClearsReferences(rows: seq<Shipment>, warehouseId: int, now: Timestamp)
    requires ShipmentTable(rows)
    ensures ShipmentTable(Detach(rows, warehouseId, now))
    ensures forall s :: s in Detach(rows, warehouseId, now) ==> s.warehouseId != Some(warehouseId)
    ensures forall i :: 0 <= i < |rows| ==>
      Detach(rows, warehouseId, now)[i].(warehouseId := rows[i].warehouseId, updatedAt := rows[i].updatedAt) == rows[i]
  {
  }

  /** Removing the row at `k` keeps the rest of the table in order. */
  lemma RemoveWarehouseRow(rows: seq<Warehouse>, k: nat)
    requires WarehouseTable(rows) && k < |rows|
    ensures WarehouseTable(rows[..k] + rows[k + 1..])
    ensures forall w :: w in rows[..k] + rows[k + 1..] ==> w.id != rows[k].id
  {
    var r := rows[..k] + rows[k + 1..];
    assert forall i :: 0 <= i < |r| ==> r[i] == rows[if i < k then i else i + 1];
  }

  lemma RemoveShipmentRow(rows: seq<Shipment>, k: nat)
    requires ShipmentTable(rows) && k < |rows|
    ensures ShipmentTable(rows[..k] + rows[k + 1..])
    ensures forall s :: s in rows[..k] + rows[k + 1..] ==> s.id != rows[k].id
  {
    var r := rows[..k] + rows[k + 1..];
    assert forall i :: 0 <= i < |r| ==> r[i] == rows[if i < k then i else i + 1];
  }

  /** How a write ended: committed, no such row (`None`/`False`), or a constraint the commit rejected. */
  datatype Outcome<T> = Done(value: T) | NotFound | IntegrityError

  class Store {
    var warehouses: seq<Warehouse>
    var shipments: seq<Shipment>
    /** The `EventProducer` calls made so far. */
    var events: seq<Producer.Event>
    /** The module-level `rabbitmq` connection every `EventProducer` call publishes through. */
    const conn: Broker.RabbitMQConnection

    ghost predicate Valid()
      reads this, conn
    {
      WarehouseTable(warehouses) && ShipmentTable(shipments) && conn.Valid()
    }

    constructor (conn: Broker.RabbitMQConnection)
      requires conn.Valid()
      ensures Valid() && warehouses == [] && shipments == [] && events == [] && this.conn == conn
    {
      warehouses, shipments, events := [], [], [];
      this.conn := conn;
    }

    /**
     * `db.commit()` of the new table contents followed by one `EventProducer` call, whose
     * result is dropped. The body sends first: the commit touches no state of the connection,
     * so the two orders end in the same state.
     */
    method CommitAndPublish(ws: seq<Warehouse>, ss: seq<Shipment>, e: Producer.Event, a: Producer.Attempt)
      requires Valid() && WarehouseTable(ws) && ShipmentTable(ss)
      modifies this, conn
      ensures Valid()
      ensures warehouses == ws && shipments == ss
      ensures events == old(events) + [e]
      ensures Producer.Published(conn, e, a)
    {
      var _ := Producer.Emit(conn, e, a);
      warehouses, shipments := ws, ss;
      events := events + [e];
    }

    /** `get_warehouse`: the row with the id, if there is one. */
    function GetWarehouse(id: int): (r: Option<Warehouse>)
      reads this
      ensures r.Some? ==> r.value in warehouses && r.value.id == id
      ensures r.None? <==> forall w :: w in warehouses ==> w.id != id
    {
      var k := WarehouseIndex(warehouses, id);
      if k < |warehouses| then Some(warehouses[k]) else None
    }

    /** `get_warehouses`: at most `limit` rows (none left out when negative), from position `skip` on. */
    function ListWarehouses(skip: int, limit: int): (r: seq<Warehouse>)
      reads this
      ensures 0 <= limit ==> |r| <= limit
      ensures 0 <= skip && 0 <= limit && skip + limit <= |warehouses| ==> |r| == limit
      ensures Offset(skip, |warehouses|) + |r| <= |warehouses|
      ensures forall i :: 0 <= i < |r| ==> r[i] == warehouses[Offset(skip, |warehouses|) + i]
    {
      Page(warehouses, skip, limit)
    }

    function GetShipment(id: int): (r: Option<Shipment>)
      reads this
      ensures r.Some? ==> r.value in shipments && r.value.id == id
      ensures r.None? <==> forall s :: s in shipments ==> s.id != id
    {
      var k := ShipmentIndex(shipments, id);
      if k < |shipments| then Some(shipments[k]) else None
    }

    function ListShipments(skip: int, limit: int): (r: seq<Shipment>)
      reads this
      ensures 0 <= limit ==> |r| <= limit
      ensures 0 <= skip && 0 <= limit && skip + limit <= |shipments| ==> |r| == limit
      ensures Offset(skip, |shipments|) + |r| <= |shipments|
      ensures forall i :: 0 <= i < |r| ==> r[i] == shipments[Offset(skip, |shipments|) + i]
    {
      Page(shipments, skip, limit)
    }

    /** `get_shipment_by_tracking`: the row with the tracking number, if there is one. */
    function GetShipmentByTracking(trackingNumber: string): (r: Option<Shipment>)
      reads this
      ensures r.Some? ==> r.value in shipments && r.value.trackingNumber == trackingNumber
      ensures r.None? <==> forall s :: s in shipments ==> s.trackingNumber != trackingNumber
    {
      var k := FirstIndex(shipments, (s: Shipment) => s.trackingNumber == trackingNumber);
      if k < |shipments| then Some(shipments[k]) else None
    }

    /** `create_warehouse`: insert one row under a new id and emit `warehouse.created`. */
    method CreateWarehouse(c: WarehouseCreate, operationName: string, now: Timestamp, a: Producer.Attempt) returns (w: Warehouse)
      requires Valid()
      modifies this, conn
      ensures Valid()
      ensures w == NewWarehouse(NextWarehouseId(old(warehouses)), c, now)
      ensures forall x :: x in old(warehouses) ==> x.id != w.id
      ensures warehouses == old(warehouses) + [w] && shipments == old(shipments)
      ensures events == old(events) + [Producer.Event(Producer.Warehouse, Producer.Created, WarehouseCreatedPayload(w), operationName)]
      ensures Producer.Published(conn, Producer.Event(Producer.Warehouse, Producer.Created, WarehouseCreatedPayload(w), operationName), a)
    {
      NextWarehouseIdFresh(warehouses);
      w := NewWarehouse(NextWarehouseId(warehouses), c, now);
      CommitAndPublish(warehouses + [w], shipments, Producer.Event(Producer.Warehouse, Producer.Created, WarehouseCreatedPayload(w), operationName), a);
    }

    /**
     * `update_warehouse`: assign the sent fields one by one to the row, commit, and emit
     * `warehouse.updated`. A sent null in a NOT NULL column fails the commit.
     */
    method UpdateWarehouse(id: int, u: WarehouseUpdate, operationName: string, a: Producer.Attempt) returns (r: Outcome<Warehouse>)
      requires Valid()
      modifies this, conn
      ensures Valid()
      ensures shipments == old(shipments)
      ensures var k := WarehouseIndex(old(warehouses), id);
        if k == |old(warehouses)| then
          r == NotFound && warehouses == old(warehouses) && events == old(events) && unchanged(conn)
        else if !WarehouseNotNull(PatchWarehouse(old(warehouses)[k], u)) then
          r == IntegrityError && warehouses == old(warehouses) && events == old(events) && unchanged(conn)
        else
          && r == Done(PatchWarehouse(old(warehouses)[k], u))
          && warehouses == old(warehouses)[k := r.value]
          && events == old(events) + [Producer.Event(Producer.Warehouse, Producer.Updated, WarehouseUpdatedPayload(r.value, u), operationName)]
          && Producer.Published(conn, Producer.Event(Producer.Warehouse, Producer.Updated, WarehouseUpdatedPayload(r.value, u), operationName), a)
    {
      var k := WarehouseIndex(warehouses, id);
      if k == |warehouses| { return NotFound; }
      var row := warehouses[k];
      var items := WarehouseItems(u);
      var i := 0;
      while i < |items|
        invariant 0 <= i <= |items|
        invariant ApplyWarehouse(row, items[i..]) == ApplyWarehouse(warehouses[k], items)
      {
        assert items[i..][1..] == items[i + 1..];
        row := AssignWarehouse(row, items[i]);
        i := i + 1;
      }
      ApplyWarehouseItems(warehouses[k], u);
      if !WarehouseNotNull(row) { return IntegrityError; }
      CommitAndPublish(warehouses[k := row], shipments, Producer.Event(Producer.Warehouse, Producer.Updated, WarehouseUpdatedPayload(row, u), operationName), a);
      r := Done(row);
    }

    /**
     * `delete_warehouse`: snapshot the row, remove it (its shipments lose their reference), and
     * emit `warehouse.deleted` with the snapshot.
     */
    method DeleteWarehouse(id: int, operationName: string, now: Timestamp, a: Producer.Attempt) returns (deleted: bool)
      requires Valid()
      modifies this, conn
      ensures Valid()
      ensures var k := WarehouseIndex(old(warehouses), id);
        if k == |old(warehouses)| then
          !deleted && warehouses == old(warehouses) && shipments == old(shipments) && events == old(events) && unchanged(conn)
        else
          && deleted
          && warehouses == old(warehouses)[..k] + old(warehouses)[k + 1..]
          && shipments == Detach(old(shipments), id, now)
          && events == old(events) + [Producer.Event(Producer.Warehouse, Producer.Deleted, WarehouseSnapshot(old(warehouses)[k]), operationName)]
          && Producer.Published(conn, Producer.Event(Producer.Warehouse, Producer.Deleted, WarehouseSnapshot(old(warehouses)[k]), operationName), a)
    {
      var k := WarehouseIndex(warehouses, id);
      if k == |warehouses| { return false; }
      var snapshot := WarehouseSnapshot(warehouses[k]);
      RemoveWarehouseRow(warehouses, k);
      DetachClearsReferences(shipments, id, now);
      CommitAndPublish(warehouses[..k] + warehouses[k + 1..], Detach(shipments, id, now),
                       Producer.Event(Producer.Warehouse, Producer.Deleted, snapshot, operationName), a);
      return true;
    }

    /**
     * `create_shipment`: insert one row under a new id, status `pending`, and emit
     * `shipment.created`; a tracking number already in use fails the commit.
     */
    method CreateShipment(c: ShipmentCreate, operationName: string, now: Timestamp, a: Producer.Attempt) returns (r: Outcome<Shipment>)
      requires Valid()
      modifies this, conn
      ensures Valid()
      ensures warehouses == old(warehouses)
      ensures if exists s :: s in old(shipments) && s.trackingNumber == c.trackingNumber then
          r == IntegrityError && shipments == old(shipments) && events == old(events) && unchanged(conn)
        else
          && r == Done(NewShipment(NextShipmentId(old(shipments)), c, now))
          && (forall s :: s in old(shipments) ==> s.id != r.value.id)
          && shipments == old(shipments) + [r.value]
          && events == old(events) + [Producer.Event(Producer.Shipment, Producer.Created, ShipmentCreatedPayload(r.value), operationName)]
          && Producer.Published(conn, Producer.Event(Producer.Shipment, Producer.Created, ShipmentCreatedPayload(r.value), operationName), a)
    {
      if GetShipmentByTracking(c.trackingNumber).Some? { return IntegrityError; }
      NextShipmentIdFresh(shipments);
      var s := NewShipment(NextShipmentId(shipments), c, now);
      AppendShipmentRow(shipments, s);
      CommitAndPublish(warehouses, shipments + [s], Producer.Event(Producer.Shipment, Producer.Created, ShipmentCreatedPayload(s), operationName), a);
      r := Done(s);
    }

    /**
     * `update_shipment`: assign the sent fields one by one, commit (stamping `updated_at` if a
     * column changed), and emit `shipment.updated`. A sent null in a NOT NULL column fails the commit.
     */
    method UpdateShipment(id: int, u: ShipmentUpdate, operationName: string, now: Timestamp, a: Producer.Attempt) returns (r: Outcome<Shipment>)
      requires Valid()
      modifies this, conn
      ensures Valid()
      ensures warehouses == old(warehouses)
      ensures var k := ShipmentIndex(old(shipments), id);
        if k == |old(shipments)| then
          r == NotFound && shipments == old(shipments) && events == old(events) && unchanged(conn)
        else if !ShipmentNotNull(PatchShipment(old(shipments)[k], u)) then
          r == IntegrityError && shipments == old(shipments) && events == old(events) && unchanged(conn)
        else
          && r == Done(Touch(old(shipments)[k], PatchShipment(old(shipments)[k], u), now))
          && shipments == old(shipments)[k := r.value]
          && events == old(events) + [Producer.Event(Producer.Shipment, Producer.Updated, ShipmentUpdatedPayload(r.value, u), operationName)]
          && Producer.Published(conn, Producer.Event(Producer.Shipment, Producer.Updated, ShipmentUpdatedPayload(r.value, u), operationName), a)
    {
      var k := ShipmentIndex(shipments, id);
      if k == |shipments| { return NotFound; }
      var row := shipments[k];
      var items := ShipmentItems(u);
      var i := 0;
      while i < |items|
        invariant 0 <= i <= |items|
        invariant ApplyShipment(row, items[i..]) == ApplyShipment(shipments[k], items)
      {
        assert items[i..][1..] == items[i + 1..];
        row := AssignShipment(row, items[i]);
        i := i + 1;
      }
      ApplyShipmentItems(shipments[k], u);
      if !ShipmentNotNull(row) { return IntegrityError; }
      row := Touch(shipments[k], row, now);
      assert ShipmentTable(shipments[k := row]);
      CommitAndPublish(warehouses, shipments[k := row], Producer.Event(Producer.Shipment, Producer.Updated, ShipmentUpdatedPayload(row, u), operationName), a);
      r := Done(row);
    }

    /** `delete_shipment`: snapshot the row, remove it, and emit `shipment.deleted` with the snapshot. */
    method DeleteShipment(id: int, operationName: string, a: Producer.Attempt) returns (deleted: bool)
      requires Valid()
      modifies this, conn
      ensures Valid()
      ensures warehouses == old(warehouses)
      ensures var k := ShipmentIndex(old(shipments), id);
        if k == |old(shipments)| then
          !deleted && shipments == old(shipments) && events == old(events) && unchanged(conn)
        else
          && deleted
          && shipments == old(shipments)[..k] + old(shipments)[k + 1..]
          && events == old(events) + [Producer.Event(Producer.Shipment, Producer.Deleted, ShipmentSnapshot(old(shipments)[k]), operationName)]
          && Producer.Published(conn, Producer.Event(Producer.Shipment, Producer.Deleted, ShipmentSnapshot(old(shipments)[k]), operationName), a)
    {
      var k := ShipmentIndex(shipments, id);
      if k == |shipments| { return false; }
      var snapshot := ShipmentSnapshot(shipments[k]);
      RemoveShipmentRow(shipments, k);
      CommitAndPublish(warehouses, shipments[..k] + shipments[k + 1..], Producer.Event(Producer.Shipment, Producer.Deleted, snapshot, operationName), a);
      return true;
    }
  }
}
