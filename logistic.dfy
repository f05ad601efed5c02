/**
 * The two resources as the ORM maps them (`Warehouse`, `Shipment`) and the request schemas
 * the services receive (`WarehouseCreate`, `WarehouseUpdate`, `ShipmentCreate`, `ShipmentUpdate`).
 *
 * A column that an update may set to null is an `Option`, even where the table declares it
 * NOT NULL: the ORM object holds the null, and only the commit rejects it.
 */
module Logistic {
  import opened Wrappers
  import opened Json

  /** A `datetime`, in its `isoformat()` text; the clock itself is an input. */
  type Timestamp = string

  /** The status column's default. */
  const DefaultStatus := "pending"

  datatype Warehouse = Warehouse(id: int, name: Option<string>, location: Option<string>, createdAt: Timestamp)

  datatype Shipment = Shipment(
    id: int,
    trackingNumber: string,
    origin: Option<string>,
    destination: Option<string>,
    weight: Option<Float>,
    status: Option<string>,
    warehouseId: Option<int>,
    createdAt: Timestamp,
    updatedAt: Timestamp)

  /** The NOT NULL constraints of the warehouses table. */
  predicate WarehouseNotNull(w: Warehouse) {
    w.name.Some? && w.location.Some?
  }

  /** The NOT NULL constraints of the shipments table (status and warehouse_id may be null). */
  predicate ShipmentNotNull(s: Shipment) {
    s.origin.Some? && s.destination.Some? && s.weight.Some?
  }

  datatype WarehouseCreate = WarehouseCreate(name: string, location: string)

  datatype ShipmentCreate = ShipmentCreate(
    trackingNumber: string, origin: string, destination: string, weight: Float, warehouseId: int)

  /** A field of an update schema: left out of the request, or sent (possibly as null). */
  datatype Patch<T> = Unset | Sent(value: T) {
    function Or(current: T): T {
      match this
      case Unset => current
      case Sent(v) => v
    }
  }

  datatype WarehouseUpdate = WarehouseUpdate(name: Patch<Option<string>>, location: Patch<Option<string>>)

  datatype ShipmentUpdate = ShipmentUpdate(
    origin: Patch<Option<string>>,
    destination: Patch<Option<string>>,
    weight: Patch<Option<Float>>,
    status: Patch<Option<string>>,
    warehouseId: Patch<Option<int>>)

  /** One entry of `update.dict(exclude_unset=True)` for a warehouse. */
  datatype WarehouseAssign = AssignName(name: Option<string>) | AssignLocation(location: Option<string>)

  /** One entry of `update.dict(exclude_unset=True)` for a shipment. */
  datatype ShipmentAssign =
    | AssignOrigin(origin: Option<string>)
    | AssignDestination(destination: Option<string>)
    | AssignWeight(weight: Option<Float>)
    | AssignStatus(status: Option<string>)
    | AssignWarehouseId(warehouseId: Option<int>)

  function Entry<T, A>(p: Patch<T>, make: T -> A): seq<A> {
    match p
    case Unset => []
    case Sent(v) => [make(v)]
  }

  /** `update.dict(exclude_unset=True).items()`: the sent fields, in the schema's declaration order. */
  function WarehouseItems(u: WarehouseUpdate): (items: seq<WarehouseAssign>)
    ensures u.name.Sent? ==> AssignName(u.name.value) in items
    ensures u.location.Sent? ==> AssignLocation(u.location.value) in items
  {
    Entry(u.name, n => AssignName(n)) + Entry(u.location, l => AssignLocation(l))
  }

  function ShipmentItems(u: ShipmentUpdate): (items: seq<ShipmentAssign>)
    ensures u.origin.Sent? ==> AssignOrigin(u.origin.value) in items
    ensures u.destination.Sent? ==> AssignDestination(u.destination.value) in items
    ensures u.weight.Sent? ==> AssignWeight(u.weight.value) in items
    ensures u.status.Sent? ==> AssignStatus(u.status.value) in items
    ensures u.warehouseId.Sent? ==> AssignWarehouseId(u.warehouseId.value) in items
  {
    Entry(u.origin, o => AssignOrigin(o)) + Entry(u.destination, d => AssignDestination(d))
    + Entry(u.weight, w => AssignWeight(w)) + Entry(u.status, s => AssignStatus(s))
    + Entry(u.warehouseId, i => AssignWarehouseId(i))
  }

  function WarehouseFieldName(a: WarehouseAssign): string {
    match a
    case AssignName(_) => "name"
    case AssignLocation(_) => "location"
  }

  function ShipmentFieldName(a: ShipmentAssign): string {
    match a
    case AssignOrigin(_) => "origin"
    case AssignDestination(_) => "destination"
    case AssignWeight(_) => "weight"
    case AssignStatus(_) => "status"
    case AssignWarehouseId(_) => "warehouse_id"
  }

  /** The names of the fields an update request sent. */
  function WarehouseSentFields(u: WarehouseUpdate): set<string> {
    (if u.name.Sent? then {"name"} else {}) + (if u.location.Sent? then {"location"} else {})
  }

  function ShipmentSentFields(u: ShipmentUpdate): set<string> {
    (if u.origin.Sent? then {"origin"} else {}) + (if u.destination.Sent? then {"destination"} else {})
    + (if u.weight.Sent? then {"weight"} else {}) + (if u.status.Sent? then {"status"} else {})
    + (if u.warehouseId.Sent? then {"warehouse_id"} else {})
  }

  /** Every item carries the value that was sent for its field. */
  lemma WarehouseItemsSent(u: WarehouseUpdate)
    ensures forall a :: a in WarehouseItems(u) ==>
      if a.AssignName? then u.name == Sent(a.name) else u.location == Sent(a.location)
  {
    assert WarehouseItems(u) == Entry(u.name, n => AssignName(n)) + Entry(u.location, l => AssignLocation(l));
  }

  lemma ShipmentItemsSent(u: ShipmentUpdate)
    ensures forall a :: a in ShipmentItems(u) ==> match a
      case AssignOrigin(o) => u.origin == Sent(o)
      case AssignDestination(d) => u.destination == Sent(d)
      case AssignWeight(w) => u.weight == Sent(w)
      case AssignStatus(s) => u.status == Sent(s)
      case AssignWarehouseId(i) => u.warehouseId == Sent(i)
  {
  }

  /** `setattr(record, field, value)`. */
  function AssignWarehouse(w: Warehouse, a: WarehouseAssign): Warehouse {
    match a
    case AssignName(n) => w.(name := n)
    case AssignLocation(l) => w.(location := l)
  }

  function AssignShipment(s: Shipment, a: ShipmentAssign): Shipment {
    match a
    case AssignOrigin(o) => s.(origin := o)
    case AssignDestination(d) => s.(destination := d)
    case AssignWeight(w) => s.(weight := w)
    case AssignStatus(st) => s.(status := st)
    case AssignWarehouseId(i) => s.(warehouseId := i)
  }

  /** The `for field, value in update_data.items(): setattr(...)` loop, as a value. */
  function ApplyWarehouse(w: Warehouse, items: seq<WarehouseAssign>): (r: Warehouse)
    ensures r.id == w.id && r.createdAt == w.createdAt
    decreases |items|
  {
    if |items| == 0 then w else ApplyWarehouse(AssignWarehouse(w, items[0]), items[1..])
  }

  function ApplyShipment(s: Shipment, items: seq<ShipmentAssign>): (r: Shipment)
    ensures r.id == s.id && r.trackingNumber == s.trackingNumber
    ensures r.createdAt == s.createdAt && r.updatedAt == s.updatedAt
    decreases |items|
  {
    if |items| == 0 then s else ApplyShipment(AssignShipment(s, items[0]), items[1..])
  }

  /** The record with every sent field replaced and every other field kept. */
  function PatchWarehouse(w: Warehouse, u: WarehouseUpdate): (r: Warehouse)
    ensures r.id == w.id && r.createdAt == w.createdAt
    ensures r.name == (if u.name.Sent? then u.name.value else w.name)
    ensures r.location == (if u.location.Sent? then u.location.value else w.location)
  {
    w.(name := u.name.Or(w.name), location := u.location.Or(w.location))
  }

  function PatchShipment(s: Shipment, u: ShipmentUpdate): (r: Shipment)
    ensures r.id == s.id && r.trackingNumber == s.trackingNumber
    ensures r.createdAt == s.createdAt && r.updatedAt == s.updatedAt
    ensures r.origin == (if u.origin.Sent? then u.origin.value else s.origin)
    ensures r.destination == (if u.destination.Sent? then u.destination.value else s.destination)
    ensures r.weight == (if u.weight.Sent? then u.weight.value else s.weight)
    ensures r.status == (if u.status.Sent? then u.status.value else s.status)
    ensures r.warehouseId == (if u.warehouseId.Sent? then u.warehouseId.value else s.warehouseId)
  {
    s.(origin := u.origin.Or(s.origin), destination := u.destination.Or(s.destination),
       weight := u.weight.Or(s.weight), status := u.status.Or(s.status),
       warehouseId := u.warehouseId.Or(s.warehouseId))
  }

  lemma {:induction false} ApplyWarehouseAppend(w: Warehouse, xs: seq<WarehouseAssign>, ys: seq<WarehouseAssign>)
    ensures ApplyWarehouse(w, xs + ys) == ApplyWarehouse(ApplyWarehouse(w, xs), ys)
    decreases |xs|
  {
    if |xs| > 0 {
      assert (xs + ys)[0] == xs[0] && (xs + ys)[1..] == xs[1..] + ys;
      ApplyWarehouseAppend(AssignWarehouse(w, xs[0]), xs[1..], ys);
    } else {
      assert xs + ys == ys;
    }
  }

  lemma {:induction false} ApplyShipmentAppend(s: Shipment, xs: seq<ShipmentAssign>, ys: seq<ShipmentAssign>)
    ensures ApplyShipment(s, xs + ys) == ApplyShipment(ApplyShipment(s, xs), ys)
    decreases |xs|
  {
    if |xs| > 0 {
      assert (xs + ys)[0] == xs[0] && (xs + ys)[1..] == xs[1..] + ys;
      ApplyShipmentAppend(AssignShipment(s, xs[0]), xs[1..], ys);
    } else {
      assert xs + ys == ys;
    }
  }

  /** The update loop assigns exactly the sent fields, whatever was sent for them, and no other. */
  lemma ApplyWarehouseItems(w: Warehouse, u: WarehouseUpdate)
    ensures ApplyWarehouse(w, WarehouseItems(u)) == PatchWarehouse(w, u)
  {
    var a := Entry(u.name, n => AssignName(n));
    var b := Entry(u.location, l => AssignLocation(l));
    ApplyWarehouseAppend(w, a, b);
  }

  lemma ApplyShipmentItems(s: Shipment, u: ShipmentUpdate)
    ensures ApplyShipment(s, ShipmentItems(u)) == PatchShipment(s, u)
  {
    var a := Entry(u.origin, o => AssignOrigin(o));
    var b := Entry(u.destination, d => AssignDestination(d));
    var c := Entry(u.weight, x => AssignWeight(x));
    var d := Entry(u.status, st => AssignStatus(st));
    var e := Entry(u.warehouseId, i => AssignWarehouseId(i));
    ApplyShipmentAppend(s, a + b + c + d, e);
    ApplyShipmentAppend(s, a + b + c, d);
    ApplyShipmentAppend(s, a + b, c);
    ApplyShipmentAppend(s, a, b);
  }

  /** `list(update_data.keys())`. */
  function Keys<A>(items: seq<A>, name: A -> string): seq<string> {
    if |items| == 0 then [] else [name(items[0])] + Keys(items[1..], name)
  }

  lemma {:induction false} KeysAppend<A>(xs: seq<A>, ys: seq<A>, name: A -> string)
    ensures Keys(xs + ys, name) == Keys(xs, name) + Keys(ys, name)
  {
    if |xs| > 0 {
      assert (xs + ys)[0] == xs[0] && (xs + ys)[1..] == xs[1..] + ys;
      KeysAppend(xs[1..], ys, name);
    } else {
      assert xs + ys == ys;
    }
  }

  lemma KeysOfEntry<T, A>(p: Patch<T>, make: T -> A, name: A -> string)
    ensures Keys(Entry(p, make), name) == if p.Sent? then [name(make(p.value))] else []
  {
    if p.Sent? {
      assert Entry(p, make)[1..] == [];
    }
  }

  /** No name occurs twice in the list. */
  predicate Distinct(names: seq<string>) {
    forall i, j :: 0 <= i < j < |names| ==> names[i] != names[j]
  }

  /** `list(update_data.keys())` holds each sent field's name once, and no other name. */
  lemma WarehouseItemKeys(u: WarehouseUpdate)
    ensures forall f :: f in Keys(WarehouseItems(u), WarehouseFieldName) <==> f in WarehouseSentFields(u)
    ensures Distinct(Keys(WarehouseItems(u), WarehouseFieldName))
  {
    var a := Entry(u.name, n => AssignName(n));
    var b := Entry(u.location, l => AssignLocation(l));
    KeysAppend(a, b, WarehouseFieldName);
    KeysOfEntry(u.name, n => AssignName(n), WarehouseFieldName);
    KeysOfEntry(u.location, l => AssignLocation(l), WarehouseFieldName);
    assert Keys(a, WarehouseFieldName) == (if u.name.Sent? then ["name"] else []);
    assert Keys(b, WarehouseFieldName) == (if u.location.Sent? then ["location"] else []);
  }

  lemma ShipmentItemKeys(u: ShipmentUpdate)
    ensures forall f :: f in Keys(ShipmentItems(u), ShipmentFieldName) <==> f in ShipmentSentFields(u)
    ensures Distinct(Keys(ShipmentItems(u), ShipmentFieldName))
  {
    ShipmentKeysInOrder(u);
    assert Keys(ShipmentItems(u), ShipmentFieldName) == SentNames(u);
    SentNamesDistinct(u);
    SentNamesMembers(u);
  }

  /** The sent shipment fields' names written out in declaration order. */
  function SentNames(u: ShipmentUpdate): seq<string> {
    (if u.origin.Sent? then ["origin"] else []) + (if u.destination.Sent? then ["destination"] else [])
    + (if u.weight.Sent? then ["weight"] else []) + (if u.status.Sent? then ["status"] else [])
    + (if u.warehouseId.Sent? then ["warehouse_id"] else [])
  }

  /** Each sent field's name occurs once. */
  lemma SentNamesDistinct(u: ShipmentUpdate)
    ensures Distinct(SentNames(u))
  {
    var ka := if u.origin.Sent? then ["origin"] else [];
    var kb := if u.destination.Sent? then ["destination"] else [];
    var kc := if u.weight.Sent? then ["weight"] else [];
    var kd := if u.status.Sent? then ["status"] else [];
    var ke := if u.warehouseId.Sent? then ["warehouse_id"] else [];
    assert SentNames(u) == ka + kb + kc + kd + ke;
    DistinctAppend(ka, kb);
    DistinctAppend(ka + kb, kc);
    DistinctAppend(ka + kb + kc, kd);
    DistinctAppend(ka + kb + kc + kd, ke);
  }

  /** The listed names are exactly the sent fields. */
  lemma SentNamesMembers(u: ShipmentUpdate)
    ensures forall f :: f in SentNames(u) <==> f in ShipmentSentFields(u)
  {
  }

  /** The sent shipment fields' names, in declaration order. */
  lemma ShipmentKeysInOrder(u: ShipmentUpdate)
    ensures Keys(ShipmentItems(u), ShipmentFieldName) ==
      (if u.origin.Sent? then ["origin"] else []) + (if u.destination.Sent? then ["destination"] else [])
      + (if u.weight.Sent? then ["weight"] else []) + (if u.status.Sent? then ["status"] else [])
      + (if u.warehouseId.Sent? then ["warehouse_id"] else [])
  {
    var a := Entry(u.origin, o => AssignOrigin(o));
    var b := Entry(u.destination, d => AssignDestination(d));
    var c := Entry(u.weight, x => AssignWeight(x));
    var d := Entry(u.status, st => AssignStatus(st));
    var e := Entry(u.warehouseId, i => AssignWarehouseId(i));
    var n := ShipmentFieldName;
    var ka, kb, kc, kd, ke := Keys(a, n), Keys(b, n), Keys(c, n), Keys(d, n), Keys(e, n);
    KeysOfEntry(u.origin, o => AssignOrigin(o), n);
    KeysOfEntry(u.destination, d => AssignDestination(d), n);
    KeysOfEntry(u.weight, x => AssignWeight(x), n);
    KeysOfEntry(u.status, st => AssignStatus(st), n);
    KeysOfEntry(u.warehouseId, i => AssignWarehouseId(i), n);
    assert ka == (if u.origin.Sent? then ["origin"] else []);
    assert kb == (if u.destination.Sent? then ["destination"] else []);
    assert kc == (if u.weight.Sent? then ["weight"] else []);
    assert kd == (if u.status.Sent? then ["status"] else []);
    assert ke == (if u.warehouseId.Sent? then ["warehouse_id"] else []);
    KeysAppend(a, b, n);
    assert Keys(a + b, n) == ka + kb;
    KeysAppend(a + b, c, n);
    assert Keys(a + b + c, n) == ka + kb + kc;
    KeysAppend(a + b + c, d, n);
    assert Keys(a + b + c + d, n) == ka + kb + kc + kd;
    KeysAppend(a + b + c + d, e, n);
  }

  lemma DistinctAppend(xs: seq<string>, ys: seq<string>)
    requires Distinct(xs) && Distinct(ys)
    requires forall x :: x in xs ==> x !in ys
    ensures Distinct(xs + ys)
  {
    forall i, j | 0 <= i < j < |xs + ys| ensures (xs + ys)[i] != (xs + ys)[j] {
      if j >= |xs| && i < |xs| {
        assert (xs + ys)[i] in xs && (xs + ys)[j] in ys;
      }
    }
  }
}
