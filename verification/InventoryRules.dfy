/** What each inventory transaction does to the inventory database, as functions
    from the tables before to the tables after. An `Err` means that the
    transaction (or its savepoint) is rolled back. */
module InventoryRules {
  import opened Domain
  import opened Events

  /** The tables of the inventory database; allocations and outbox rows are in
      insertion order. */
  datatype Db = Db(
    lots: map<Uuid, Lot>,
    allocs: seq<Alloc>,
    bookings: map<Uuid, Booking>,
    ledger: map<Uuid, Capacity>,
    outbox: seq<Event>)

  const EMPTY := Db(map[], [], map[], map[], [])

  function Emit(db: Db, e: Event): Db {
    db.(outbox := db.outbox + [e])
  }

  /** The CHECK constraints of the stocks table. */
  predicate RowAllowed(x: Lot) {
    0 <= x.reserved <= x.quantity && x.unit.weight > 0.0 && x.unit.volume > 0.0
  }

  function InsertLot(db: Db, id: Uuid, x: Lot): Outcome<Db> {
    if id in db.lots then Err(Broken(DuplicateKey))
    else if !RowAllowed(x) then Err(Broken(CheckViolated))
    else Ok(db.(lots := db.lots[id := x]))
  }

  function UpdateLot(db: Db, id: Uuid, x: Lot): Outcome<Db> {
    if RowAllowed(x) then Ok(db.(lots := db.lots[id := x])) else Err(Broken(CheckViolated))
  }

  // ----- capacity ledger -----

  const TOLERANCE := 0.000000001
  const SLACK := 0.0000001

  predicate Exceeds(load: Load, limit: Load) {
    load.weight > limit.weight + TOLERANCE || load.volume > limit.volume + TOLERANCE
  }

  function AtLeastZero(x: real): real {
    if x < 0.0 then 0.0 else x
  }

  /** The new content of a ledger row: refused when it grows past the limit,
      broken when it falls visibly below zero, clamped at zero otherwise. */
  function Settle(before: Load, change: Load, limit: Option<Load>): Outcome<Load> {
    var after := Plus(before, change);
    if limit.Some? && Exceeds(after, limit.value) then Err(Fail(LocationFull))
    else if after.weight < -SLACK || after.volume < -SLACK then Err(Broken(CapacityViolated))
    else Ok(Load(AtLeastZero(after.weight), AtLeastZero(after.volume)))
  }

  /** The limit a growing load must respect, read from the warehouse service. */
  function Admit(x: Lot, reply: Reply<Location>): Outcome<Load> {
    var location :- reply.Get();
    if location.site.warehouse != x.warehouse then Err(Fail(WrongWarehouse))
    else if location.status == Blocked || location.status == Maintenance then Err(Fail(LocationBlocked))
    else if location.site.zone != Storage || location.site.storage != x.storage then
      Err(Fail(IncompatibleLocation))
    else Ok(location.site.limit)
  }

  function Row(db: Db, x: Lot, location: Uuid): Capacity {
    if location in db.ledger then db.ledger[location] else Capacity(x.warehouse, NO_LOAD, 0)
  }

  function Charge(db: Db, x: Lot, location: Uuid, delta: int, reply: Reply<Location>): Outcome<Db> {
    var limit :- if delta > 0 then (var l :- Admit(x, reply); Ok(Some(l))) else Ok(None);
    var row := Row(db, x, location);
    var load :- Settle(row.load, Times(delta, x.unit), limit);
    var next := Capacity(row.warehouse, load, row.revision + 1);
    Ok(Emit(db.(ledger := db.ledger[location := next]),
            LocationCapacityChanged(location, x.warehouse, load, next.revision)))
  }

  // ----- commands over HTTP -----

  datatype Receipt = Receipt(
    product: Uuid, warehouse: Uuid, quantity: int, batch: string, expiration: Option<int>)

  function Receive(db: Db, now: Time, q: Receipt, product: Reply<Product>, active: Reply<bool>, newId: Uuid)
    : Outcome<Db>
  {
    if q.quantity <= 0 || q.quantity > MAX_QUANTITY || q.batch == "" then Err(Fault(ValidationError, 400))
    else
      var p :- product.Get();
      if !p.active then Err(Fail(InactiveProduct))
      else
        var open :- active.Get();
        if !open then Err(Fail(WarehouseUnavailable))
        else if q.expiration.Some? && q.expiration.value <= Today(now) then Err(Fault(ValidationError, 400))
        else
          var x := Lot(q.product, q.warehouse, None, q.quantity, 0, q.batch, q.expiration, now, p.unit, p.storage);
          var db1 :- InsertLot(db, newId, x);
          Ok(Emit(db1, GoodsReceived(newId, x.product, x.warehouse, x.quantity, x.unit, x.storage)))
  }

  datatype Action = Adjust | Move | WriteOff

  datatype Change = Change(stock: Uuid, to: Uuid, quantity: int, reason: string)

  function AvailableUnits(quantity: int, reserved: int): int {
    quantity - reserved
  }

  function CheckQuantity(quantity: int, available: int): Option<Error> {
    if quantity <= 0 then Some(Fault(ValidationError, 400))
    else if quantity > available then Some(Fail(InsufficientStock))
    else None
  }

  function ApplyChange(db: Db, now: Time, action: Action, q: Change, reply: Reply<Location>, newId: Uuid)
    : Outcome<Db>
  {
    if q.stock !in db.lots then Err(Fault(NotFound, 404))
    else
      match action
      case Adjust => AdjustLot(db, q, reply)
      case Move => MoveLot(db, now, q, reply, newId)
      case WriteOff => WriteOffLot(db, q)
  }

  function AdjustLot(db: Db, q: Change, reply: Reply<Location>): Outcome<Db>
    requires q.stock in db.lots
  {
    var x := db.lots[q.stock];
    var delta := q.quantity - x.quantity;
    if q.quantity < 0 || q.quantity > MAX_QUANTITY then Err(Fault(ValidationError, 400))
    else if q.quantity < x.reserved then Err(Fail(ReservedStock))
    else if q.reason == "" then Err(Fault(ValidationError, 400))
    else if x.location.None? && delta > 0 then Err(Fail(UnplacedStock))
    else
      var db1 :- if x.location.Some? && delta != 0 then Charge(db, x, x.location.value, delta, reply) else Ok(db);
      var db2 :- UpdateLot(db1, q.stock, x.(quantity := q.quantity));
      Ok(Emit(db2, StockAdjusted(q.stock, x.product, x.warehouse, q.quantity, delta, q.reason)))
  }

  function MoveLot(db: Db, now: Time, q: Change, reply: Reply<Location>, newId: Uuid): Outcome<Db>
    requires q.stock in db.lots
  {
    var x := db.lots[q.stock];
    var wrong := CheckQuantity(q.quantity, AvailableUnits(x.quantity, x.reserved));
    if wrong.Some? then Err(wrong.value)
    else if x.location == Some(q.to) then Err(Fail(SameLocation))
    else
      var db1 :- Charge(db, x, q.to, q.quantity, reply);
      var copy := x.(location := Some(q.to), quantity := q.quantity, reserved := 0, created := now);
      var db2 :- InsertLot(db1, newId, copy);
      var db3 :- Withdraw(db2, q.stock, x, q.quantity);
      Ok(Emit(db3, StockMoved(q.stock, newId, x.product, x.warehouse, q.quantity, x.location, q.to)))
  }

  function WriteOffLot(db: Db, q: Change): Outcome<Db>
    requires q.stock in db.lots
  {
    var x := db.lots[q.stock];
    var wrong := CheckQuantity(q.quantity, AvailableUnits(x.quantity, x.reserved));
    if wrong.Some? then Err(wrong.value)
    else if q.reason == "" then Err(Fault(ValidationError, 400))
    else
      var db1 :- Withdraw(db, q.stock, x, q.quantity);
      Ok(Emit(db1, StockWrittenOff(q.stock, x.product, x.warehouse, q.quantity, q.reason)))
  }

  /** Takes `n` units out of the lot and, when it is placed, out of its location. */
  function Withdraw(db: Db, id: Uuid, x: Lot, n: int): Outcome<Db> {
    var db1 :- if x.location.Some? then Charge(db, x, x.location.value, -n, NoAnswer) else Ok(db);
    UpdateLot(db1, id, x.(quantity := x.quantity - n))
  }

  // ----- reserve -----

  /** A lot a reservation may take from, with its unreserved units. */
  datatype Offer = Offer(stock: Uuid, free: int)

  predicate Eligible(x: Lot, warehouse: Uuid, product: Uuid, today: int) {
    && x.warehouse == warehouse
    && x.product == product
    && x.location.Some?
    && x.quantity > x.reserved
    && (x.expiration.None? || x.expiration.value > today)
  }

  function EligibleLots(db: Db, warehouse: Uuid, product: Uuid, today: int): map<Uuid, Lot> {
    map id | id in db.lots && Eligible(db.lots[id], warehouse, product, today) :: db.lots[id]
  }

  /** `order by expiration_date nulls last, created_at, id` */
  predicate Sooner(a: Lot, i: Uuid, b: Lot, j: Uuid) {
    if a.expiration != b.expiration then
      b.expiration.None? || (a.expiration.Some? && a.expiration.value < b.expiration.value)
    else if a.created != b.created then a.created < b.created
    else i < j
  }

  predicate First(m: map<Uuid, Lot>, id: Uuid) {
    id in m && forall j | j in m :: j == id || Sooner(m[id], id, m[j], j)
  }

  lemma FirstExists(m: map<Uuid, Lot>)
    requires m != map[]
    ensures exists id :: First(m, id)
    decreases |m|
  {
    var k :| k in m;
    var rest := m - {k};
    assert forall j | j in m :: j == k || j in rest;
    if rest == map[] {
      assert First(m, k);
    } else {
      FirstExists(rest);
      var id :| First(rest, id);
      var best := if Sooner(m[k], k, m[id], id) then k else id;
      forall j | j in m
        ensures j == best || Sooner(m[best], best, m[j], j)
      {
        assert j == k || j == id || Sooner(m[id], id, m[j], j);
      }
      assert First(m, best);
    }
  }

  function FirstOf(m: map<Uuid, Lot>): (id: Uuid)
    requires m != map[]
    ensures id in m && First(m, id)
  {
    FirstExists(m);
    var id :| First(m, id);
    id
  }

  /** The rows of the allocation query, in its order. */
  function Offers(m: map<Uuid, Lot>): seq<Offer>
    decreases |m|
  {
    if m == map[] then []
    else
      var id := FirstOf(m);
      [Offer(id, m[id].quantity - m[id].reserved)] + Offers(m - {id})
  }

  function AddAlloc(db: Db, a: Alloc): Outcome<Db> {
    if exists i | 0 <= i < |db.allocs| :: db.allocs[i].reservation == a.reservation && db.allocs[i].stock == a.stock
    then Err(Broken(DuplicateKey))
    else if a.quantity <= 0 then Err(Broken(CheckViolated))
    else Ok(db.(allocs := db.allocs + [a]))
  }

  /** Reserves `n` units of one lot. */
  function Take(db: Db, reservation: Uuid, stock: Uuid, n: int): Outcome<Db> {
    if stock !in db.lots then Err(Broken(ForeignKeyViolated))
    else
      var x := db.lots[stock];
      var db1 :- UpdateLot(db, stock, x.(reserved := x.reserved + n));
      AddAlloc(db1, Alloc(reservation, stock, n))
  }

  datatype Taking = Taking(db: Db, remaining: int)

  function Min(a: int, b: int): int {
    if a < b then a else b
  }

  /** The inner loop: take greedily until nothing is missing or nothing is left. */
  function TakeAll(db: Db, reservation: Uuid, offers: seq<Offer>, remaining: int): Outcome<Taking>
    decreases |offers|
  {
    if offers == [] || Min(remaining, offers[0].free) <= 0 then Ok(Taking(db, remaining))
    else
      var n := Min(remaining, offers[0].free);
      var db1 :- Take(db, reservation, offers[0].stock, n);
      TakeAll(db1, reservation, offers[1..], remaining - n)
  }

  /** The outer loop over the lines of a request. */
  function TakeLines(db: Db, reservation: Uuid, warehouse: Uuid, today: int, lines: seq<Line>, seen: set<Uuid>)
    : Outcome<Db>
    decreases |lines|
  {
    if lines == [] then Ok(db)
    else if lines[0].quantity <= 0 || lines[0].product in seen then Err(Fault(ValidationError, 400))
    else
      var offers := Offers(EligibleLots(db, warehouse, lines[0].product, today));
      var taking :- TakeAll(db, reservation, offers, lines[0].quantity);
      if taking.remaining > 0 then Err(Fail(InsufficientStock))
      else TakeLines(taking.db, reservation, warehouse, today, lines[1..], seen + {lines[0].product})
  }

  function Reserve(db: Db, now: Time, reservation: Uuid, warehouse: Uuid, lines: seq<Line>, expires: Time)
    : Outcome<Db>
  {
    if reservation in db.bookings then Ok(db)
    else if expires <= now then Err(Fail(Expired))
    else if lines == [] then Err(Fault(ValidationError, 400))
    else
      var booked := db.(bookings := db.bookings[reservation := Booking(warehouse, Confirmed, expires, None)]);
      var db1 :- TakeLines(booked, reservation, warehouse, Today(now), lines, {});
      Ok(Emit(db1, StockReserved(reservation, warehouse, lines, expires)))
  }

  // ----- release -----

  /** Inserts an allocation row into rows ordered by stock. */
  function InsertRow(a: Alloc, rows: seq<Alloc>): seq<Alloc> {
    if rows == [] || a.stock <= rows[0].stock then [a] + rows else [rows[0]] + InsertRow(a, rows[1..])
  }

  /** The allocations of one reservation, ordered by stock. */
  function RowsOf(allocs: seq<Alloc>, reservation: Uuid): seq<Alloc> {
    if allocs == [] then []
    else
      var last := allocs[|allocs| - 1];
      var rest := RowsOf(allocs[..|allocs| - 1], reservation);
      if last.reservation == reservation then InsertRow(last, rest) else rest
  }

  function ItemsOf(lots: map<Uuid, Lot>, rows: seq<Alloc>): seq<Item> {
    if rows == [] then []
    else
      (if rows[0].stock in lots then [Item(lots[rows[0].stock].product, rows[0].stock, rows[0].quantity)] else [])
      + ItemsOf(lots, rows[1..])
  }

  /** The reserved units of every lot after the rows have been given back. */
  function GiveBack(lots: map<Uuid, Lot>, rows: seq<Alloc>): Outcome<map<Uuid, Lot>> {
    if rows == [] then Ok(lots)
    else if rows[0].stock !in lots then GiveBack(lots, rows[1..])
    else
      var x := lots[rows[0].stock];
      var y := x.(reserved := x.reserved - rows[0].quantity);
      if RowAllowed(y) then GiveBack(lots[rows[0].stock := y], rows[1..]) else Err(Broken(CheckViolated))
  }

  function Release(db: Db, reservation: Uuid, expired: bool): Outcome<Db> {
    if reservation !in db.bookings then Err(Broken(NotYetProcessed))
    else
      var b := db.bookings[reservation];
      if b.status == Completed then Err(Fail(AlreadyShipped))
      else if b.status != Confirmed then Ok(db)
      else
        var rows := RowsOf(db.allocs, reservation);
        var lots :- GiveBack(db.lots, rows);
        var closed := b.(status := if expired then ExpiredStatus else Cancelled);
        var items := ItemsOf(lots, rows);
        Ok(Emit(db.(lots := lots, bookings := db.bookings[reservation := closed]),
                if expired then ReservationExpired(reservation, b.warehouse, items)
                else StockReservationCancelled(reservation, b.warehouse, items)))
  }

  // ----- ship -----

  /** Deducts one allocation from its lot and from the location of the lot. */
  function ShipRow(db: Db, now: Time, a: Alloc): Outcome<Db> {
    if a.stock !in db.lots then Err(Fault(NotFound, 404))
    else
      var x := db.lots[a.stock];
      if x.expiration.Some? && x.expiration.value <= Today(now) then Err(Fail(ExpiredStock))
      else if x.location.None? then Err(Broken(ReservedUnplaced))
      else
        var db1 :- Charge(db, x, x.location.value, -a.quantity, NoAnswer);
        UpdateLot(db1, a.stock, x.(quantity := x.quantity - a.quantity, reserved := x.reserved - a.quantity))
  }

  function ShipRows(db: Db, now: Time, rows: seq<Alloc>): Outcome<Db>
    decreases |rows|
  {
    if rows == [] then Ok(db)
    else
      var db1 :- ShipRow(db, now, rows[0]);
      ShipRows(db1, now, rows[1..])
  }

  function Ship(db: Db, now: Time, reservation: Uuid, warehouse: Uuid, shipment: Uuid): Outcome<Db> {
    if reservation !in db.bookings then Err(Fail(ReservationRequired))
    else
      var b := db.bookings[reservation];
      if b.status == Completed && b.shipment == Some(shipment) then Ok(db)
      else if b.status != Confirmed || b.expires <= now then Err(Fail(ReservationUnavailable))
      else if b.warehouse != warehouse then Err(Fail(WrongWarehouse))
      else
        var rows := RowsOf(db.allocs, reservation);
        var db1 :- ShipRows(db, now, rows);
        var closed := b.(status := Completed, shipment := Some(shipment));
        Ok(Emit(db1.(bookings := db1.bookings[reservation := closed]),
                StockShipped(reservation, warehouse, shipment, ItemsOf(db.lots, rows))))
  }

  // ----- place -----

  function Place(db: Db, stock: Uuid, warehouse: Uuid, location: Uuid, reply: Reply<Location>): Outcome<Db> {
    if stock !in db.lots then Err(Fault(NotFound, 404))
    else
      var x := db.lots[stock];
      if x.warehouse != warehouse then Err(Fail(WrongWarehouse))
      else if x.location.Some? || x.quantity == 0 then Ok(db)
      else
        var db1 :- Charge(db, x, location, x.quantity, reply);
        var db2 :- UpdateLot(db1, stock, x.(location := Some(location)));
        Ok(Emit(db2, StockAdded(stock, x.product, x.warehouse, location, x.quantity)))
  }

  // ----- consuming an event -----

  predicate Relevant(e: Event) {
    e.ReservationRequested? || e.ReservationCancellationRequested? || e.ShipmentRequested?
    || e.ProductPlacementAssigned?
  }

  function Decide(db: Db, now: Time, e: Event, reply: Reply<Location>): Outcome<Db>
    requires Relevant(e)
  {
    match e
    case ReservationRequested(r, w, lines, expires) => Reserve(db, now, r, w, lines, expires)
    case ReservationCancellationRequested(r, _, _) => Release(db, r, false)
    case ShipmentRequested(s, w, r) => Ship(db, now, r, w, s)
    case ProductPlacementAssigned(stock, w, l, _) => Place(db, stock, w, l, reply)
  }

  function Refusal(e: Event, code: Code): Event
    requires Relevant(e)
  {
    match e
    case ReservationRequested(r, w, lines, expires) => ReservationRejected(r, w, lines, expires, code)
    case ReservationCancellationRequested(r, w, s) => ReservationCancellationRejected(r, w, s, code)
    case ShipmentRequested(s, w, r) => ShipmentRejected(r, w, s, code)
    case ProductPlacementAssigned(stock, w, l, _) => PlacementRejected(stock, w, l, code)
  }

  /** What is recorded after the savepoint has been rolled back. */
  function Refuse(db: Db, now: Time, e: Event, code: Code): Db
    requires Relevant(e)
  {
    var db1 :=
      if e.ReservationRequested? && e.reservation !in db.bookings then
        db.(bookings := db.bookings[e.reservation := Booking(e.warehouse, Rejected, now, None)])
      else db;
    Emit(db1, Refusal(e, code))
  }

  function Handle(db: Db, now: Time, e: Event, reply: Reply<Location>): Outcome<Db> {
    if !Relevant(e) then Ok(db)
    else
      match Decide(db, now, e, reply)
      case Ok(db1) => Ok(db1)
      case Err(error) => if Business(error) then Ok(Refuse(db, now, e, error.code)) else Err(error)
  }

  // ----- every transaction of the inventory service -----

  datatype Transaction =
    | Receiving(now: Time, receipt: Receipt, product: Reply<Product>, active: Reply<bool>, newId: Uuid)
    | Changing(now: Time, action: Action, change: Change, reply: Reply<Location>, newId: Uuid)
    | Consuming(now: Time, event: Event, reply: Reply<Location>)
    | Expiring(reservation: Uuid)

  function Attempt(db: Db, t: Transaction): Outcome<Db> {
    match t
    case Receiving(now, q, product, active, newId) => Receive(db, now, q, product, active, newId)
    case Changing(now, action, q, reply, newId) => ApplyChange(db, now, action, q, reply, newId)
    case Consuming(now, e, reply) => Handle(db, now, e, reply)
    case Expiring(r) => Release(db, r, true)
  }

  /** The database after the transaction has committed or rolled back. */
  function Commit(db: Db, t: Transaction): Db {
    match Attempt(db, t)
    case Ok(db1) => db1
    case Err(_) => db
  }

  function Run(db: Db, ts: seq<Transaction>): Db
    decreases |ts|
  {
    if ts == [] then db else Run(Commit(db, ts[0]), ts[1..])
  }
}
