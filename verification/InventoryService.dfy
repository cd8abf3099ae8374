/** The inventory service as it works: tables updated in place inside transactions, with
    a savepoint around the business part of every consumed event. Every method is held
    against the function of InventoryRules that says what it does to the tables. */
module InventoryService {
  import opened Domain
  import opened Events
  import opened InventoryRules
  import Closing
  import Expiry
  import InventorySafety
  import Serial
  import StockCommands
  import StockInvariant

  /** The method succeeded with the tables of the specification, or failed with its error. */
  ghost predicate Follows(spec: Outcome<Db>, o: Outcome<()>, after: Db) {
    match spec
    case Ok(db) => o == Ok(()) && after == db
    case Err(e) => o == Err(e)
  }

  class Inventory {
    var lots: map<Uuid, Lot>
    var allocs: seq<Alloc>
    var bookings: map<Uuid, Booking>
    var ledger: map<Uuid, Capacity>
    var outbox: seq<Event>

    function Tables(): Db
      reads this
    {
      Db(lots, allocs, bookings, ledger, outbox)
    }

    constructor ()
      ensures Tables() == EMPTY
    {
      lots, allocs, bookings, ledger, outbox := map[], [], map[], map[], [];
    }

    method Announce(e: Event)
      modifies this`outbox
      ensures Tables() == Emit(old(Tables()), e)
    {
      outbox := outbox + [e];
    }

    method Insert(id: Uuid, x: Lot) returns (o: Outcome<()>)
      modifies this`lots
      ensures Follows(InsertLot(old(Tables()), id, x), o, Tables())
    {
      if id in lots {
        return Err(Broken(DuplicateKey));
      }
      if !RowAllowed(x) {
        return Err(Broken(CheckViolated));
      }
      lots := lots[id := x];
      o := Ok(());
    }

    method Update(id: Uuid, x: Lot) returns (o: Outcome<()>)
      modifies this`lots
      ensures Follows(UpdateLot(old(Tables()), id, x), o, Tables())
    {
      if !RowAllowed(x) {
        return Err(Broken(CheckViolated));
      }
      lots := lots[id := x];
      o := Ok(());
    }

    /** Changes the ledger row of a location by `delta` units of the lot. */
    method ChangeCapacity(x: Lot, location: Uuid, delta: int, reply: Reply<Location>) returns (o: Outcome<()>)
      modifies this`ledger, this`outbox
      ensures Follows(Charge(old(Tables()), x, location, delta, reply), o, Tables())
    {
      var limit: Option<Load> := None;
      if delta > 0 {
        var found := reply.Get();
        if found.Err? {
          return Err(found.error);
        }
        var site := found.value.site;
        if site.warehouse != x.warehouse {
          return Err(Fail(WrongWarehouse));
        }
        if found.value.status == Blocked || found.value.status == Maintenance {
          return Err(Fail(LocationBlocked));
        }
        if site.zone != Storage || site.storage != x.storage {
          return Err(Fail(IncompatibleLocation));
        }
        limit := Some(site.limit);
      }
      if location !in ledger {
        ledger := ledger[location := Capacity(x.warehouse, NO_LOAD, 0)];
      }
      var row := ledger[location];
      var weight := row.load.weight + delta as real * x.unit.weight;
      var volume := row.load.volume + delta as real * x.unit.volume;
      assert Plus(row.load, Times(delta, x.unit)) == Load(weight, volume);
      if limit.Some? && (weight > limit.value.weight + TOLERANCE || volume > limit.value.volume + TOLERANCE) {
        return Err(Fail(LocationFull));
      }
      if weight < -SLACK || volume < -SLACK {
        return Err(Broken(CapacityViolated));
      }
      weight, volume := AtLeastZero(weight), AtLeastZero(volume);
      var revision := row.revision + 1;
      ledger := ledger[location := row.(load := Load(weight, volume), revision := revision)];
      assert row == Row(old(Tables()), x, location);
      ghost var next := Capacity(row.warehouse, Load(weight, volume), revision);
      assert ledger == old(ledger)[location := next];
      Announce(LocationCapacityChanged(location, x.warehouse, Load(weight, volume), revision));
      o := Ok(());
      assert Settle(row.load, Times(delta, x.unit), limit) == Ok(Load(weight, volume));
      assert Charge(old(Tables()), x, location, delta, reply).value.ledger == ledger;
    }

    method ReceiveGoods(now: Time, q: Receipt, product: Reply<Product>, active: Reply<bool>,
                        newId: Uuid) returns (o: Outcome<()>)
      modifies this
      ensures Follows(Receive(old(Tables()), now, q, product, active, newId), o, Tables())
      ensures newId !in old(lots) && StockInvariant.HasSize(product) ==>
                (o.Ok? <==> StockCommands.Receivable(now, q, product, active))
      ensures o.Ok? ==>
                && newId in lots && lots == old(lots)[newId := lots[newId]]
                && product.Found? && StockCommands.ReceivedLot(lots[newId], now, q, product.value)
      ensures StockInvariant.StockOk(old(Tables())) && o.Ok? ==> StockInvariant.StockOk(Tables())
    {
      if newId !in lots && StockInvariant.HasSize(product) {
        StockCommands.ReceiptDecides(Tables(), now, q, product, active, newId);
      }
      if StockInvariant.StockOk(Tables()) { StockInvariant.ReceiveKeeps(Tables(), now, q, product, active, newId); }
      if q.quantity <= 0 || q.quantity > MAX_QUANTITY || q.batch == "" {
        return Err(Fault(ValidationError, 400));
      }
      var p := product.Get();
      if p.Err? {
        return Err(p.error);
      }
      if !p.value.active {
        return Err(Fail(InactiveProduct));
      }
      var open := active.Get();
      if open.Err? {
        return Err(open.error);
      }
      if !open.value {
        return Err(Fail(WarehouseUnavailable));
      }
      if q.expiration.Some? && q.expiration.value <= Today(now) {
        return Err(Fault(ValidationError, 400));
      }
      var x := Lot(q.product, q.warehouse, None, q.quantity, 0, q.batch, q.expiration, now, p.value.unit,
          p.value.storage);
      o := Insert(newId, x);
      if o.Ok? {
        Announce(GoodsReceived(newId, x.product, x.warehouse, x.quantity, x.unit, x.storage));
      }
    }

    /** Takes units out of a lot and, when it is placed, out of its location. */
    method TakeOut(id: Uuid, x: Lot, n: int) returns (o: Outcome<()>)
      modifies this
      ensures Follows(Withdraw(old(Tables()), id, x, n), o, Tables())
    {
      if x.location.Some? {
        o := ChangeCapacity(x, x.location.value, -n, NoAnswer);
        if o.Err? {
          return;
        }
      }
      o := Update(id, x.(quantity := x.quantity - n));
    }

    method ChangeStock(now: Time, action: Action, q: Change, reply: Reply<Location>,
                       newId: Uuid) returns (o: Outcome<()>)
      modifies this
      ensures Follows(ApplyChange(old(Tables()), now, action, q, reply, newId), o, Tables())
      ensures StockInvariant.StockOk(old(Tables())) && o.Ok? ==> StockInvariant.StockOk(Tables())
    {
      if StockInvariant.StockOk(Tables()) { ChangeKeeps(Tables(), now, action, q, reply, newId); }
      if q.stock !in lots {
        return Err(Fault(NotFound, 404));
      }
      match action {
        case Adjust => o := AdjustStock(q, reply);
        case Move => o := MoveStock(now, q, reply, newId);
        case WriteOff => o := WriteOffStock(q);
      }
    }

    method AdjustStock(q: Change, reply: Reply<Location>) returns (o: Outcome<()>)
      requires q.stock in lots
      modifies this
      ensures Follows(AdjustLot(old(Tables()), q, reply), o, Tables())
    {
      var x := lots[q.stock];
      if q.quantity < 0 || q.quantity > MAX_QUANTITY {
        return Err(Fault(ValidationError, 400));
      }
      if q.quantity < x.reserved {
        return Err(Fail(ReservedStock));
      }
      var delta := q.quantity - x.quantity;
      if q.reason == "" {
        return Err(Fault(ValidationError, 400));
      }
      if x.location.None? && delta > 0 {
        return Err(Fail(UnplacedStock));
      }
      if x.location.Some? && delta != 0 {
        o := ChangeCapacity(x, x.location.value, delta, reply);
        if o.Err? {
          return;
        }
      }
      o := Update(q.stock, x.(quantity := q.quantity));
      if o.Ok? {
        Announce(StockAdjusted(q.stock, x.product, x.warehouse, q.quantity, delta, q.reason));
      }
    }

    method MoveStock(now: Time, q: Change, reply: Reply<Location>, newId: Uuid) returns (o: Outcome<()>)
      requires q.stock in lots
      modifies this
      ensures Follows(MoveLot(old(Tables()), now, q, reply, newId), o, Tables())
    {
      var x := lots[q.stock];
      var wrong := CheckQuantity(q.quantity, AvailableUnits(x.quantity, x.reserved));
      if wrong.Some? {
        return Err(wrong.value);
      }
      if x.location == Some(q.to) {
        return Err(Fail(SameLocation));
      }
      o := ChangeCapacity(x, q.to, q.quantity, reply);
      if o.Err? {
        return;
      }
      o := Insert(newId, x.(location := Some(q.to), quantity := q.quantity, reserved := 0, created := now));
      if o.Err? {
        return;
      }
      o := TakeOut(q.stock, x, q.quantity);
      if o.Ok? {
        Announce(StockMoved(q.stock, newId, x.product, x.warehouse, q.quantity, x.location, q.to));
      }
    }

    method WriteOffStock(q: Change) returns (o: Outcome<()>)
      requires q.stock in lots
      modifies this
      ensures Follows(WriteOffLot(old(Tables()), q), o, Tables())
    {
      var x := lots[q.stock];
      var wrong := CheckQuantity(q.quantity, AvailableUnits(x.quantity, x.reserved));
      if wrong.Some? {
        return Err(wrong.value);
      }
      if q.reason == "" {
        return Err(Fault(ValidationError, 400));
      }
      o := TakeOut(q.stock, x, q.quantity);
      if o.Ok? {
        Announce(StockWrittenOff(q.stock, x.product, x.warehouse, q.quantity, q.reason));
      }
    }

    /** Reserves `n` units of one lot. */
    method TakeUnits(reservation: Uuid, stock: Uuid, n: int) returns (o: Outcome<()>)
      modifies this
      ensures Follows(Take(old(Tables()), reservation, stock, n), o, Tables())
    {
      if stock !in lots {
        return Err(Broken(ForeignKeyViolated));
      }
      o := Update(stock, lots[stock].(reserved := lots[stock].reserved + n));
      if o.Err? {
        return;
      }
      if exists i | 0 <= i < |allocs| :: allocs[i].reservation == reservation && allocs[i].stock == stock {
        return Err(Broken(DuplicateKey));
      }
      if n <= 0 {
        return Err(Broken(CheckViolated));
      }
      allocs := allocs + [Alloc(reservation, stock, n)];
    }

    /** The greedy loop over the lots of one line, soonest to expire first. */
    method TakeLine(reservation: Uuid, offers: seq<Offer>, quantity: int) returns (o: Outcome<int>)
      modifies this
      ensures match TakeAll(old(Tables()), reservation, offers, quantity)
              case Ok(taking) => o == Ok(taking.remaining) && Tables() == taking.db
              case Err(e) => o == Err(e)
    {
      var remaining, i := quantity, 0;
      while i < |offers|
        invariant 0 <= i <= |offers|
        invariant TakeAll(old(Tables()), reservation, offers, quantity)
               == TakeAll(Tables(), reservation, offers[i..], remaining)
      {
        assert offers[i..][0] == offers[i] && offers[i..][1..] == offers[i + 1..];
        var take := Min(remaining, offers[i].free);
        if take <= 0 {
          break;
        }
        var taken := TakeUnits(reservation, offers[i].stock, take);
        if taken.Err? {
          return Err(taken.error);
        }
        remaining := remaining - take;
        i := i + 1;
      }
      o := Ok(remaining);
    }

    method Reserve(now: Time, reservation: Uuid, warehouse: Uuid, lines: seq<Line>,
                   expires: Time) returns (o: Outcome<()>)
      modifies this
      ensures Follows(InventoryRules.Reserve(old(Tables()), now, reservation, warehouse, lines, expires), o, Tables())
    {
      if reservation in bookings {
        return Ok(());
      }
      if expires <= now {
        return Err(Fail(Expired));
      }
      if lines == [] {
        return Err(Fault(ValidationError, 400));
      }
      bookings := bookings[reservation := Booking(warehouse, Confirmed, expires, None)];
      ghost var booked := Tables();
      var seen: set<Uuid>, i := {}, 0;
      while i < |lines|
        invariant 0 <= i <= |lines|
        invariant TakeLines(booked, reservation, warehouse, Today(now), lines, {})
               == TakeLines(Tables(), reservation, warehouse, Today(now), lines[i..], seen)
      {
        assert lines[i..][0] == lines[i] && lines[i..][1..] == lines[i + 1..];
        var line := lines[i];
        if line.quantity <= 0 || line.product in seen {
          return Err(Fault(ValidationError, 400));
        }
        seen := seen + {line.product};
        var offers := Offers(EligibleLots(Tables(), warehouse, line.product, Today(now)));
        var remaining := TakeLine(reservation, offers, line.quantity);
        if remaining.Err? {
          return Err(remaining.error);
        }
        if remaining.value > 0 {
          return Err(Fail(InsufficientStock));
        }
        i := i + 1;
      }
      Announce(StockReserved(reservation, warehouse, lines, expires));
      o := Ok(());
    }

    method Release(reservation: Uuid, expired: bool) returns (o: Outcome<()>)
      modifies this
      ensures Follows(InventoryRules.Release(old(Tables()), reservation, expired), o, Tables())
      ensures StockInvariant.StockOk(old(Tables())) && o.Ok? ==> StockInvariant.StockOk(Tables())
    {
      if StockInvariant.StockOk(Tables()) { Closing.ReleaseKeeps(Tables(), reservation, expired); }
      if reservation !in bookings {
        return Err(Broken(NotYetProcessed));
      }
      var b := bookings[reservation];
      if b.status == Completed {
        return Err(Fail(AlreadyShipped));
      }
      if b.status != Confirmed {
        return Ok(());
      }
      var rows := RowsOf(allocs, reservation);
      var given := GiveBack(lots, rows);
      if given.Err? {
        return Err(given.error);
      }
      lots := given.value;
      bookings := bookings[reservation := b.(status := if expired then ExpiredStatus else Cancelled)];
      var items := ItemsOf(lots, rows);
      Announce(if expired then ReservationExpired(reservation, b.warehouse, items)
               else StockReservationCancelled(reservation, b.warehouse, items));
      o := Ok(());
    }

    /** Deducts one allocation from its lot and from the location of the lot. */
    method ShipOne(now: Time, a: Alloc) returns (o: Outcome<Item>)
      modifies this
      ensures match ShipRow(old(Tables()), now, a)
              case Ok(db) => o.Ok? && Tables() == db
              case Err(e) => o == Err(e)
      ensures o.Ok? ==> bookings == old(bookings) && SameProducts(old(lots), lots)
                        && a.stock in lots && o.value == Item(lots[a.stock].product, a.stock, a.quantity)
    {
      if a.stock !in lots {
        return Err(Fault(NotFound, 404));
      }
      var x := lots[a.stock];
      if x.expiration.Some? && x.expiration.value <= Today(now) {
        return Err(Fail(ExpiredStock));
      }
      if x.location.None? {
        return Err(Broken(ReservedUnplaced));
      }
      var done := ChangeCapacity(x, x.location.value, -a.quantity, NoAnswer);
      if done.Err? {
        return Err(done.error);
      }
      done := Update(a.stock, x.(quantity := x.quantity - a.quantity, reserved := x.reserved - a.quantity));
      if done.Err? {
        return Err(done.error);
      }
      o := Ok(Item(x.product, a.stock, a.quantity));
    }

    method Ship(now: Time, reservation: Uuid, warehouse: Uuid, shipment: Uuid) returns (o: Outcome<()>)
      modifies this
      ensures Follows(InventoryRules.Ship(old(Tables()), now, reservation, warehouse, shipment), o, Tables())
    {
      if reservation !in bookings {
        return Err(Fail(ReservationRequired));
      }
      var b := bookings[reservation];
      if b.status == Completed && b.shipment == Some(shipment) {
        return Ok(());
      }
      if b.status != Confirmed || b.expires <= now {
        return Err(Fail(ReservationUnavailable));
      }
      if b.warehouse != warehouse {
        return Err(Fail(WrongWarehouse));
      }
      var rows := RowsOf(allocs, reservation);
      var items: seq<Item>, i := [], 0;
      while i < |rows|
        invariant 0 <= i <= |rows|
        invariant ShipRows(old(Tables()), now, rows) == ShipRows(Tables(), now, rows[i..])
        invariant bookings == old(bookings) && SameProducts(old(lots), lots)
        invariant ItemsOf(old(lots), rows) == items + ItemsOf(old(lots), rows[i..])
      {
        assert rows[i..][0] == rows[i] && rows[i..][1..] == rows[i + 1..];
        var a := rows[i];
        var item := ShipOne(now, a);
        if item.Err? {
          return Err(item.error);
        }
        items := items + [item.value];
        i := i + 1;
      }
      assert items == ItemsOf(old(lots), rows);
      bookings := bookings[reservation := b.(status := Completed, shipment := Some(shipment))];
      Announce(StockShipped(reservation, warehouse, shipment, items));
      o := Ok(());
    }

    method Place(stock: Uuid, warehouse: Uuid, location: Uuid, reply: Reply<Location>) returns (o: Outcome<()>)
      modifies this
      ensures Follows(InventoryRules.Place(old(Tables()), stock, warehouse, location, reply), o, Tables())
      ensures StockInvariant.StockOk(old(Tables())) && o.Ok? ==> StockInvariant.StockOk(Tables())
    {
      if StockInvariant.StockOk(Tables()) { StockInvariant.PlaceKeeps(Tables(), stock, warehouse, location, reply); }
      if stock !in lots {
        return Err(Fault(NotFound, 404));
      }
      var x := lots[stock];
      if x.warehouse != warehouse {
        return Err(Fail(WrongWarehouse));
      }
      if x.location.Some? || x.quantity == 0 {
        return Ok(());
      }
      o := ChangeCapacity(x, location, x.quantity, reply);
      if o.Err? {
        return;
      }
      o := Update(stock, x.(location := Some(location)));
      if o.Ok? {
        Announce(StockAdded(stock, x.product, x.warehouse, location, x.quantity));
      }
    }

    /** Restores the tables of a savepoint or of the beginning of a transaction. */
    method Rollback(savepoint: Db)
      modifies this
      ensures Tables() == savepoint
    {
      lots, allocs, bookings := savepoint.lots, savepoint.allocs, savepoint.bookings;
      ledger, outbox := savepoint.ledger, savepoint.outbox;
    }

    /** The business part runs behind a savepoint; a refusal is recorded after it has been
        rolled back. */
    method Handle(now: Time, e: Event, reply: Reply<Location>) returns (o: Outcome<()>)
      modifies this
      ensures Follows(InventoryRules.Handle(old(Tables()), now, e, reply), o, Tables())
    {
      if !Relevant(e) {
        return Ok(());
      }
      var savepoint := Tables();
      match e {
        case ReservationRequested(r, w, lines, expires) => o := Reserve(now, r, w, lines, expires);
        case ReservationCancellationRequested(r, _, _) => o := Release(r, false);
        case ShipmentRequested(s, w, r) => o := Ship(now, r, w, s);
        case ProductPlacementAssigned(stock, w, l, _) => o := Place(stock, w, l, reply);
      }
      if o.Ok? {
        return;
      }
      Rollback(savepoint);
      if !Business(o.error) {
        return;
      }
      if e.ReservationRequested? && e.reservation !in bookings {
        bookings := bookings[e.reservation := Booking(e.warehouse, Rejected, now, None)];
      }
      Announce(Refusal(e, o.error.code));
      o := Ok(());
    }

    /** One transaction: its effects are committed together or not at all. The tables stay
        sound, and with new ids and sized products a failure is a missing answer or a
        command that came too early. */
    method Transact(t: Transaction, ghost world: map<Uuid, Site>) returns (o: Outcome<()>)
      modifies this
      ensures Tables() == Commit(old(Tables()), t)
      ensures match Attempt(old(Tables()), t) case Ok(_) => o == Ok(()) case Err(e) => o == Err(e)
      ensures InventorySafety.Sound(world, old(Tables())) && InventorySafety.HonestFor(world, old(Tables()), t) ==>
                InventorySafety.Sound(world, Tables())
                && (InventorySafety.WellMet(old(Tables()), t) && o.Err? && o.error.Broken? ==>
                      o.error.defect == Unreachable || o.error.defect == NotYetProcessed)
    {
      var beginning := Tables();
      match t {
        case Receiving(now, q, product, active, newId) => o := ReceiveGoods(now, q, product, active, newId);
        case Changing(now, action, q, reply, newId) => o := ChangeStock(now, action, q, reply, newId);
        case Consuming(now, e, reply) => o := Handle(now, e, reply);
        case Expiring(r) => o := Release(r, true);
      }
      if o.Err? {
        Rollback(beginning);
      }
      ghost var sound := InventorySafety.Sound(world, beginning) && InventorySafety.HonestFor(world, beginning, t);
      if sound {
        InventorySafety.CommitSafe(world, beginning, t);
      }
    }

    /** `where status='CONFIRMED' and expires_at<=now() limit 100` */
    method ScanOverdue(now: Time) returns (batch: seq<Uuid>)
      ensures Expiry.Scans(Tables(), now, batch)
      ensures forall r | r in batch ::
                r in bookings && bookings[r].status == Confirmed && bookings[r].expires <= now
      ensures |batch| <= 100
      ensures |batch| < 100 ==>
                forall r | StockInvariant.IsConfirmed(bookings, r) && bookings[r].expires <= now :: r in batch
    {
      var rest := Expiry.Overdue(Tables(), now);
      batch := [];
      while rest != {} && |batch| < Expiry.BATCH
        invariant rest <= Expiry.Overdue(Tables(), now) && |rest| + |batch| == |Expiry.Overdue(Tables(), now)|
        invariant |batch| <= Expiry.BATCH
        invariant forall r | r in batch :: r in Expiry.Overdue(Tables(), now) && r !in rest
        invariant forall i, k | 0 <= i < k < |batch| :: batch[i] != batch[k]
      {
        var r :| r in rest;
        rest := rest - {r};
        batch := batch + [r];
      }
      Expiry.ShortScan(Tables(), now, batch);
    }

    /** One tick of the worker with nothing else going on: every scanned reservation gets
        a transaction of its own and none that was due when it was scanned is left. */
    method ExpireOverdue(now: Time, ghost world: map<Uuid, Site>)
      requires InventorySafety.Sound(world, Tables())
      modifies this
      ensures InventorySafety.Sound(world, Tables())
      ensures || (forall r | StockInvariant.IsConfirmed(bookings, r) :: now < bookings[r].expires)
              || |Expiry.Overdue(Tables(), now)| + 100 <= |old(Expiry.Overdue(Tables(), now))|
    {
      hide InventorySafety.Sound, Expiry.Overdue, Expiry.Scans;
      var batch := ScanOverdue(now);
      ghost var before, ts := Tables(), [];
      for i := 0 to |batch|
        invariant InventorySafety.Sound(world, Tables())
        invariant ts == Expirings(batch[..i]) && Tables() == Run(before, ts)
      {
        var o := Transact(Expiring(batch[i]), world);
        assert batch[..i + 1] == batch[..i] + [batch[i]];
        ExpiringsAppend(batch[..i], batch[i]);
        Serial.RunAppends(before, ts, Expiring(batch[i]));
        ts := ts + [Expiring(batch[i])];
      }
      assert batch[..|batch|] == batch;
      ExpiringsFacts(world, before, batch);
      Expiry.PassDrains(world, before, Expiry.Pass(now, batch, ts), now, now);
      Expiry.DrainedMeans(Tables(), now);
    }
  }

  // ----- the worker's transactions as a run -----

  function Expirings(batch: seq<Uuid>): seq<Transaction> {
    seq(|batch|, i requires 0 <= i < |batch| => Expiring(batch[i]))
  }

  lemma ExpiringsAppend(batch: seq<Uuid>, r: Uuid)
    ensures Expirings(batch + [r]) == Expirings(batch) + [Expiring(r)]
  {
  }

  lemma {:induction false} ExpiringsAreHonest(world: map<Uuid, Site>, db: Db, ts: seq<Transaction>)
    requires forall t | t in ts :: t.Expiring?
    ensures InventorySafety.HonestRun(world, db, ts)
    decreases |ts|
  {
    if ts != [] {
      assert ts[0] in ts;
      ExpiringsAreHonest(world, Commit(db, ts[0]), ts[1..]);
    }
  }

  lemma ExpiringsFacts(world: map<Uuid, Site>, db: Db, batch: seq<Uuid>)
    ensures InventorySafety.HonestRun(world, db, Expirings(batch))
    ensures forall t | t in Expirings(batch) :: Expiry.Calm(t)
    ensures forall r | r in batch :: Expiring(r) in Expirings(batch)
  {
    ExpiringsAreHonest(world, db, Expirings(batch));
    forall r | r in batch ensures Expiring(r) in Expirings(batch) {
      var i :| 0 <= i < |batch| && batch[i] == r;
      assert Expirings(batch)[i] == Expiring(r);
    }
  }

  // ----- shipping leaves the products of lots alone -----

  predicate SameProducts(lots: map<Uuid, Lot>, after: map<Uuid, Lot>) {
    lots.Keys == after.Keys && forall id | id in lots :: after[id].product == lots[id].product
  }

  lemma ChangeKeeps(db: Db, now: Time, action: Action, q: Change, reply: Reply<Location>, newId: Uuid)
    requires StockInvariant.StockOk(db)
    ensures var o := ApplyChange(db, now, action, q, reply, newId); o.Ok? ==> StockInvariant.StockOk(o.value)
  {
    hide StockInvariant.StockOk, AdjustLot, MoveLot, WriteOffLot;
    if q.stock in db.lots {
      match action
      case Adjust => StockInvariant.AdjustKeeps(db, q, reply);
      case Move => StockInvariant.MoveKeeps(db, now, q, reply, newId);
      case WriteOff => StockInvariant.WriteOffKeeps(db, q);
    }
  }
}
