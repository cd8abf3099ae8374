/** What becomes of a cancellation, a shipment and a placement that the inventory service
    consumes: for sound tables, exactly when each takes effect, and what it then leaves
    behind. The decision on a reservation request is in `ReserveDecision`. */
module Decisions {
  import opened Domain
  import opened Events
  import opened InventoryRules
  import opened Totals
  import opened StockInvariant
  import opened Closing
  import opened LedgerInvariant
  import opened Admission

  /** The command leaves one event and nothing else. */
  ghost predicate OnlyTells(db: Db, o: Outcome<Db>, e: Event) {
    o == Ok(db.(outbox := db.outbox + [e]))
  }

  // ----- cancellations -----

  /** A cancellation waits for its request, is refused after the shipment, closes a
      confirmed reservation giving back what it holds, and is ignored otherwise. */
  lemma CancellationDecides(db: Db, now: Time, r: Uuid, w: Uuid, requester: Option<Uuid>, reply: Reply<Location>)
    requires StockOk(db)
    ensures var o := Handle(db, now, ReservationCancellationRequested(r, w, requester), reply);
            if r !in db.bookings then o == Err(Broken(NotYetProcessed))
            else if db.bookings[r].status == Completed then
              OnlyTells(db, o, ReservationCancellationRejected(r, w, requester, AlreadyShipped))
            else if db.bookings[r].status == Confirmed then
              && o.Ok?
              && o.value.lots == Releasing(db.lots, RowsOf(db.allocs, r))
              && o.value.bookings == db.bookings[r := db.bookings[r].(status := Cancelled)]
              && o.value.allocs == db.allocs && o.value.ledger == db.ledger
              && o.value.outbox == db.outbox
                  + [StockReservationCancelled(r, db.bookings[r].warehouse, ItemsOf(db.lots, RowsOf(db.allocs, r)))]
            else o == Ok(db)
  {
    if IsConfirmed(db.bookings, r) { ReleaseIs(db, r, false); }
    hide StockOk, RowsOf, ItemsOf, UnitsOf, GiveBack;
  }

  // ----- shipments -----

  /** The day the lot expires on has not begun. */
  predicate Fresh(x: Lot, now: Time) {
    x.expiration.Some? ==> now < x.expiration.value * 86400
  }

  predicate AllFresh(lots: map<Uuid, Lot>, rows: seq<Alloc>, now: Time) {
    forall a | a in rows :: a.stock in lots && Fresh(lots[a.stock], now)
  }

  lemma FreshToday(x: Lot, now: Time)
    ensures Fresh(x, now) <==> x.expiration.None? || x.expiration.value > Today(now)
  {
    if x.expiration.Some? { DayBegins(now, x.expiration.value); }
  }

  /** The loop stops at an expired lot, and at nothing else that a sound database holds. */
  lemma {:induction false} ShipRowsFresh(db: Db, now: Time, rows: seq<Alloc>)
    requires Backed(db.lots, rows)
    ensures var o := ShipRows(db, now, rows);
            && (o.Ok? ==> AllFresh(db.lots, rows, now))
            && (o.Err? ==> o.error == Fail(ExpiredStock) || o.error == Broken(CapacityViolated))
            && (o == Err(Fail(ExpiredStock)) ==> !AllFresh(db.lots, rows, now))
    decreases |rows|
  {
    if rows != [] {
      var a := rows[0];
      BackedHead(db.lots, rows);
      BackedStep(db.lots, rows);
      ShipRowIs(db, now, a);
      FreshRest(db.lots, rows, now);
      FreshToday(db.lots[a.stock], now);
      var o := ShipRow(db, now, a);
      if o.Ok? {
        hide Charge, Backed;
        ShipRowsFresh(o.value, now, rows[1..]);
      } else {
        if o == Err(Fail(ExpiredStock)) { RowStops(db, now, a); }
        hide Charge, Backed;
        assert a in rows;
      }
    }
  }

  lemma RowStops(db: Db, now: Time, a: Alloc)
    requires a.stock in db.lots && ShipRow(db, now, a) == Err(Fail(ExpiredStock))
    ensures !Fresh(db.lots[a.stock], now)
  {
    FreshToday(db.lots[a.stock], now);
    if db.lots[a.stock].location.Some? {
      ChargeFrame(db, db.lots[a.stock], db.lots[a.stock].location.value, -a.quantity, NoAnswer);
    }
  }

  lemma FreshRest(lots: map<Uuid, Lot>, rows: seq<Alloc>, now: Time)
    requires rows != [] && rows[0].stock in lots
    ensures AllFresh(lots, rows, now) <==>
              Fresh(lots[rows[0].stock], now) && AllFresh(Shipped1(lots, rows[0]), rows[1..], now)
  {
    if Fresh(lots[rows[0].stock], now) && AllFresh(Shipped1(lots, rows[0]), rows[1..], now) {
      forall a | a in rows ensures a.stock in lots && Fresh(lots[a.stock], now) {
        assert a == rows[0] || a in rows[1..];
      }
    }
    if AllFresh(lots, rows, now) {
      assert rows[0] in rows;
      forall a | a in rows[1..] ensures a.stock in Shipped1(lots, rows[0])
          && Fresh(Shipped1(lots, rows[0])[a.stock], now) {
        assert a in rows;
      }
    }
  }

  /** The reservation may be shipped now: it is confirmed, not overdue, of the warehouse
      named, and no lot it holds has expired. */
  ghost predicate Shippable(db: Db, now: Time, r: Uuid, w: Uuid) {
    && IsConfirmed(db.bookings, r) && db.bookings[r].expires > now && db.bookings[r].warehouse == w
    && AllFresh(db.lots, RowsOf(db.allocs, r), now)
  }

  predicate AlreadyShippedBy(db: Db, r: Uuid, s: Uuid) {
    r in db.bookings && db.bookings[r].status == Completed && db.bookings[r].shipment == Some(s)
  }

  /** The first check that a shipment fails. */
  function WhyNotShipped(db: Db, now: Time, r: Uuid, w: Uuid): Code {
    if r !in db.bookings then ReservationRequired
    else if db.bookings[r].status != Confirmed || db.bookings[r].expires <= now then ReservationUnavailable
    else if db.bookings[r].warehouse != w then WrongWarehouse
    else ExpiredStock
  }

  lemma ShipSucceeds(world: map<Uuid, Site>, db: Db, now: Time, r: Uuid, w: Uuid, s: Uuid)
    requires StockOk(db) && LedgerOk(world, db)
    ensures Ship(db, now, r, w, s).Ok? <==> Shippable(db, now, r, w) || AlreadyShippedBy(db, r, s)
    ensures Ship(db, now, r, w, s).Err? ==> Ship(db, now, r, w, s).error == Fault(WhyNotShipped(db, now, r, w), 409)
  {
    ShipCharges(world, db, now, r, w, s);
    if IsConfirmed(db.bookings, r) {
      var rows := RowsOf(db.allocs, r);
      RowsAreBacked(db, r);
      ShipRowsFresh(db, now, rows);
      hide StockOk, LedgerOk, Backed, RowsOf, ShipRows, ItemsOf, AllFresh;
    }
  }

  /** A shipment request takes effect exactly when the reservation may be shipped; then its
      units leave the lots and the ledger follows. Otherwise a repeated request is ignored
      and any other is refused, leaving one event. */
  lemma ShipmentDecides(world: map<Uuid, Site>, db: Db, now: Time, r: Uuid, w: Uuid, s: Uuid, reply: Reply<Location>)
    requires StockOk(db) && LedgerOk(world, db)
    ensures var o := Handle(db, now, ShipmentRequested(s, w, r), reply);
            if AlreadyShippedBy(db, r, s) then o == Ok(db)
            else if Shippable(db, now, r, w) then
              && o.Ok?
              && o.value.lots == Deducting(db.lots, RowsOf(db.allocs, r))
              && o.value.bookings == db.bookings[r := db.bookings[r].(status := Completed, shipment := Some(s))]
              && o.value.allocs == db.allocs
              && LedgerOk(world, o.value)
              && |o.value.outbox| > 0
              && o.value.outbox[|o.value.outbox| - 1] == StockShipped(r, w, s, ItemsOf(db.lots, RowsOf(db.allocs, r)))
            else OnlyTells(db, o, ShipmentRejected(r, w, s, WhyNotShipped(db, now, r, w)))
  {
    ShipSucceeds(world, db, now, r, w, s);
    ShipCharges(world, db, now, r, w, s);
    hide LedgerOk;
    if Shippable(db, now, r, w) {
      RowsAreBacked(db, r);
      ShipRowsIs(db, now, RowsOf(db.allocs, r));
      hide StockOk, Backed, RowsOf, ShipRows, ItemsOf, AllFresh, Deducting;
    } else if !AlreadyShippedBy(db, r, s) {
      hide StockOk, Ship, Shippable;
      var e := ShipmentRequested(s, w, r);
      assert OnlyTells(db, Handle(db, now, e, reply), ShipmentRejected(r, w, s, Ship(db, now, r, w, s).error.code));
    }
  }

  // ----- placements -----

  /** There is something to place. */
  predicate Placeable(db: Db, stock: Uuid, w: Uuid) {
    stock in db.lots && db.lots[stock].warehouse == w && db.lots[stock].location.None? && db.lots[stock].quantity > 0
  }

  /** The location shown is open, made for the lot, and has room for all of it. */
  ghost predicate HasRoom(db: Db, x: Lot, l: Uuid, location: Location) {
    && IsOpen(location) && TakesLot(location.site, x)
    && RoomFor(db.lots, l, x, x.quantity, location.site.limit)
  }

  /** Why a location does not take a lot. */
  function WhyNotAdmitted(x: Lot, reply: Reply<Location>): Code {
    if !reply.Found? then NotFound
    else if reply.value.site.warehouse != x.warehouse then WrongWarehouse
    else if reply.value.status == Blocked || reply.value.status == Maintenance then LocationBlocked
    else if reply.value.site.zone != Storage || reply.value.site.storage != x.storage then IncompatibleLocation
    else LocationFull
  }

  /** A growing charge that fails is refused, unless the lookup failed or the ledger is broken. */
  lemma ChargeRefuses(db: Db, x: Lot, l: Uuid, delta: int, reply: Reply<Location>)
    requires delta > 0
    ensures var o := Charge(db, x, l, delta, reply);
            o.Err? ==>
              if reply.Found? || reply.Missing? then
                (Business(o.error) && o.error.code == WhyNotAdmitted(x, reply)) || o.error == Broken(CapacityViolated)
              else !Business(o.error)
  {
  }

  /** The steps of placing a lot that is there to be placed. */
  lemma PlaceIs(db: Db, stock: Uuid, w: Uuid, l: Uuid, reply: Reply<Location>)
    requires Placeable(db, stock, w) && RowAllowed(db.lots[stock])
    ensures var x := db.lots[stock];
            var charged := Charge(db, x, l, x.quantity, reply);
            Place(db, stock, w, l, reply) ==
              match charged
              case Ok(c) =>
                  Ok(Emit(c.(lots := db.lots[stock := x.(location := Some(l))]),
                  StockAdded(stock, x.product, w, l, x.quantity)))
              case Err(error) => Err(error)
  {
    ChargeFrame(db, db.lots[stock], l, db.lots[stock].quantity, reply);
    hide Charge;
  }

  /** Placing a lot that is there to be placed succeeds exactly when the location shown takes it. */
  lemma PlaceSucceeds(world: map<Uuid, Site>, db: Db, stock: Uuid, w: Uuid, l: Uuid, reply: Reply<Location>)
    requires StockOk(db) && LedgerOk(world, db) && Honest(world, l, reply) && Placeable(db, stock, w)
    ensures var o := Place(db, stock, w, l, reply);
            && (o.Ok? <==> reply.Found? && HasRoom(db, db.lots[stock], l, reply.value))
            && (o.Ok? ==> LedgerOk(world, o.value))
            && (o.Err? ==> (Business(o.error) <==> reply.Found? || reply.Missing?))
            && (o.Err? && Business(o.error) ==> o.error.code == WhyNotAdmitted(db.lots[stock], reply))
  {
    var x := db.lots[stock];
    StockIsSized(db);
    assert LotOk(db, stock);
    PlaceCharges(world, db, stock, w, l, reply);
    PlaceIs(db, stock, w, l, reply);
    hide StockOk, LedgerOk, Place, Total;
    ChargeAdmits(world, db, x, l, x.quantity, reply);
    ChargeRefuses(db, x, l, x.quantity, reply);
    hide Charge;
  }

  /** An assignment places the lot exactly when the location shown takes it and has room
      next to what stands there; a refusal leaves one event, and only a missing answer
      leaves the assignment to be tried again. */
  lemma PlacementDecides(world: map<Uuid, Site>, db: Db, now: Time, stock: Uuid, w: Uuid, l: Uuid, score: real,
                         reply: Reply<Location>)
    requires StockOk(db) && LedgerOk(world, db) && Honest(world, l, reply)
    ensures var o := Handle(db, now, ProductPlacementAssigned(stock, w, l, score), reply);
            if Placeable(db, stock, w) then
              if reply.Found? && HasRoom(db, db.lots[stock], l, reply.value) then
                && o.Ok?
                && o.value.lots == db.lots[stock := db.lots[stock].(location := Some(l))]
                && o.value.allocs == db.allocs && o.value.bookings == db.bookings
                && LedgerOk(world, o.value)
                && |o.value.outbox| > 0
                && o.value.outbox[|o.value.outbox| - 1]
                    == StockAdded(stock, db.lots[stock].product, w, l, db.lots[stock].quantity)
              else if reply.Found? || reply.Missing? then
                OnlyTells(db, o, PlacementRejected(stock, w, l, WhyNotAdmitted(db.lots[stock], reply)))
              else o.Err?
            else if stock in db.lots && db.lots[stock].warehouse == w then o == Ok(db)
            else OnlyTells(db, o, PlacementRejected(stock, w, l, if stock in db.lots then WrongWarehouse else NotFound))
  {
    var o := Place(db, stock, w, l, reply);
    if Placeable(db, stock, w) {
      assert LotOk(db, stock);
      PlaceSucceeds(world, db, stock, w, l, reply);
      PlaceIs(db, stock, w, l, reply);
      ChargeFrame(db, db.lots[stock], l, db.lots[stock].quantity, reply);
      hide StockOk, LedgerOk, HasRoom, Place, Charge;
    } else if stock in db.lots {
      assert LotOk(db, stock);
      hide StockOk, LedgerOk;
    }
    if o.Err? && Business(o.error) {
      assert OnlyTells(db, Handle(db, now, ProductPlacementAssigned(stock, w, l, score), reply),
          PlacementRejected(stock, w, l, o.error.code));
    }
  }
}
