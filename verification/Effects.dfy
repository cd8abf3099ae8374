/** What one inventory transaction means for the rest of the system: identities and
    decisions are kept for ever, and at most one reservation changes its status,
    announced by exactly one event. */
module Effects {
  import opened Domain
  import opened Events
  import opened InventoryRules
  import opened StockInvariant
  import opened ReserveDecision
  import opened Closing
  import InventorySafety

  // ----- what never changes -----

  predicate SameLot(x: Lot, y: Lot) {
    && y.product == x.product && y.warehouse == x.warehouse && y.unit == x.unit && y.storage == x.storage
    && (x.location.Some? ==> y.location == x.location)
    && (x.location.None? && x.quantity == 0 ==> y.location.None? && y.quantity == 0)
  }

  predicate SameBooking(a: Booking, b: Booking) {
    && b.warehouse == a.warehouse && b.expires == a.expires
    && (a.status != Confirmed ==> b == a)
    && (a.status == Confirmed ==> b.status != Rejected)
  }

  /** No new allocation for a reservation that already has its row. */
  ghost predicate AllocsGrow(db: Db, after: Db) {
    && db.allocs <= after.allocs
    && forall i | |db.allocs| <= i < |after.allocs| :: after.allocs[i].reservation !in db.bookings
  }

  ghost predicate Grows(db: Db, after: Db) {
    && (forall id | id in db.lots :: id in after.lots && SameLot(db.lots[id], after.lots[id]))
    && (forall r | r in db.bookings :: r in after.bookings && SameBooking(db.bookings[r], after.bookings[r]))
    && AllocsGrow(db, after)
    && db.outbox <= after.outbox
  }

  lemma GrowsReflexive(db: Db)
    ensures Grows(db, db)
  {
  }

  lemma GrowsTransitive(a: Db, b: Db, c: Db)
    requires Grows(a, b) && Grows(b, c)
    ensures Grows(a, c)
  {
    forall i | |a.allocs| <= i < |c.allocs|
      ensures c.allocs[i].reservation !in a.bookings
    {
      if i < |b.allocs| {
        assert c.allocs[i] == b.allocs[i];
      } else {
        assert c.allocs[i].reservation !in b.bookings;
      }
    }
  }

  // ----- what is announced -----

  /** The reservation and the status an event announces. */
  function Verdict(e: Event): Option<(Uuid, Status)> {
    match e
    case StockReserved(r, _, _, _) => Some((r, Confirmed))
    case ReservationRejected(r, _, _, _, _) => Some((r, Rejected))
    case StockReservationCancelled(r, _, _) => Some((r, Cancelled))
    case ReservationExpired(r, _, _) => Some((r, ExpiredStatus))
    case StockShipped(r, _, _, _) => Some((r, Completed))
    case _ => None
  }

  /** The other event types the inventory service emits. */
  predicate Silent(e: Event) {
    || e.GoodsReceived? || e.StockAdded? || e.StockMoved? || e.StockWrittenOff? || e.StockAdjusted?
    || e.LocationCapacityChanged? || e.ReservationCancellationRejected? || e.PlacementRejected?
  }

  /** The log grew by inventory events that say nothing about the outcome of a reservation. */
  ghost predicate Quietly(log: seq<Event>, longer: seq<Event>) {
    && log <= longer
    && forall i | |log| <= i < |longer| :: Silent(longer[i])
  }

  ghost predicate Hushed(db: Db, after: Db) {
    after.bookings == db.bookings && Quietly(db.outbox, after.outbox)
  }

  /** A new reservation is confirmed or rejected; a confirmed one is closed. */
  predicate Legal(bookings: map<Uuid, Booking>, r: Uuid, b: Booking) {
    && (if r in bookings then bookings[r].status == Confirmed && b.status != Confirmed && b.status != Rejected
        else b.status == Confirmed || b.status == Rejected)
    && (b.status == Completed ==> b.shipment.Some?)
  }

  /** The last new event announces the only change of a booking. */
  ghost predicate Announced(db: Db, after: Db, r: Uuid, e: Event) {
    && r in after.bookings
    && after.bookings == db.bookings[r := after.bookings[r]]
    && Legal(db.bookings, r, after.bookings[r])
    && Verdict(e) == Some((r, after.bookings[r].status))
    && (e.StockShipped? ==> after.bookings[r].shipment == Some(e.shipment))
    && |after.outbox| > |db.outbox|
    && after.outbox[|after.outbox| - 1] == e
    && Quietly(db.outbox, after.outbox[..|after.outbox| - 1])
  }

  ghost predicate Declined(db: Db, after: Db, r: Uuid, s: Uuid) {
    && after.bookings == db.bookings
    && exists w, code :: after.outbox == db.outbox + [ShipmentRejected(r, w, s, code)]
  }

  // ----- lots only -----

  ghost predicate LotsOnly(db: Db, o: Outcome<Db>) {
    o.Ok? ==> Grows(db, o.value) && Hushed(db, o.value)
  }

  lemma ChargeGrows(db: Db, x: Lot, l: Uuid, delta: int, reply: Reply<Location>)
    ensures LotsOnly(db, Charge(db, x, l, delta, reply))
  {
    hide Settle, Times, Admit;
  }

  lemma ReceiveEffect(db: Db, now: Time, q: Receipt, product: Reply<Product>, active: Reply<bool>, newId: Uuid)
    ensures LotsOnly(db, Receive(db, now, q, product, active, newId))
  {
  }

  /** One lot changes without losing its identity and the log grows quietly. */
  lemma LotChanges(db: Db, id: Uuid, y: Lot, log: seq<Event>, e: Event, after: Db)
    requires id in db.lots && SameLot(db.lots[id], y) && after.lots == db.lots[id := y]
    requires after.bookings == db.bookings && after.allocs == db.allocs
    requires Quietly(db.outbox, log) && Silent(e) && after.outbox == log + [e]
    ensures Grows(db, after) && Hushed(db, after)
  {
  }

  lemma AdjustEffect(db: Db, q: Change, reply: Reply<Location>)
    requires q.stock in db.lots && RowAllowed(db.lots[q.stock])
    ensures LotsOnly(db, AdjustLot(db, q, reply))
  {
    var x := db.lots[q.stock];
    var delta := q.quantity - x.quantity;
    var o := AdjustLot(db, q, reply);
    assert Quietly(db.outbox, db.outbox);
    hide AdjustLot, Charge, Grows, Quietly;
    if o.Ok? {
      AdjustFrame(db, q, reply);
      AdjustLog(db, q, reply);
      var moves := x.location.Some? && delta != 0;
      if moves {
        ChargeGrows(db, x, x.location.value, delta, reply);
      }
      var log := if moves then Charge(db, x, x.location.value, delta, reply).value.outbox else db.outbox;
      LotChanges(db, q.stock, x.(quantity := q.quantity), log,
                 StockAdjusted(q.stock, x.product, x.warehouse, q.quantity, delta, q.reason), o.value);
    }
  }

  lemma AdjustLog(db: Db, q: Change, reply: Reply<Location>)
    requires q.stock in db.lots && AdjustLot(db, q, reply).Ok?
    ensures var x := db.lots[q.stock];
            var delta := q.quantity - x.quantity;
            var e := StockAdjusted(q.stock, x.product, x.warehouse, q.quantity, delta, q.reason);
            && (x.location.Some? && delta != 0 ==> Charge(db, x, x.location.value, delta, reply).Ok?)
            && (x.location.None? ==> delta <= 0)
            && AdjustLot(db, q, reply).value.outbox ==
              (if x.location.Some? && delta != 0 then Charge(db, x, x.location.value, delta, reply).value.outbox
               else db.outbox) + [e]
  {
    hide Charge;
  }

  lemma WithdrawEffect(db: Db, id: Uuid, n: int)
    requires id in db.lots && 0 < n <= db.lots[id].quantity - db.lots[id].reserved && RowAllowed(db.lots[id])
    ensures LotsOnly(db, Withdraw(db, id, db.lots[id], n))
  {
    hide Charge;
    var x := db.lots[id];
    if x.location.Some? {
      ChargeGrows(db, x, x.location.value, -n, NoAnswer);
      ChargeFrame(db, x, x.location.value, -n, NoAnswer);
    }
  }

  lemma WriteOffEffect(db: Db, q: Change)
    requires StockOk(db) && q.stock in db.lots
    ensures LotsOnly(db, WriteOffLot(db, q))
  {
    assert LotOk(db, q.stock);
    hide Withdraw, StockOk;
    if 0 < q.quantity <= db.lots[q.stock].quantity - db.lots[q.stock].reserved {
      WithdrawEffect(db, q.stock, q.quantity);
    }
  }

  /** A successful move charges the destination, inserts the new lot and withdraws the units. */
  lemma MoveSteps(db: Db, now: Time, q: Change, reply: Reply<Location>, newId: Uuid)
    requires q.stock in db.lots && MoveLot(db, now, q, reply, newId).Ok?
    ensures var x := db.lots[q.stock];
            var charged := Charge(db, x, q.to, q.quantity, reply);
            && 0 < q.quantity <= x.quantity - x.reserved
            && charged.Ok? && newId !in charged.value.lots
            && var copy := x.(location := Some(q.to), quantity := q.quantity, reserved := 0, created := now);
               var inserted := charged.value.(lots := charged.value.lots[newId := copy]);
               var left := Withdraw(inserted, q.stock, x, q.quantity);
               left.Ok? && MoveLot(db, now, q, reply, newId).value ==
                 Emit(left.value, StockMoved(q.stock, newId, x.product, x.warehouse, q.quantity, x.location, q.to))
  {
    hide Charge, Withdraw;
  }

  lemma OneMore(db: Db, after: Db, e: Event)
    requires Grows(db, after) && Hushed(db, after) && Silent(e)
    ensures Grows(db, Emit(after, e)) && Hushed(db, Emit(after, e))
  {
  }

  lemma MoveEffect(db: Db, now: Time, q: Change, reply: Reply<Location>, newId: Uuid)
    requires StockOk(db) && q.stock in db.lots
    ensures LotsOnly(db, MoveLot(db, now, q, reply, newId))
  {
    assert LotOk(db, q.stock);
    hide Charge, Withdraw, StockOk, MoveLot;
    var x := db.lots[q.stock];
    if MoveLot(db, now, q, reply, newId).Ok? {
      MoveSteps(db, now, q, reply, newId);
      ChargeGrows(db, x, q.to, q.quantity, reply);
      ChargeFrame(db, x, q.to, q.quantity, reply);
      var charged := Charge(db, x, q.to, q.quantity, reply).value;
      var copy := x.(location := Some(q.to), quantity := q.quantity, reserved := 0, created := now);
      var inserted := charged.(lots := charged.lots[newId := copy]);
      WithdrawEffect(inserted, q.stock, q.quantity);
      var left := Withdraw(inserted, q.stock, x, q.quantity).value;
      GrowsTransitive(db, inserted, left);
      OneMore(db, left, StockMoved(q.stock, newId, x.product, x.warehouse, q.quantity, x.location, q.to));
    }
  }

  lemma PlaceEffect(db: Db, stock: Uuid, w: Uuid, l: Uuid, reply: Reply<Location>)
    ensures LotsOnly(db, Place(db, stock, w, l, reply))
  {
    hide Charge;
    if stock in db.lots {
      ChargeGrows(db, db.lots[stock], l, db.lots[stock].quantity, reply);
      ChargeFrame(db, db.lots[stock], l, db.lots[stock].quantity, reply);
    }
  }

  // ----- reservations -----

  /** A booking changes and the event that says so is the last one in the log. */
  lemma Announces(db: Db, log: seq<Event>, r: Uuid, b: Booking, e: Event, after: Db)
    requires Quietly(db.outbox, log) && after.outbox == log + [e]
    requires after.bookings == db.bookings[r := b] && Legal(db.bookings, r, b)
    requires Verdict(e) == Some((r, b.status)) && (e.StockShipped? ==> b.shipment == Some(e.shipment))
    ensures Announced(db, after, r, e)
  {
    assert after.outbox[..|after.outbox| - 1] == log;
  }

  lemma DecidingGrows(db: Db, r: Uuid, b: Booking, rows: seq<Alloc>, after: Db)
    requires r !in db.bookings && forall a | a in rows :: a.reservation == r
    requires after.lots == Reserving(db.lots, rows) && after.allocs == db.allocs + rows
    requires after.bookings == db.bookings[r := b] && db.outbox <= after.outbox
    ensures Grows(db, after)
  {
    hide UnitsOf;
    forall i | |db.allocs| <= i < |after.allocs|
      ensures after.allocs[i].reservation !in db.bookings
    {
      assert after.allocs[i] in rows;
    }
  }

  lemma ClosingGrows(db: Db, r: Uuid, b: Booking, after: Db)
    requires r in db.bookings && SameBooking(db.bookings[r], b)
    requires forall id | id in db.lots :: id in after.lots && SameLot(db.lots[id], after.lots[id])
    requires after.allocs == db.allocs && after.bookings == db.bookings[r := b] && db.outbox <= after.outbox
    ensures Grows(db, after)
  {
  }

  lemma ReserveEffect(db: Db, now: Time, r: Uuid, w: Uuid, lines: seq<Line>, expires: Time, reply: Reply<Location>)
    requires StockOk(db)
    ensures var o := Handle(db, now, ReservationRequested(r, w, lines, expires), reply);
            && o.Ok? && Grows(db, o.value)
            && (if r in db.bookings then o.value == db
                else
                  && r in o.value.bookings && o.value.bookings[r].warehouse == w
                  && exists e :: Announced(db, o.value, r, e) && (e.StockReserved? ==> e.lines == lines))
  {
    hide StockOk, Picks, Reserving, WellFormed, Coverable, ProductUnits, Grows, Announced, LineUnits;
    if r in db.bookings {
      GrowsReflexive(db);
    } else {
      ReserveDecides(db, now, r, w, lines, expires, reply);
      hide Handle;
      if Acceptable(db, now, w, lines, expires) {
        ReserveAnnounced(db, now, r, w, lines, expires, reply);
      } else {
        var after := Handle(db, now, ReservationRequested(r, w, lines, expires), reply).value;
        var code :| after.outbox == db.outbox + [ReservationRejected(r, w, lines, expires, code)];
        RejectingGrows(db, r, Booking(w, Rejected, now, None), after);
        Announces(db, db.outbox, r, Booking(w, Rejected, now, None), ReservationRejected(r, w, lines, expires, code),
            after);
      }
    }
  }

  lemma ReserveAnnounced(db: Db, now: Time, r: Uuid, w: Uuid, lines: seq<Line>, expires: Time, reply: Reply<Location>)
    requires StockOk(db) && r !in db.bookings && Acceptable(db, now, w, lines, expires)
    ensures var o := Handle(db, now, ReservationRequested(r, w, lines, expires), reply);
            && o.Ok? && Grows(db, o.value)
            && Announced(db, o.value, r, StockReserved(r, w, lines, expires))
            && r in o.value.bookings && o.value.bookings[r].warehouse == w
  {
    hide StockOk, Picks, Reserving, Acceptable, ProductUnits, Grows, Announced, LineUnits, Handle;
    ReserveDecides(db, now, r, w, lines, expires, reply);
    PicksAreFor(db, r, w, Today(now), lines);
    var after := Handle(db, now, ReservationRequested(r, w, lines, expires), reply).value;
    DecidingGrows(db, r, Booking(w, Confirmed, expires, None), Picks(db, r, w, Today(now), lines), after);
    Announces(db, db.outbox, r, Booking(w, Confirmed, expires, None), StockReserved(r, w, lines, expires), after);
  }

  lemma RejectingGrows(db: Db, r: Uuid, b: Booking, after: Db)
    requires r !in db.bookings && after.lots == db.lots && after.allocs == db.allocs
    requires after.bookings == db.bookings[r := b] && db.outbox <= after.outbox
    ensures Grows(db, after)
  {
  }

  /** Closing a reservation empties no unplaced lot and moves none. */
  lemma ClosingSame(db: Db, r: Uuid)
    requires StockOk(db) && IsConfirmed(db.bookings, r)
    ensures forall id | id in db.lots ::
              && SameLot(db.lots[id], Releasing(db.lots, RowsOf(db.allocs, r))[id])
              && SameLot(db.lots[id], Deducting(db.lots, RowsOf(db.allocs, r))[id])
  {
    forall id | id in db.lots
      ensures SameLot(db.lots[id], Releasing(db.lots, RowsOf(db.allocs, r))[id])
      ensures SameLot(db.lots[id], Deducting(db.lots, RowsOf(db.allocs, r))[id])
    {
      assert LotOk(db, id);
      UnitsHeld(db, r, id);
    }
  }

  lemma {:induction false} PicksAreFor(db: Db, r: Uuid, w: Uuid, today: int, lines: seq<Line>)
    ensures forall a | a in Picks(db, r, w, today, lines) :: a.reservation == r
  {
    if lines != [] {
      GreedyIsFor(r, LineOffers(db, w, today, lines[0]), lines[0].quantity);
      PicksAreFor(db, r, w, today, lines[1..]);
    }
  }

  lemma {:induction false} GreedyIsFor(r: Uuid, offers: seq<Offer>, q: int)
    ensures forall a | a in Fefo.Greedy(r, offers, q) :: a.reservation == r
    decreases |offers|
  {
    if offers != [] && Min(q, offers[0].free) > 0 {
      GreedyIsFor(r, offers[1..], q - Min(q, offers[0].free));
    }
  }

  lemma ReleaseEffect(db: Db, r: Uuid, expired: bool)
    requires StockOk(db)
    ensures var o := Release(db, r, expired);
            && (o.Ok? ==>
                  && Grows(db, o.value)
                  && r in db.bookings
                  && (if db.bookings[r].status == Confirmed then
                        && o.value.bookings[r].status == (if expired then ExpiredStatus else Cancelled)
                        && exists e :: Announced(db, o.value, r, e)
                      else o.value == db))
            && (IsConfirmed(db.bookings, r) ==> o.Ok?)
  {
    if IsConfirmed(db.bookings, r) {
      ReleaseIs(db, r, expired);
      ClosingSame(db, r);
      hide Release, StockOk, RowsOf, Releasing, Deducting, ItemsOf, Grows, Announced;
      var after := Release(db, r, expired).value;
      ClosingGrows(db, r, after.bookings[r], after);
      Announces(db, db.outbox, r, after.bookings[r], after.outbox[|db.outbox|], after);
    } else {
      GrowsReflexive(db);
    }
  }

  lemma ShipEffect(db: Db, now: Time, r: Uuid, w: Uuid, s: Uuid)
    requires StockOk(db)
    ensures var o := Ship(db, now, r, w, s);
            o.Ok? ==>
              && Grows(db, o.value)
              && r in db.bookings
              && (if db.bookings[r].status == Confirmed then
                    && o.value.bookings[r].status == Completed
                    && o.value.bookings[r].shipment == Some(s)
                    && exists e :: Announced(db, o.value, r, e)
                  else o.value == db && db.bookings[r].status == Completed && db.bookings[r].shipment == Some(s))
  {
    var o := Ship(db, now, r, w, s);
    if o.Ok? && IsConfirmed(db.bookings, r) {
      var rows := RowsOf(db.allocs, r);
      RowsAreBacked(db, r);
      ClosingSame(db, r);
      hide ShipRows, StockOk, RowsOf, ItemsOf, Deducting, Releasing, Backed, Grows, Announced;
      ShipRowsIs(db, now, rows);
      ShipRowsQuiet(db, now, rows);
      var after := o.value;
      ClosingGrows(db, r, after.bookings[r], after);
      Announces(db, ShipRows(db, now, rows).value.outbox, r, after.bookings[r],
                StockShipped(r, w, s, ItemsOf(db.lots, rows)), after);
    } else {
      GrowsReflexive(db);
    }
  }

  lemma {:induction false} ShipRowsQuiet(db: Db, now: Time, rows: seq<Alloc>)
    requires Backed(db.lots, rows)
    ensures var o := ShipRows(db, now, rows); o.Ok? ==> Quietly(db.outbox, o.value.outbox)
    decreases |rows|
  {
    if rows != [] {
      BackedHead(db.lots, rows);
      ShipRowIs(db, now, rows[0]);
      hide ShipRow, Charge, Backed;
      var o := ShipRow(db, now, rows[0]);
      if o.Ok? {
        var x := db.lots[rows[0].stock];
        ChargeGrows(db, x, x.location.value, -rows[0].quantity, NoAnswer);
        BackedStep(db.lots, rows);
        ShipRowsQuiet(o.value, now, rows[1..]);
      }
    }
  }

  // ----- consumed events and whole transactions -----

  lemma CancellationEffect(db: Db, now: Time, e: Event, reply: Reply<Location>)
    requires StockOk(db) && e.ReservationCancellationRequested?
    ensures var o := Handle(db, now, e, reply);
            o.Ok? ==>
              && Grows(db, o.value)
              && e.reservation in db.bookings
              && o.value.bookings[e.reservation].status != Confirmed
              && (if db.bookings[e.reservation].status == Confirmed
                  then exists a :: Announced(db, o.value, e.reservation, a)
                  else Hushed(db, o.value))
  {
    ReleaseEffect(db, e.reservation, false);
    hide StockOk, Release, Announced;
    GrowsReflexive(db);
  }

  /** A shipment request is answered by its completion, by its refusal, or not at all when it was already completed. */
  lemma ShipmentEffect(db: Db, now: Time, e: Event, reply: Reply<Location>)
    requires StockOk(db) && e.ShipmentRequested?
    ensures var o := Handle(db, now, e, reply);
            var r, s := e.reservation, e.shipment;
            o.Ok? ==>
              && Grows(db, o.value)
              && (|| (o.value == db && r in db.bookings && db.bookings[r].status == Completed
                  && db.bookings[r].shipment == Some(s))
                  || (IsConfirmed(db.bookings, r) && o.value.bookings[r].status == Completed
                      && o.value.bookings[r].shipment == Some(s) && exists a :: Announced(db, o.value, r, a))
                  || (Declined(db, o.value, r, s)
                      && !(r in db.bookings && db.bookings[r].status == Completed
                          && db.bookings[r].shipment == Some(s))))
  {
    ShipEffect(db, now, e.reservation, e.warehouse, e.shipment);
    var o := Handle(db, now, e, reply);
    if o.Ok? && Ship(db, now, e.reservation, e.warehouse, e.shipment).Err? {
      GrowsReflexive(db);
      var code := Ship(db, now, e.reservation, e.warehouse, e.shipment).error.code;
      assert o.value.outbox == db.outbox + [ShipmentRejected(e.reservation, e.warehouse, e.shipment, code)];
    }
  }

  lemma PlacementEffect(db: Db, now: Time, e: Event, reply: Reply<Location>)
    requires e.ProductPlacementAssigned?
    ensures LotsOnly(db, Handle(db, now, e, reply))
  {
    PlaceEffect(db, e.stock, e.warehouse, e.location, reply);
    GrowsReflexive(db);
    hide Place;
  }

  /** Commands over HTTP are silent about reservations. */
  lemma CommandEffect(db: Db, t: Transaction)
    requires StockOk(db) && (t.Receiving? || t.Changing?)
    ensures Grows(db, Commit(db, t)) && Hushed(db, Commit(db, t))
  {
    GrowsReflexive(db);
    assert forall id | id in db.lots :: LotOk(db, id);
    hide StockOk, Grows, AdjustLot, MoveLot, WriteOffLot, Receive;
    match t
    case Receiving(now, q, product, active, newId) => ReceiveEffect(db, now, q, product, active, newId);
    case Changing(now, action, q, reply, newId) =>
      if q.stock in db.lots {
        match action
        case Adjust => AdjustEffect(db, q, reply);
        case Move => MoveEffect(db, now, q, reply, newId);
        case WriteOff => WriteOffEffect(db, q);
      }
  }

  /** Every transaction lets the tables grow and is either silent about reservations,
      or announces one change of one booking, or declines one shipment. */
  lemma TransactionEffect(db: Db, t: Transaction)
    requires StockOk(db)
    ensures var after := Commit(db, t);
            && Grows(db, after)
            && (Hushed(db, after) || (exists r, e :: Announced(db, after, r, e))
                || (exists r, s :: Declined(db, after, r, s)))
  {
    GrowsReflexive(db);
    hide StockOk, Handle, Grows, Announced, Declined, ApplyChange, Receive, Release;
    match t
    case Receiving(_, _, _, _, _) => CommandEffect(db, t);
    case Changing(_, _, _, _, _) => CommandEffect(db, t);
    case Consuming(now, e, reply) =>
      match e {
        case ReservationRequested(r, w, lines, expires) => ReserveEffect(db, now, r, w, lines, expires, reply);
        case ReservationCancellationRequested(_, _, _) => CancellationEffect(db, now, e, reply);
        case ShipmentRequested(_, _, _) => ShipmentEffect(db, now, e, reply);
        case ProductPlacementAssigned(_, _, _, _) => PlacementEffect(db, now, e, reply);
        case _ => Ignored(db, now, e, reply);
      }
    case Expiring(r) => ReleaseEffect(db, r, true);
  }

  lemma Ignored(db: Db, now: Time, e: Event, reply: Reply<Location>)
    requires !Relevant(e)
    ensures Handle(db, now, e, reply) == Ok(db)
  {
  }

  lemma {:induction false} RunGrows(world: map<Uuid, Site>, db: Db, ts: seq<Transaction>)
    requires InventorySafety.Sound(world, db) && InventorySafety.HonestRun(world, db, ts)
    ensures Grows(db, Run(db, ts))
    decreases |ts|
  {
    if ts == [] {
      GrowsReflexive(db);
    } else {
      TransactionEffect(db, ts[0]);
      InventorySafety.CommitSafe(world, db, ts[0]);
      hide Grows, InventorySafety.Sound, Commit;
      RunGrows(world, Commit(db, ts[0]), ts[1..]);
      GrowsTransitive(db, Commit(db, ts[0]), Run(db, ts));
    }
  }
}
