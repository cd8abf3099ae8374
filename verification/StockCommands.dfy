/** What becomes of the commands on stock: for sound tables, exactly when a receipt, an
    adjustment, a move and a write-off take effect, what the lots are afterwards, and which
    check stops them otherwise. */
module StockCommands {
  import opened Domain
  import opened Events
  import opened InventoryRules
  import opened StockInvariant
  import opened Closing
  import opened LedgerInvariant
  import opened Admission
  import Decisions
  import Effects

  /** A date that has not begun, or none. */
  predicate InFuture(day: Option<int>, now: Time) {
    day.Some? ==> now < day.value * 86400
  }

  /** A lookup that finds nothing, is refused or gets no answer stops the command. */
  function LookupError<T>(reply: Reply<T>): Error
    requires !reply.Found?
  {
    match reply
    case Missing => Fault(NotFound, 404)
    case Refused => Fault(DependencyUnavailable, 503)
    case NoAnswer => Broken(Unreachable)
  }

  // ----- receipts -----

  predicate Receivable(now: Time, q: Receipt, product: Reply<Product>, active: Reply<bool>) {
    && 1 <= q.quantity <= 1000000000 && q.batch != ""
    && product.Found? && product.value.active
    && active.Found? && active.value
    && InFuture(q.expiration, now)
  }

  function WhyNotReceived(q: Receipt, product: Reply<Product>, active: Reply<bool>): Error {
    if q.quantity < 1 || q.quantity > 1000000000 || q.batch == "" then Fault(ValidationError, 400)
    else if !product.Found? then LookupError(product)
    else if !product.value.active then Fault(InactiveProduct, 409)
    else if !active.Found? then LookupError(active)
    else if !active.value then Fault(WarehouseUnavailable, 409)
    else Fault(ValidationError, 400)
  }

  /** The lot is what the receipt says of a product of that size and storage type. */
  predicate ReceivedLot(x: Lot, now: Time, q: Receipt, product: Product) {
    && x.product == q.product && x.warehouse == q.warehouse && x.quantity == q.quantity
    && x.batch == q.batch && x.expiration == q.expiration
    && x.unit == product.unit && x.storage == product.storage
    && x.reserved == 0 && x.location.None? && x.created == now
  }

  /** A receipt with a new id takes effect exactly when it is valid and product and warehouse
      are active; then the tables gain one lot, which is what the receipt says, and one event. */
  lemma ReceiptDecides(db: Db, now: Time, q: Receipt, product: Reply<Product>, active: Reply<bool>, newId: Uuid)
    requires newId !in db.lots && HasSize(product)
    ensures var o := Receive(db, now, q, product, active, newId);
            if Receivable(now, q, product, active) then
              && o.Ok? && newId in o.value.lots
              && ReceivedLot(o.value.lots[newId], now, q, product.value)
              && o.value == db.(lots := db.lots[newId := o.value.lots[newId]],
                                outbox := db.outbox + [GoodsReceived(newId, q.product, q.warehouse, q.quantity,
                                                                     product.value.unit, product.value.storage)])
            else o == Err(WhyNotReceived(q, product, active))
  {
    if q.expiration.Some? { DayBegins(now, q.expiration.value); }
    hide Today;
  }

  // ----- adjustments -----

  /** The adjustment keeps what is reserved, gives a reason, adds nothing to an unplaced lot,
      and what it adds to a placed one fits. */
  ghost predicate Adjustable(db: Db, q: Change, reply: Reply<Location>)
    requires q.stock in db.lots
  {
    var x := db.lots[q.stock];
    && 0 <= q.quantity <= 1000000000 && x.reserved <= q.quantity && q.reason != ""
    && (q.quantity > x.quantity ==>
          && x.location.Some? && reply.Found? && IsOpen(reply.value) && TakesLot(reply.value.site, x)
          && RoomFor(db.lots, x.location.value, x, q.quantity - x.quantity, reply.value.site.limit))
  }

  /** An adjustment changes the quantity of its lot and nothing else of any lot. */
  lemma AdjustmentDecides(world: map<Uuid, Site>, db: Db, q: Change, reply: Reply<Location>)
    requires StockOk(db) && LedgerOk(world, db) && q.stock in db.lots
    requires db.lots[q.stock].location.Some? ==> Honest(world, db.lots[q.stock].location.value, reply)
    ensures var x, o := db.lots[q.stock], AdjustLot(db, q, reply);
            && (o.Ok? <==> Adjustable(db, q, reply))
            && (o.Ok? ==>
                  && o.value.lots == db.lots[q.stock := x.(quantity := q.quantity)]
                  && o.value.allocs == db.allocs && o.value.bookings == db.bookings
                  && LedgerOk(world, o.value)
                  && |o.value.outbox| > 0
                  && o.value.outbox[|o.value.outbox| - 1]
                      == StockAdjusted(q.stock, x.product, x.warehouse, q.quantity, q.quantity - x.quantity, q.reason))
  {
    var x := db.lots[q.stock];
    assert LotOk(db, q.stock);
    StockIsSized(db);
    AdjustCharges(world, db, q, reply);
    AdjustFrame(db, q, reply);
    if AdjustLot(db, q, reply).Ok? { Effects.AdjustLog(db, q, reply); }
    hide StockOk, LedgerOk, Sized, RoomFor;
    if x.location.Some? && q.quantity > x.quantity {
      ChargeAdmits(world, db, x, x.location.value, q.quantity - x.quantity, reply);
    }
    if x.location.Some? && 0 <= q.quantity < x.quantity {
      ShrinkingPasses(world, db, q.stock, q.quantity - x.quantity, reply);
    }
    hide Charge;
  }

  /** Taking units away from where they stand is never refused. */
  lemma ShrinkingPasses(world: map<Uuid, Site>, db: Db, id: Uuid, delta: int, reply: Reply<Location>)
    requires LedgerOk(world, db) && Sized(db.lots) && id in db.lots && db.lots[id].location.Some?
    requires -db.lots[id].quantity <= delta < 0
    ensures Charge(db, db.lots[id], db.lots[id].location.value, delta, reply).Ok?
  {
    var x, l := db.lots[id], db.lots[id].location.value;
    WhatIsLeft(world, db, id, delta);
    hide LedgerOk, Sized, Times, Row;
  }

  lemma WhatIsLeft(world: map<Uuid, Site>, db: Db, id: Uuid, delta: int)
    requires LedgerOk(world, db) && Sized(db.lots) && id in db.lots && db.lots[id].location.Some?
    requires -db.lots[id].quantity <= delta < 0
    ensures var x := db.lots[id];
            var left := Plus(Row(db, x, x.location.value).load, Times(delta, x.unit));
            left.weight >= 0.0 && left.volume >= 0.0
  {
    var x := db.lots[id];
    var y := x.(quantity := x.quantity + delta, reserved := 0);
    var l := x.location.value;
    LotFacts(world, db, id);
    hide LedgerOk, Sized, Times, Row;
    LoadMoves(db.lots, x, l, delta, id, y);
    SizedWith(db.lots, id, y);
    LoadNonNegative(db.lots[id := y], l);
    RowIsTotal(world, db, x, l);
  }

  lemma SizedWith(lots: map<Uuid, Lot>, id: Uuid, y: Lot)
    requires Sized(lots) && RowAllowed(y)
    ensures Sized(lots[id := y])
  {
  }

  /** The first check that an adjustment fails before it asks for room. */
  lemma AdjustmentFails(db: Db, q: Change, reply: Reply<Location>)
    requires q.stock in db.lots && AdjustLot(db, q, reply).Err?
    ensures var x, e := db.lots[q.stock], AdjustLot(db, q, reply).error;
            if q.quantity < 0 || q.quantity > 1000000000 then e == Fault(ValidationError, 400)
            else if q.quantity < x.reserved then e == Fault(ReservedStock, 409)
            else if q.reason == "" then e == Fault(ValidationError, 400)
            else if x.location.None? && q.quantity > x.quantity then e == Fault(UnplacedStock, 409)
            else RowAllowed(x.(quantity := q.quantity)) ==>
                x.location.Some? && RefusedBy(db, x, x.location.value, q.quantity - x.quantity, reply, e)
  {
    hide Charge;
  }

  /** The error is the one that the ledger or the lookup of the location gives. */
  predicate RefusedBy(db: Db, x: Lot, l: Uuid, delta: int, reply: Reply<Location>, e: Error) {
    Charge(db, x, l, delta, reply) == Err(e)
  }

  /** Why a location is refused to a lot. */
  lemma RefusalOfLocation(world: map<Uuid, Site>, db: Db, x: Lot, q: Change, reply: Reply<Location>, e: Error)
    requires LedgerOk(world, db) && Sized(db.lots) && RowAllowed(x) && q.quantity > 0
    requires RefusedBy(db, x, q.to, q.quantity, reply, e)
    ensures if reply.Found? || reply.Missing? then Business(e) && e.code == Decisions.WhyNotAdmitted(x, reply)
            else e == LookupError(reply)
  {
    hide LedgerOk, Sized;
    ChargeAlone(world, db, x, q, reply);
    Decisions.ChargeRefuses(db, x, q.to, q.quantity, reply);
  }

  // ----- moves and write-offs -----

  /** Some units are taken, and none that is reserved. */
  predicate Takeable(x: Lot, n: int) {
    0 < n <= x.quantity - x.reserved
  }

  ghost predicate Movable(db: Db, q: Change, reply: Reply<Location>)
    requires q.stock in db.lots
  {
    var x := db.lots[q.stock];
    && Takeable(x, q.quantity) && x.location != Some(q.to)
    && reply.Found? && IsOpen(reply.value) && TakesLot(reply.value.site, x)
    && RoomFor(db.lots, q.to, x, q.quantity, reply.value.site.limit)
  }

  /** The new lot is the old one at another place, with the moved units and nothing reserved. */
  predicate MovedLot(x: Lot, y: Lot, now: Time, q: Change) {
    && y.product == x.product && y.warehouse == x.warehouse && y.batch == x.batch && y.expiration == x.expiration
    && y.unit == x.unit && y.storage == x.storage
    && y.location == Some(q.to) && y.quantity == q.quantity && y.reserved == 0 && y.created == now
  }

  /** A move takes the units out of the lot and puts them into a new lot at the destination. */
  lemma MoveDecides(world: map<Uuid, Site>, db: Db, now: Time, q: Change, reply: Reply<Location>, newId: Uuid)
    requires StockOk(db) && LedgerOk(world, db) && q.stock in db.lots && newId !in db.lots && Honest(world, q.to, reply)
    ensures var x, o := db.lots[q.stock], MoveLot(db, now, q, reply, newId);
            && (o.Ok? <==> Movable(db, q, reply))
            && (o.Ok? ==>
                  && newId in o.value.lots && MovedLot(x, o.value.lots[newId], now, q)
                  && o.value.lots
                      == db.lots[newId := o.value.lots[newId]][q.stock := x.(quantity := x.quantity - q.quantity)]
                  && o.value.allocs == db.allocs && o.value.bookings == db.bookings
                  && LedgerOk(world, o.value)
                  && |o.value.outbox| > 0
                  && o.value.outbox[|o.value.outbox| - 1]
                      == StockMoved(q.stock, newId, x.product, x.warehouse, q.quantity, x.location, q.to))
  {
    hide RoomFor, LedgerOk, Sized, Charge, Withdraw, Times;
    var x := db.lots[q.stock];
    assert LotOk(db, q.stock);
    StockIsSized(db);
    MoveCharges(world, db, now, q, reply, newId);
    hide StockOk;
    var o := MoveLot(db, now, q, reply, newId);
    if Takeable(x, q.quantity) { ChargeAdmits(world, db, x, q.to, q.quantity, reply); }
    if o.Ok? {
      Effects.MoveSteps(db, now, q, reply, newId);
      hide MoveLot;
      ChargeFrame(db, x, q.to, q.quantity, reply);
      var copy := x.(location := Some(q.to), quantity := q.quantity, reserved := 0, created := now);
      WithdrawFrame(Charge(db, x, q.to, q.quantity, reply).value.(lots := db.lots[newId := copy]), q.stock, x,
          q.quantity);
      hide Charge, Withdraw;
    } else if Movable(db, q, reply) {
      MoveGoesThrough(world, db, now, q, reply, newId);
    }
    hide Charge, Withdraw;
  }

  lemma MoveGoesThrough(world: map<Uuid, Site>, db: Db, now: Time, q: Change, reply: Reply<Location>, newId: Uuid)
    requires Sized(db.lots) && LedgerOk(world, db) && q.stock in db.lots && newId !in db.lots
    requires Honest(world, q.to, reply)
    requires Takeable(db.lots[q.stock], q.quantity) && db.lots[q.stock].location != Some(q.to)
    requires Charge(db, db.lots[q.stock], q.to, q.quantity, reply).Ok?
    ensures MoveLot(db, now, q, reply, newId).Ok?
  {
    var x := db.lots[q.stock];
    assert RowAllowed(x);
    var copy := x.(location := Some(q.to), quantity := q.quantity, reserved := 0, created := now);
    hide LedgerOk, Sized, Charge, MoveLot, Withdraw;
    ChargeFrame(db, x, q.to, q.quantity, reply);
    ChargedLot(world, db, x, q.to, q.quantity, reply, newId, copy);
    SizedWith(db.lots, newId, copy);
    var mid := Charge(db, x, q.to, q.quantity, reply).value.(lots := db.lots[newId := copy]);
    WithdrawPasses(world, mid, q.stock, q.quantity);
    MoveIs(db, now, q, reply, newId);
  }

  lemma WithdrawPasses(world: map<Uuid, Site>, db: Db, id: Uuid, n: int)
    requires LedgerOk(world, db) && Sized(db.lots) && id in db.lots && Takeable(db.lots[id], n)
    ensures Withdraw(db, id, db.lots[id], n).Ok?
  {
    var x := db.lots[id];
    LotFacts(world, db, id);
    hide LedgerOk, Sized, Charge;
    if x.location.Some? {
      ShrinkingPasses(world, db, id, -n, NoAnswer);
      ChargeFrame(db, x, x.location.value, -n, NoAnswer);
    }
  }

  /** The steps of a move. */
  lemma MoveIs(db: Db, now: Time, q: Change, reply: Reply<Location>, newId: Uuid)
    requires q.stock in db.lots && newId !in db.lots && RowAllowed(db.lots[q.stock])
    requires Takeable(db.lots[q.stock], q.quantity) && db.lots[q.stock].location != Some(q.to)
    requires var x := db.lots[q.stock];
             var charged := Charge(db, x, q.to, q.quantity, reply);
             && charged.Ok? && charged.value.lots == db.lots
             && var copy := x.(location := Some(q.to), quantity := q.quantity, reserved := 0, created := now);
                Withdraw(charged.value.(lots := db.lots[newId := copy]), q.stock, x, q.quantity).Ok?
    ensures MoveLot(db, now, q, reply, newId).Ok?
  {
    hide Charge, Withdraw;
  }

  /** A write-off takes unreserved units away, for a reason. */
  lemma WriteOffDecides(world: map<Uuid, Site>, db: Db, q: Change)
    requires StockOk(db) && LedgerOk(world, db) && q.stock in db.lots
    ensures var x, o := db.lots[q.stock], WriteOffLot(db, q);
            && (o.Ok? <==> Takeable(x, q.quantity) && q.reason != "")
            && (o.Ok? ==>
                  && o.value.lots == db.lots[q.stock := x.(quantity := x.quantity - q.quantity)]
                  && o.value.allocs == db.allocs && o.value.bookings == db.bookings
                  && LedgerOk(world, o.value)
                  && |o.value.outbox| > 0
                  && o.value.outbox[|o.value.outbox| - 1]
                      == StockWrittenOff(q.stock, x.product, x.warehouse, q.quantity, q.reason))
  {
    var x := db.lots[q.stock];
    assert LotOk(db, q.stock);
    StockIsSized(db);
    WriteOffCharges(world, db, q);
    hide StockOk, LedgerOk, Sized;
    if Takeable(x, q.quantity) {
      WithdrawFrame(db, q.stock, x, q.quantity);
      if x.location.Some? { ShrinkingPasses(world, db, q.stock, -q.quantity, NoAnswer); }
    }
    hide Charge;
  }

  /** The first check that a move or a write-off fails before it asks for room. */
  lemma TakingFails(db: Db, now: Time, q: Change, reply: Reply<Location>, newId: Uuid)
    requires q.stock in db.lots && (q.quantity <= 0 || !Takeable(db.lots[q.stock], q.quantity))
    ensures var e := if q.quantity <= 0 then Fault(ValidationError, 400) else Fault(InsufficientStock, 409);
            MoveLot(db, now, q, reply, newId) == Err(e) && WriteOffLot(db, q) == Err(e)
  {
  }

  lemma TakingNowhere(db: Db, now: Time, q: Change, reply: Reply<Location>, newId: Uuid)
    requires q.stock in db.lots && Takeable(db.lots[q.stock], q.quantity)
    ensures db.lots[q.stock].location == Some(q.to) ==>
              MoveLot(db, now, q, reply, newId) == Err(Fault(SameLocation, 409))
    ensures q.reason == "" ==> WriteOffLot(db, q) == Err(Fault(ValidationError, 400))
    ensures db.lots[q.stock].location != Some(q.to) && Charge(db, db.lots[q.stock], q.to, q.quantity, reply).Err? ==>
              MoveLot(db, now, q, reply, newId) == Err(Charge(db, db.lots[q.stock], q.to, q.quantity, reply).error)
  {
    hide Charge, Withdraw;
  }

  /** A change of a lot that does not exist is refused, whatever the change. */
  lemma UnknownLot(db: Db, now: Time, action: Action, q: Change, reply: Reply<Location>, newId: Uuid)
    ensures var o := ApplyChange(db, now, action, q, reply, newId);
            if q.stock !in db.lots then o == Err(Fault(NotFound, 404))
            else o == match action
                      case Adjust => AdjustLot(db, q, reply)
                      case Move => MoveLot(db, now, q, reply, newId)
                      case WriteOff => WriteOffLot(db, q)
  {
    hide AdjustLot, MoveLot, WriteOffLot;
  }

  // ----- expiry -----

  /** Expiring a reservation gives back what it holds, exactly when it is confirmed. */
  lemma ExpiryDecides(db: Db, r: Uuid)
    requires StockOk(db)
    ensures var after := Commit(db, Expiring(r));
            if r in db.bookings && db.bookings[r].status == Confirmed then
              && after.lots == Releasing(db.lots, RowsOf(db.allocs, r))
              && after.bookings == db.bookings[r := db.bookings[r].(status := ExpiredStatus)]
              && after.allocs == db.allocs && after.ledger == db.ledger
              && after.outbox == db.outbox
                  + [ReservationExpired(r, db.bookings[r].warehouse, ItemsOf(db.lots, RowsOf(db.allocs, r)))]
            else after == db
  {
    if IsConfirmed(db.bookings, r) { ReleaseIs(db, r, true); }
    hide StockOk, RowsOf, ItemsOf, UnitsOf, GiveBack;
  }
}
