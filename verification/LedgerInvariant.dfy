/** The capacity ledger is the load of the lots: every row equals the sum of the
    lots placed at its location, never exceeds the limit of the location by more
    than the tolerance, and never falls below zero. */
module LedgerInvariant {
  import opened Domain
  import opened Events
  import opened InventoryRules
  import opened Totals
  import opened StockInvariant
  import opened ReserveDecision
  import opened Closing

  /** The lookup tells the unchanging facts about the location. */
  predicate Honest(world: map<Uuid, Site>, location: Uuid, reply: Reply<Location>) {
    reply.Found? ==> location in world && reply.value.site == world[location]
  }

  ghost predicate RowTrue(world: map<Uuid, Site>, db: Db, l: Uuid)
    requires l in db.ledger
  {
    && l in world
    && db.ledger[l].warehouse == world[l].warehouse
    && db.ledger[l].load == Total(db.lots, AtLocation(l)).load
    && !Exceeds(db.ledger[l].load, world[l].limit)
  }

  ghost predicate Housed(db: Db, x: Lot) {
    x.location.Some? ==> x.location.value in db.ledger && db.ledger[x.location.value].warehouse == x.warehouse
  }

  ghost predicate LedgerOk(world: map<Uuid, Site>, db: Db) {
    && (forall l | l in db.ledger :: RowTrue(world, db, l))
    && (forall id | id in db.lots :: Housed(db, db.lots[id]))
  }

  ghost predicate Sized(lots: map<Uuid, Lot>) {
    forall id | id in lots :: RowAllowed(lots[id])
  }

  lemma LoadNonNegative(lots: map<Uuid, Lot>, l: Uuid)
    requires Sized(lots)
    ensures NonNegative(Total(lots, AtLocation(l)))
  {
    forall id | id in lots
      ensures NonNegative(AtLocation(l)(lots[id]))
    {
      TimesNonNegative(lots[id].quantity, lots[id].unit);
    }
    TotalNonNegative(lots, AtLocation(l));
  }

  lemma RowIsTotal(world: map<Uuid, Site>, db: Db, x: Lot, l: Uuid)
    requires LedgerOk(world, db)
    ensures Row(db, x, l).load == Total(db.lots, AtLocation(l)).load
  {
    if l in db.ledger {
      assert RowTrue(world, db, l);
    } else {
      forall id | id in db.lots ensures AtLocation(l)(db.lots[id]) == NOTHING { assert Housed(db, db.lots[id]); }
      TotalNothing(db.lots, AtLocation(l));
    }
  }

  /** The units of lot `id` that stand at location `l`. */
  function Standing(lots: map<Uuid, Lot>, id: Uuid, l: Uuid): int {
    if id in lots && lots[id].location == Some(l) then lots[id].quantity else 0
  }

  /** Lot `id` becomes `y`, which stands at `l` with `delta` more units than before. */
  predicate Restocks(lots: map<Uuid, Lot>, x: Lot, l: Uuid, delta: int, id: Uuid, y: Lot) {
    && y.location == Some(l) && y.warehouse == x.warehouse && y.unit == x.unit && RowAllowed(y)
    && y.quantity == Standing(lots, id, l) + delta
    && (id in lots ==> lots[id].unit == x.unit && (lots[id].location.None? || lots[id].location == Some(l)))
  }

  /** The new load of the location is the old load plus the change. */
  lemma LoadMoves(lots: map<Uuid, Lot>, x: Lot, l: Uuid, delta: int, id: Uuid, y: Lot)
    requires Restocks(lots, x, l, delta, id, y)
    ensures Total(lots[id := y], AtLocation(l)).load == Plus(Total(lots, AtLocation(l)).load, Times(delta, x.unit))
    ensures forall m | m != l :: Total(lots[id := y], AtLocation(m)) == Total(lots, AtLocation(m))
  {
    hide Total, Times;
    TimesAdds(Standing(lots, id, l), delta, x.unit);
    TimesZero(x.unit);
    TotalUpdate(lots, id, y, AtLocation(l));
    forall m | m != l
      ensures Total(lots[id := y], AtLocation(m)) == Total(lots, AtLocation(m))
    {
      TotalUpdate(lots, id, y, AtLocation(m));
    }
  }

  /** What a charge does when the new load is not negative: it never breaks, and the
      row holds the new load exactly. */
  lemma ChargeIs(db: Db, x: Lot, l: Uuid, delta: int, reply: Reply<Location>)
    requires var load := Plus(Row(db, x, l).load, Times(delta, x.unit)); load.weight >= 0.0 && load.volume >= 0.0
    ensures var o := Charge(db, x, l, delta, reply);
            var load := Plus(Row(db, x, l).load, Times(delta, x.unit));
            var row := Capacity(Row(db, x, l).warehouse, load, Row(db, x, l).revision + 1);
            && (o.Err? ==> o.error != Broken(CapacityViolated))
            && (o.Ok? ==>
                  && o.value == Emit(db.(ledger := db.ledger[l := row]),
                                     LocationCapacityChanged(l, x.warehouse, load, row.revision))
                  && (delta > 0 ==>
                        && reply.Found? && reply.value.site.warehouse == x.warehouse
                        && !Exceeds(load, reply.value.site.limit)))
  {
    hide Times;
  }

  /** Charging a location for the change of one lot keeps the ledger true, and cannot break it. */
  lemma ChargedLot(world: map<Uuid, Site>, db: Db, x: Lot, l: Uuid, delta: int, reply: Reply<Location>, id: Uuid,
                   y: Lot)
    requires LedgerOk(world, db) && Sized(db.lots) && Restocks(db.lots, x, l, delta, id, y)
    requires if delta > 0 then Honest(world, l, reply) else l in db.ledger && db.ledger[l].warehouse == x.warehouse
    ensures var o := Charge(db, x, l, delta, reply);
            && (o.Err? ==> o.error != Broken(CapacityViolated))
            && (o.Ok? ==> LedgerOk(world, o.value.(lots := db.lots[id := y])))
  {
    var lots := db.lots[id := y];
    LoadMoves(db.lots, x, l, delta, id, y);
    LoadNonNegative(lots, l);
    RowIsTotal(world, db, x, l);
    ChargeIs(db, x, l, delta, reply);
    if delta <= 0 {
      assert RowTrue(world, db, l);
      Shrinks(db.ledger[l].load, delta, x.unit);
    }
    hide Total, Times, Sized, Charge, LedgerOk;
    var o := Charge(db, x, l, delta, reply);
    if o.Ok? {
      LedgerAfter(world, db, l, id, y, o.value.(lots := lots));
    }
  }

  /** One ledger row and one lot changed; everything else is as before. */
  lemma LedgerAfter(world: map<Uuid, Site>, db: Db, l: Uuid, id: Uuid, y: Lot, after: Db)
    requires LedgerOk(world, db)
    requires l in after.ledger && RowTrue(world, after, l)
    requires after.lots == db.lots[id := y] && after.ledger == db.ledger[l := after.ledger[l]]
    requires l in db.ledger ==> after.ledger[l].warehouse == db.ledger[l].warehouse
    requires forall m | m != l :: Total(after.lots, AtLocation(m)) == Total(db.lots, AtLocation(m))
    requires y.location == Some(l) && y.warehouse == after.ledger[l].warehouse
    ensures LedgerOk(world, after)
  {
    hide Total;
    forall m | m in after.ledger
      ensures RowTrue(world, after, m)
    {
      assert m != l ==> RowTrue(world, db, m);
    }
    forall i | i in after.lots
      ensures Housed(after, after.lots[i])
    {
      assert i != id ==> Housed(db, db.lots[i]);
    }
  }

  lemma Shrinks(load: Load, delta: int, unit: Load)
    requires delta <= 0 && unit.weight > 0.0 && unit.volume > 0.0
    ensures Plus(load, Times(delta, unit)).weight <= load.weight
    ensures Plus(load, Times(delta, unit)).volume <= load.volume
  {
  }

  // ----- every transaction -----

  /** Transactions that move no units and no lots leave the ledger true. */
  lemma LoadsKept(world: map<Uuid, Site>, db: Db, after: Db)
    requires LedgerOk(world, db)
    requires after.ledger == db.ledger && after.lots.Keys == db.lots.Keys
    requires forall id | id in db.lots ::
               && after.lots[id].location == db.lots[id].location && after.lots[id].quantity == db.lots[id].quantity
               && after.lots[id].unit == db.lots[id].unit && after.lots[id].warehouse == db.lots[id].warehouse
    ensures LedgerOk(world, after)
  {
    hide Total, Times;
    forall l | l in after.ledger
      ensures RowTrue(world, after, l)
    {
      assert RowTrue(world, db, l);
      TotalPointwise(db.lots, after.lots, AtLocation(l));
    }
    forall id | id in after.lots ensures Housed(after, after.lots[id]) { assert Housed(db, db.lots[id]); }
  }

  /** An unplaced lot that appears, or that changes while it stays unplaced, weighs on no location. */
  lemma UnplacedKept(world: map<Uuid, Site>, db: Db, id: Uuid, y: Lot, after: Db)
    requires LedgerOk(world, db)
    requires after.ledger == db.ledger && after.lots == db.lots[id := y]
    requires y.location.None? && (id in db.lots ==> db.lots[id].location.None?)
    ensures LedgerOk(world, after)
  {
    hide Total, Times;
    forall l | l in after.ledger
      ensures RowTrue(world, after, l)
    {
      assert RowTrue(world, db, l);
      TotalUpdate(db.lots, id, y, AtLocation(l));
    }
    forall i | i in after.lots ensures Housed(after, after.lots[i]) { assert i != id ==> Housed(db, db.lots[i]); }
  }

  lemma StockIsSized(db: Db)
    requires StockOk(db)
    ensures Sized(db.lots)
  {
    forall id | id in db.lots ensures RowAllowed(db.lots[id]) { assert LotOk(db, id); }
  }

  lemma LotFacts(world: map<Uuid, Site>, db: Db, id: Uuid)
    requires LedgerOk(world, db) && Sized(db.lots) && id in db.lots
    ensures Housed(db, db.lots[id]) && RowAllowed(db.lots[id])
  {
  }

  /** No transaction finds the ledger below zero. */
  predicate Unbroken(o: Outcome<Db>) {
    o.Err? ==> o.error != Broken(CapacityViolated)
  }

  ghost predicate KeepsLedger(world: map<Uuid, Site>, o: Outcome<Db>) {
    Unbroken(o) && (o.Ok? ==> LedgerOk(world, o.value))
  }

  lemma ReceiveCharges(world: map<Uuid, Site>, db: Db, now: Time, q: Receipt, product: Reply<Product>,
                       active: Reply<bool>, newId: Uuid)
    requires LedgerOk(world, db)
    ensures KeepsLedger(world, Receive(db, now, q, product, active, newId))
  {
    var o := Receive(db, now, q, product, active, newId);
    hide LedgerOk;
    if o.Ok? {
      UnplacedKept(world, db, newId, o.value.lots[newId], o.value);
    }
  }

  lemma AdjustCharges(world: map<Uuid, Site>, db: Db, q: Change, reply: Reply<Location>)
    requires StockOk(db) && LedgerOk(world, db) && q.stock in db.lots
    requires db.lots[q.stock].location.Some? ==> Honest(world, db.lots[q.stock].location.value, reply)
    ensures KeepsLedger(world, AdjustLot(db, q, reply))
  {
    hide LedgerOk, StockOk, Charge, Sized;
    var x := db.lots[q.stock];
    var y := x.(quantity := q.quantity);
    var delta := q.quantity - x.quantity;
    StockIsSized(db);
    LotFacts(world, db, q.stock);
    var o := AdjustLot(db, q, reply);
    if 0 <= q.quantity && x.reserved <= q.quantity {
      if x.location.Some? && delta != 0 {
        ChargedLot(world, db, x, x.location.value, delta, reply, q.stock, y);
        var charged := Charge(db, x, x.location.value, delta, reply);
        if o.Ok? {
          LoadsKept(world, charged.value.(lots := db.lots[q.stock := y]), o.value) by {
            ChargeFrame(db, x, x.location.value, delta, reply);
          }
        }
      } else if o.Ok? {
        if x.location.None? {
          UnplacedKept(world, db, q.stock, y, o.value);
        } else {
          LoadsKept(world, db, o.value);
        }
      }
    }
  }

  lemma WithdrawCharges(world: map<Uuid, Site>, db: Db, id: Uuid, n: int)
    requires LedgerOk(world, db) && Sized(db.lots) && id in db.lots
    requires 0 <= n <= db.lots[id].quantity - db.lots[id].reserved
    ensures KeepsLedger(world, Withdraw(db, id, db.lots[id], n))
  {
    var x := db.lots[id];
    var y := x.(quantity := x.quantity - n);
    hide LedgerOk, Charge, Sized;
    LotFacts(world, db, id);
    var o := Withdraw(db, id, x, n);
    if x.location.Some? {
      ChargedLot(world, db, x, x.location.value, -n, NoAnswer, id, y);
      ChargeFrame(db, x, x.location.value, -n, NoAnswer);
    } else if o.Ok? {
      UnplacedKept(world, db, id, y, o.value);
    }
  }

  lemma WriteOffCharges(world: map<Uuid, Site>, db: Db, q: Change)
    requires StockOk(db) && LedgerOk(world, db) && q.stock in db.lots
    ensures KeepsLedger(world, WriteOffLot(db, q))
  {
    StockIsSized(db);
    hide LedgerOk, StockOk, Withdraw;
    if CheckQuantity(q.quantity, AvailableUnits(db.lots[q.stock].quantity, db.lots[q.stock].reserved)).None? {
      WithdrawCharges(world, db, q.stock, q.quantity);
      var o := WriteOffLot(db, q);
      if o.Ok? {
        LoadsKept(world, Withdraw(db, q.stock, db.lots[q.stock], q.quantity).value, o.value);
      }
    }
  }

  lemma MoveCharges(world: map<Uuid, Site>, db: Db, now: Time, q: Change, reply: Reply<Location>, newId: Uuid)
    requires StockOk(db) && LedgerOk(world, db) && q.stock in db.lots
    requires Honest(world, q.to, reply)
    ensures KeepsLedger(world, MoveLot(db, now, q, reply, newId))
  {
    hide LedgerOk, Charge, Withdraw, Total, Times, Plus;
    var x := db.lots[q.stock];
    StockIsSized(db);
    assert LotOk(db, q.stock);
    hide StockOk;
    if CheckQuantity(q.quantity, AvailableUnits(x.quantity, x.reserved)).Some? {
      assert Unbroken(MoveLot(db, now, q, reply, newId));
    } else if newId in db.lots {
      ChargeAlone(world, db, x, q, reply);
      ChargeFrame(db, x, q.to, q.quantity, reply);
    } else {
      var copy := x.(location := Some(q.to), quantity := q.quantity, reserved := 0, created := now);
      ChargedLot(world, db, x, q.to, q.quantity, reply, newId, copy);
      ChargeFrame(db, x, q.to, q.quantity, reply);
      var charged := Charge(db, x, q.to, q.quantity, reply);
      if charged.Ok? {
        var db2 := charged.value.(lots := db.lots[newId := copy]);
        WithdrawCharges(world, db2, q.stock, q.quantity);
        var o := MoveLot(db, now, q, reply, newId);
        if o.Ok? {
          LoadsKept(world, Withdraw(db2, q.stock, x, q.quantity).value, o.value);
        }
      }
    }
  }

  /** A growing charge never breaks. */
  lemma ChargeAlone(world: map<Uuid, Site>, db: Db, x: Lot, q: Change, reply: Reply<Location>)
    requires LedgerOk(world, db) && Sized(db.lots) && RowAllowed(x)
    requires q.quantity > 0
    ensures Unbroken(Charge(db, x, q.to, q.quantity, reply))
  {
    RowIsTotal(world, db, x, q.to);
    LoadNonNegative(db.lots, q.to);
    TimesNonNegative(q.quantity, x.unit);
    ChargeIs(db, x, q.to, q.quantity, reply);
  }

  lemma PlaceCharges(world: map<Uuid, Site>, db: Db, stock: Uuid, warehouse: Uuid, location: Uuid,
                     reply: Reply<Location>)
    requires StockOk(db) && LedgerOk(world, db) && Honest(world, location, reply)
    ensures KeepsLedger(world, Place(db, stock, warehouse, location, reply))
  {
    StockIsSized(db);
    hide LedgerOk, StockOk, Charge;
    if stock in db.lots && db.lots[stock].location.None? && db.lots[stock].quantity != 0 {
      var x := db.lots[stock];
      var y := x.(location := Some(location));
      assert RowAllowed(x);
      ChargedLot(world, db, x, location, x.quantity, reply, stock, y);
      ChargeFrame(db, x, location, x.quantity, reply);
      var o := Place(db, stock, warehouse, location, reply);
      if o.Ok? && o.value != db {
        LoadsKept(world, Charge(db, x, location, x.quantity, reply).value.(lots := db.lots[stock := y]), o.value);
      }
    }
  }

  lemma SizedRest(lots: map<Uuid, Lot>, a: Alloc)
    requires Sized(lots) && a.stock in lots && a.quantity <= lots[a.stock].reserved
    ensures Sized(Shipped1(lots, a))
  {
  }

  lemma ShipRowCharges(world: map<Uuid, Site>, db: Db, now: Time, a: Alloc)
    requires LedgerOk(world, db) && Sized(db.lots) && a.stock in db.lots && db.lots[a.stock].location.Some?
    requires 0 < a.quantity <= db.lots[a.stock].reserved
    ensures KeepsLedger(world, ShipRow(db, now, a))
  {
    hide LedgerOk, Charge, ShipRow, Sized;
    var x := db.lots[a.stock];
    LotFacts(world, db, a.stock);
    ShipRowIs(db, now, a);
    ChargedLot(world, db, x, x.location.value, -a.quantity, NoAnswer, a.stock, Shipped1(db.lots, a)[a.stock]);
  }

  lemma {:induction false} ShipRowsCharges(world: map<Uuid, Site>, db: Db, now: Time, rows: seq<Alloc>)
    requires LedgerOk(world, db) && Sized(db.lots) && Backed(db.lots, rows)
    ensures KeepsLedger(world, ShipRows(db, now, rows))
    decreases |rows|
  {
    if rows != [] {
      BackedHead(db.lots, rows);
      ShipRowIs(db, now, rows[0]);
      hide LedgerOk, ShipRow, Charge, Backed, Sized, UnitsOf;
      ShipRowCharges(world, db, now, rows[0]);
      var o := ShipRow(db, now, rows[0]);
      if o.Ok? {
        SizedRest(db.lots, rows[0]);
        BackedStep(db.lots, rows);
        ShipRowsCharges(world, o.value, now, rows[1..]);
      }
    }
  }

  lemma ShipCharges(world: map<Uuid, Site>, db: Db, now: Time, r: Uuid, warehouse: Uuid, shipment: Uuid)
    requires StockOk(db) && LedgerOk(world, db)
    ensures KeepsLedger(world, Ship(db, now, r, warehouse, shipment))
  {
    StockIsSized(db);
    if IsConfirmed(db.bookings, r) {
      RowsAreBacked(db, r);
      hide LedgerOk, StockOk, ShipRows;
      ShipRowsCharges(world, db, now, RowsOf(db.allocs, r));
      var o := Ship(db, now, r, warehouse, shipment);
      if o.Ok? {
        LoadsKept(world, ShipRows(db, now, RowsOf(db.allocs, r)).value, o.value);
      }
    }
  }

  lemma ReleaseCharges(world: map<Uuid, Site>, db: Db, r: Uuid, expired: bool)
    requires StockOk(db) && LedgerOk(world, db)
    ensures KeepsLedger(world, Release(db, r, expired))
  {
    if IsConfirmed(db.bookings, r) {
      ReleaseIs(db, r, expired);
      hide LedgerOk, StockOk, Release;
      LoadsKept(world, db, Release(db, r, expired).value);
    }
  }

  lemma ReserveCharges(world: map<Uuid, Site>, db: Db, now: Time, r: Uuid, warehouse: Uuid, lines: seq<Line>,
                       expires: Time)
    requires StockOk(db) && LedgerOk(world, db)
    ensures KeepsLedger(world, Reserve(db, now, r, warehouse, lines, expires))
  {
    if r !in db.bookings {
      ReserveIs(db, now, r, warehouse, lines, expires);
      hide LedgerOk, StockOk, Reserve, Picks;
      var o := Reserve(db, now, r, warehouse, lines, expires);
      if o.Ok? {
        LoadsKept(world, db, o.value);
      }
    }
  }
}
