/** Closing a reservation: what release and ship do to the lots, and that the
    stock invariant survives every transaction of the inventory service. */
module Closing {
  import opened Domain
  import opened Events
  import opened InventoryRules
  import opened StockInvariant

  /** The lots after the rows have been given back. */
  function Releasing(lots: map<Uuid, Lot>, rows: seq<Alloc>): map<Uuid, Lot> {
    map id | id in lots :: lots[id].(reserved := lots[id].reserved - UnitsOf(rows, id))
  }

  /** The lots after the rows have been shipped. */
  function Deducting(lots: map<Uuid, Lot>, rows: seq<Alloc>): map<Uuid, Lot> {
    map id | id in lots :: lots[id].(
      quantity := lots[id].quantity - UnitsOf(rows, id),
      reserved := lots[id].reserved - UnitsOf(rows, id))
  }

  /** Rows that lots hold as reserved units. */
  ghost predicate Backed(lots: map<Uuid, Lot>, rows: seq<Alloc>) {
    && (forall a | a in rows :: a.quantity > 0 && a.stock in lots && lots[a.stock].location.Some?)
    && (forall id | id in lots :: RowAllowed(lots[id]) && UnitsOf(rows, id) <= lots[id].reserved)
  }

  lemma BackedHead(lots: map<Uuid, Lot>, rows: seq<Alloc>)
    requires Backed(lots, rows) && rows != []
    ensures rows[0].stock in lots && lots[rows[0].stock].location.Some?
    ensures 0 < rows[0].quantity <= lots[rows[0].stock].reserved <= lots[rows[0].stock].quantity
    ensures RowAllowed(lots[rows[0].stock])
  {
    assert rows[0] in rows;
    forall a | a in rows[1..] ensures a.quantity > 0 { assert a in rows; }
    UnitsNonNegative(rows[1..], rows[0].stock);
    assert UnitsOf(rows, rows[0].stock) <= lots[rows[0].stock].reserved;
  }

  lemma {:induction false} GiveBackIs(lots: map<Uuid, Lot>, rows: seq<Alloc>)
    requires Backed(lots, rows)
    ensures GiveBack(lots, rows) == Ok(Releasing(lots, rows))
    decreases |rows|
  {
    if rows == [] {
      assert Releasing(lots, rows) == lots;
    } else {
      BackedHead(lots, rows);
      var x := lots[rows[0].stock];
      var y := x.(reserved := x.reserved - rows[0].quantity);
      GiveBackIs(lots[rows[0].stock := y], rows[1..]);
      hide Backed;
      assert Releasing(lots[rows[0].stock := y], rows[1..]) == Releasing(lots, rows);
    }
  }

  /** The lot of the first row after it has been shipped. */
  function Shipped1(lots: map<Uuid, Lot>, a: Alloc): map<Uuid, Lot>
    requires a.stock in lots
  {
    var x := lots[a.stock];
    lots[a.stock := x.(quantity := x.quantity - a.quantity, reserved := x.reserved - a.quantity)]
  }

  lemma DeductingRest(lots: map<Uuid, Lot>, rows: seq<Alloc>)
    requires rows != [] && rows[0].stock in lots
    ensures Deducting(Shipped1(lots, rows[0]), rows[1..]) == Deducting(lots, rows)
  {
  }

  /** One round of the shipping loop. */
  lemma ShipRowIs(db: Db, now: Time, a: Alloc)
    requires a.stock in db.lots && db.lots[a.stock].location.Some?
    requires RowAllowed(db.lots[a.stock]) && 0 < a.quantity <= db.lots[a.stock].reserved
    ensures var o := ShipRow(db, now, a);
            && (o.Err? ==> o.error == Fail(ExpiredStock) || o.error == Broken(CapacityViolated))
            && (o.Ok? ==>
                  && o.value == db.(lots := Shipped1(db.lots, a), ledger := o.value.ledger, outbox := o.value.outbox)
                  && var x := db.lots[a.stock];
                     var charged := Charge(db, x, x.location.value, -a.quantity, NoAnswer);
                     charged.Ok? && o.value == charged.value.(lots := Shipped1(db.lots, a)))
    ensures ShipRow(db, now, a).Err? && ShipRow(db, now, a).error == Broken(CapacityViolated) ==>
              Charge(db, db.lots[a.stock], db.lots[a.stock].location.value, -a.quantity, NoAnswer)
              == Err(Broken(CapacityViolated))
  {
    var x := db.lots[a.stock];
    ChargeFrame(db, x, x.location.value, -a.quantity, NoAnswer);
  }

  lemma BackedStep(lots: map<Uuid, Lot>, rows: seq<Alloc>)
    requires Backed(lots, rows) && rows != []
    ensures rows[0].stock in lots && Backed(Shipped1(lots, rows[0]), rows[1..])
  {
    BackedHead(lots, rows);
  }

  /** Shipping deducts the rows from the lots and otherwise touches the ledger and
      the outbox only; the only ways to fail are an expired lot or a broken ledger. */
  lemma {:induction false} ShipRowsIs(db: Db, now: Time, rows: seq<Alloc>)
    requires Backed(db.lots, rows)
    ensures var o := ShipRows(db, now, rows);
            && (o.Err? ==> o.error == Fail(ExpiredStock) || o.error == Broken(CapacityViolated))
            && (o.Ok? ==>
                o.value == db.(lots := Deducting(db.lots, rows), ledger := o.value.ledger, outbox := o.value.outbox))
    decreases |rows|
  {
    if rows == [] {
      assert Deducting(db.lots, rows) == db.lots;
    } else {
      BackedHead(db.lots, rows);
      ShipRowIs(db, now, rows[0]);
      hide ShipRow, Charge, Backed;
      var o := ShipRow(db, now, rows[0]);
      if o.Ok? {
        BackedStep(db.lots, rows);
        ShipRowsIs(o.value, now, rows[1..]);
        DeductingRest(db.lots, rows);
      }
    }
  }

  // ----- what the events about a closed reservation list -----

  predicate Ordered(rows: seq<Alloc>) {
    forall i, j | 0 <= i < j < |rows| :: rows[i].stock < rows[j].stock
  }

  lemma {:induction false} InsertKeepsOrder(a: Alloc, rows: seq<Alloc>)
    requires Ordered(rows) && forall b | b in rows :: b.stock != a.stock
    ensures Ordered(InsertRow(a, rows))
    ensures forall b :: b in InsertRow(a, rows) <==> b == a || b in rows
  {
    if rows != [] && a.stock > rows[0].stock {
      InsertKeepsOrder(a, rows[1..]);
      var rest := InsertRow(a, rows[1..]);
      forall b | b in rest ensures rows[0].stock < b.stock {
        if b != a { var k :| 0 <= k < |rows[1..]| && rows[1..][k] == b; }
      }
    }
  }

  lemma {:induction false} RowsInOrder(allocs: seq<Alloc>, r: Uuid)
    requires KeysDistinct(allocs)
    ensures Ordered(RowsOf(allocs, r))
  {
    if allocs != [] {
      var init, last := allocs[..|allocs| - 1], allocs[|allocs| - 1];
      RowsInOrder(init, r);
      RowsOfMembers(init, r);
      if last.reservation == r {
        forall b | b in RowsOf(init, r) ensures b.stock != last.stock {
          var i :| 0 <= i < |init| && init[i] == b;
          assert allocs[i] == b;
        }
        InsertKeepsOrder(last, RowsOf(init, r));
      }
    }
  }

  /** The event that closes a reservation lists exactly its allocations, each with the product
      of its lot, in the order of the lots. */
  lemma ItemsAreAllocations(db: Db, r: Uuid)
    requires StockOk(db)
    ensures var items := ItemsOf(db.lots, RowsOf(db.allocs, r));
            && (forall i, j | 0 <= i < j < |items| :: items[i].stock < items[j].stock)
            && (forall x :: x in items <==>
                  && Alloc(r, x.stock, x.quantity) in db.allocs
                  && x.stock in db.lots && x.product == db.lots[x.stock].product)
  {
    var rows := RowsOf(db.allocs, r);
    RowsInOrder(db.allocs, r);
    RowsOfMembers(db.allocs, r);
    forall a | a in rows ensures a.stock in db.lots { assert AllocOk(db, a); }
    ItemsAt(db.lots, rows);
  }

  lemma {:induction false} ItemsAt(lots: map<Uuid, Lot>, rows: seq<Alloc>)
    requires forall a | a in rows :: a.stock in lots
    ensures |ItemsOf(lots, rows)| == |rows|
    ensures forall i | 0 <= i < |rows| ::
              ItemsOf(lots, rows)[i] == Item(lots[rows[i].stock].product, rows[i].stock, rows[i].quantity)
  {
    if rows != [] { ItemsAt(lots, rows[1..]); }
  }

  // ----- the stock invariant across a closed reservation -----

  lemma RowsAreBacked(db: Db, r: Uuid)
    requires StockOk(db) && IsConfirmed(db.bookings, r)
    ensures Backed(db.lots, RowsOf(db.allocs, r))
  {
    var rows := RowsOf(db.allocs, r);
    RowsOfMembers(db.allocs, r);
    forall id | id in db.lots
      ensures RowAllowed(db.lots[id]) && UnitsOf(rows, id) <= db.lots[id].reserved
    {
      assert LotOk(db, id);
      UnitsHeld(db, r, id);
    }
    forall a | a in rows
      ensures a.quantity > 0 && a.stock in db.lots && db.lots[a.stock].location.Some?
    {
      assert AllocOk(db, a) && LotOk(db, a.stock);
      forall b | b in rows ensures b.quantity > 0 { assert AllocOk(db, b); }
      UnitsNonNegative(rows, a.stock);
      UnitsHeld(db, r, a.stock);
    }
  }

  /** When a confirmed reservation is closed, its rows leave the reserved units of their lots. */
  lemma ClosedKeeps(db: Db, r: Uuid, b: Booking, after: Db)
    requires StockOk(db) && IsConfirmed(db.bookings, r)
    requires b.status != Confirmed && b.status != Rejected && b.warehouse == db.bookings[r].warehouse
    requires after.bookings == db.bookings[r := b] && after.allocs == db.allocs
    requires after.lots == Releasing(db.lots, RowsOf(db.allocs, r))
              || after.lots == Deducting(db.lots, RowsOf(db.allocs, r))
    ensures StockOk(after)
  {
    forall id | id in after.lots
      ensures LotOk(after, id)
    {
      assert LotOk(db, id);
      UnitsHeld(db, r, id);
      HeldWithout(db.allocs, db.bookings, r, b, id);
    }
    forall a | a in after.allocs ensures AllocOk(after, a) { assert AllocOk(db, a); }
  }

  lemma ReleaseIs(db: Db, r: Uuid, expired: bool)
    requires StockOk(db) && IsConfirmed(db.bookings, r)
    ensures var rows := RowsOf(db.allocs, r);
            var b := db.bookings[r];
            var items := ItemsOf(db.lots, rows);
            Release(db, r, expired) == Ok(db.(
              lots := Releasing(db.lots, rows),
              bookings := db.bookings[r := b.(status := if expired then ExpiredStatus else Cancelled)],
              outbox := db.outbox + [if expired then ReservationExpired(r, b.warehouse, items)
                                     else StockReservationCancelled(r, b.warehouse, items)]))
  {
    RowsAreBacked(db, r);
    GiveBackIs(db.lots, RowsOf(db.allocs, r));
    hide RowsOf;
    ItemsKept(db.lots, Releasing(db.lots, RowsOf(db.allocs, r)), RowsOf(db.allocs, r));
  }

  lemma {:induction false} ItemsKept(lots: map<Uuid, Lot>, after: map<Uuid, Lot>, rows: seq<Alloc>)
    requires lots.Keys == after.Keys && forall id | id in lots :: lots[id].product == after[id].product
    ensures ItemsOf(lots, rows) == ItemsOf(after, rows)
  {
    if rows != [] {
      ItemsKept(lots, after, rows[1..]);
    }
  }

  lemma ReleaseKeeps(db: Db, r: Uuid, expired: bool)
    requires StockOk(db)
    ensures var o := Release(db, r, expired);
            && (o.Ok? ==>
                  && StockOk(o.value)
                  && o.value.lots == if IsConfirmed(db.bookings, r) then Releasing(db.lots, RowsOf(db.allocs, r))
                      else db.lots)
            && (o.Err? ==> o.error == Broken(NotYetProcessed) || o.error == Fail(AlreadyShipped))
  {
    if IsConfirmed(db.bookings, r) {
      ReleaseIs(db, r, expired);
      hide Release;
      ClosedKeeps(db, r, db.bookings[r].(status := if expired then ExpiredStatus else Cancelled),
          Release(db, r, expired).value);
    }
  }

  lemma ShipKeeps(db: Db, now: Time, r: Uuid, warehouse: Uuid, shipment: Uuid)
    requires StockOk(db)
    ensures var o := Ship(db, now, r, warehouse, shipment);
            && (o.Ok? ==>
                  && StockOk(o.value)
                  && o.value.lots == if IsConfirmed(db.bookings, r) then Deducting(db.lots, RowsOf(db.allocs, r))
                      else db.lots)
            && (o.Err? ==> Tolerable(o.error))
  {
    if IsConfirmed(db.bookings, r) {
      RowsAreBacked(db, r);
      ShipRowsIs(db, now, RowsOf(db.allocs, r));
      var o := Ship(db, now, r, warehouse, shipment);
      if o.Ok? {
        ClosedKeeps(db, r, db.bookings[r].(status := Completed, shipment := Some(shipment)), o.value);
      }
    }
  }
}
