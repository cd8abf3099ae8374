/** The stock invariant: reserved units are exactly the units held by confirmed
    reservations, only placed lots are reserved, and no constraint of the schema
    is ever what stops a transaction. */
module StockInvariant {
  import opened Domain
  import opened InventoryRules
  import opened Fefo

  predicate IsConfirmed(bookings: map<Uuid, Booking>, r: Uuid) {
    r in bookings && bookings[r].status == Confirmed
  }

  /** Units of one lot held by confirmed reservations. */
  function Held(allocs: seq<Alloc>, bookings: map<Uuid, Booking>, stock: Uuid): int {
    if allocs == [] then 0
    else
      var a := allocs[|allocs| - 1];
      Held(allocs[..|allocs| - 1], bookings, stock)
      + if a.stock == stock && IsConfirmed(bookings, a.reservation) then a.quantity else 0
  }

  /** Units of one lot in a list of allocation rows. */
  function UnitsOf(rows: seq<Alloc>, stock: Uuid): int {
    if rows == [] then 0 else (if rows[0].stock == stock then rows[0].quantity else 0) + UnitsOf(rows[1..], stock)
  }

  ghost predicate LotOk(db: Db, id: Uuid)
    requires id in db.lots
  {
    var x := db.lots[id];
    && RowAllowed(x)
    && x.quantity <= MAX_QUANTITY
    && (x.reserved > 0 ==> x.location.Some?)
    && x.reserved == Held(db.allocs, db.bookings, id)
  }

  ghost predicate AllocOk(db: Db, a: Alloc) {
    && a.quantity > 0
    && a.stock in db.lots
    && a.reservation in db.bookings
    && db.bookings[a.reservation].warehouse == db.lots[a.stock].warehouse
    && db.bookings[a.reservation].status != Rejected
  }

  ghost predicate KeysDistinct(allocs: seq<Alloc>) {
    forall i, j | 0 <= i < j < |allocs| ::
      allocs[i].reservation != allocs[j].reservation || allocs[i].stock != allocs[j].stock
  }

  ghost predicate StockOk(db: Db) {
    && (forall id | id in db.lots :: LotOk(db, id))
    && (forall a | a in db.allocs :: AllocOk(db, a))
    && KeysDistinct(db.allocs)
  }

  // ----- sums over allocation rows -----

  lemma {:induction false} InsertRowUnits(a: Alloc, rows: seq<Alloc>, stock: Uuid)
    ensures UnitsOf(InsertRow(a, rows), stock) == UnitsOf(rows, stock) + if a.stock == stock then a.quantity else 0
    ensures multiset(InsertRow(a, rows)) == multiset(rows) + multiset{a}
  {
    if rows == [] || a.stock <= rows[0].stock {
      assert ([a] + rows)[1..] == rows;
    } else {
      InsertRowUnits(a, rows[1..], stock);
      assert rows == [rows[0]] + rows[1..];
      assert ([rows[0]] + InsertRow(a, rows[1..]))[1..] == InsertRow(a, rows[1..]);
    }
  }

  /** The rows of a reservation are its allocations, in the order of the stock ids. */
  lemma {:induction false} RowsOfMembers(allocs: seq<Alloc>, r: Uuid)
    ensures forall a :: a in RowsOf(allocs, r) <==> a in allocs && a.reservation == r
  {
    if allocs != [] {
      var rest, last := allocs[..|allocs| - 1], allocs[|allocs| - 1];
      RowsOfMembers(rest, r);
      assert allocs == rest + [last];
      if last.reservation == r {
        InsertRowUnits(last, RowsOf(rest, r), 0);
        forall a
          ensures a in RowsOf(allocs, r) <==> a in RowsOf(rest, r) || a == last
        {
          assert a in RowsOf(allocs, r) <==> a in multiset(RowsOf(allocs, r));
        }
      }
    }
  }

  /** A confirmed reservation holds its rows; closing it lets go of exactly them. */
  lemma {:induction false} HeldWithout(allocs: seq<Alloc>, bookings: map<Uuid, Booking>, r: Uuid, b: Booking,
                                       stock: Uuid)
    requires IsConfirmed(bookings, r) && b.status != Confirmed
    ensures Held(allocs, bookings[r := b], stock) == Held(allocs, bookings, stock) - UnitsOf(RowsOf(allocs, r), stock)
  {
    if allocs != [] {
      var rest, last := allocs[..|allocs| - 1], allocs[|allocs| - 1];
      HeldWithout(rest, bookings, r, b, stock);
      if last.reservation == r {
        InsertRowUnits(last, RowsOf(rest, r), stock);
      }
    }
  }

  lemma {:induction false} HeldUnaffected(allocs: seq<Alloc>, bookings: map<Uuid, Booking>, r: Uuid, b: Booking,
                                          stock: Uuid)
    requires forall a | a in allocs :: a.reservation != r
    ensures Held(allocs, bookings[r := b], stock) == Held(allocs, bookings, stock)
  {
    if allocs != [] {
      assert allocs[|allocs| - 1] in allocs;
      HeldUnaffected(allocs[..|allocs| - 1], bookings, r, b, stock);
    }
  }

  lemma {:induction false} HeldNone(allocs: seq<Alloc>, bookings: map<Uuid, Booking>, stock: Uuid)
    requires forall a | a in allocs :: a.stock != stock
    ensures Held(allocs, bookings, stock) == 0
  {
    if allocs != [] {
      assert allocs[|allocs| - 1] in allocs;
      HeldNone(allocs[..|allocs| - 1], bookings, stock);
    }
  }

  lemma {:induction false} HeldNonNegative(allocs: seq<Alloc>, bookings: map<Uuid, Booking>, stock: Uuid)
    requires forall a | a in allocs :: a.quantity > 0
    ensures Held(allocs, bookings, stock) >= 0
  {
    if allocs != [] {
      assert allocs[|allocs| - 1] in allocs;
      HeldNonNegative(allocs[..|allocs| - 1], bookings, stock);
    }
  }

  lemma HeldAppend(allocs: seq<Alloc>, a: Alloc, bookings: map<Uuid, Booking>, stock: Uuid)
    ensures Held(allocs + [a], bookings, stock)
         == Held(allocs, bookings, stock) + if a.stock == stock && IsConfirmed(bookings, a.reservation)
             then a.quantity else 0
  {
    assert (allocs + [a])[..|allocs|] == allocs;
  }

  /** What a confirmed reservation holds of a lot is part of what the lot has reserved. */
  lemma UnitsHeld(db: Db, r: Uuid, stock: Uuid)
    requires StockOk(db) && IsConfirmed(db.bookings, r) && stock in db.lots
    ensures 0 <= UnitsOf(RowsOf(db.allocs, r), stock) <= db.lots[stock].reserved
  {
    var closed := db.bookings[r].(status := Cancelled);
    HeldWithout(db.allocs, db.bookings, r, closed, stock);
    forall a | a in db.allocs ensures a.quantity > 0 { assert AllocOk(db, a); }
    HeldNonNegative(db.allocs, db.bookings[r := closed], stock);
    RowsOfMembers(db.allocs, r);
    UnitsNonNegative(RowsOf(db.allocs, r), stock);
    assert LotOk(db, stock);
  }

  lemma {:induction false} UnitsNonNegative(rows: seq<Alloc>, stock: Uuid)
    requires forall a | a in rows :: a.quantity > 0
    ensures UnitsOf(rows, stock) >= 0
    ensures forall a | a in rows && a.stock == stock :: UnitsOf(rows, stock) >= a.quantity
  {
    if rows != [] {
      assert rows[0] in rows;
      forall a | a in rows[1..] ensures a in rows {}
      UnitsNonNegative(rows[1..], stock);
      forall a | a in rows && a.stock == stock
        ensures UnitsOf(rows, stock) >= a.quantity
      {
        assert a == rows[0] || a in rows[1..];
      }
    }
  }

  // ----- receiving, adjusting, moving, writing off, placing -----

  /** Changing anything but reserved units of lots that satisfy the bounds keeps the invariant. */
  lemma LotsChanged(db: Db, after: Db)
    requires StockOk(db)
    requires after.allocs == db.allocs && after.bookings == db.bookings
    requires db.lots.Keys <= after.lots.Keys
    requires forall id | id in after.lots ::
               && RowAllowed(after.lots[id])
               && after.lots[id].quantity <= MAX_QUANTITY
               && (if id in db.lots then
                     && after.lots[id].reserved == db.lots[id].reserved
                     && after.lots[id].warehouse == db.lots[id].warehouse
                     && (db.lots[id].location.Some? ==> after.lots[id].location.Some?)
                   else after.lots[id].reserved == 0)
    ensures StockOk(after)
  {
    forall id | id in after.lots
      ensures LotOk(after, id)
    {
      if id in db.lots {
        assert LotOk(db, id);
      } else {
        forall a | a in db.allocs ensures a.stock != id { assert AllocOk(db, a); }
        HeldNone(db.allocs, db.bookings, id);
      }
    }
    forall a | a in after.allocs
      ensures AllocOk(after, a)
    {
      assert AllocOk(db, a);
    }
  }

  /** The defects a transaction may run into although its inputs are well formed. */
  predicate Tolerable(e: Error) {
    e.Broken? ==> e.defect == NotYetProcessed || e.defect == Unreachable || e.defect == CapacityViolated
  }

  predicate HasSize(product: Reply<Product>) {
    product.Found? ==> product.value.unit.weight > 0.0 && product.value.unit.volume > 0.0
  }

  lemma ReceiveKeeps(db: Db, now: Time, q: Receipt, product: Reply<Product>, active: Reply<bool>, newId: Uuid)
    requires StockOk(db)
    ensures var o := Receive(db, now, q, product, active, newId);
            && (o.Ok? ==> StockOk(o.value))
            && (o.Err? && newId !in db.lots && HasSize(product) ==> Tolerable(o.error))
  {
    var o := Receive(db, now, q, product, active, newId);
    forall id | id in db.lots ensures LotOk(db, id) {}
    if o.Ok? {
      LotsChanged(db, o.value);
    }
  }

  /** What a successful adjustment leaves behind. */
  lemma AdjustFrame(db: Db, q: Change, reply: Reply<Location>)
    requires q.stock in db.lots && RowAllowed(db.lots[q.stock])
    ensures var o := AdjustLot(db, q, reply);
            var y := db.lots[q.stock].(quantity := q.quantity);
            && (o.Err? ==> Tolerable(o.error))
            && (o.Ok? ==> RowAllowed(y) && y.quantity <= MAX_QUANTITY
                          && o.value == db.(lots := db.lots[q.stock := y], ledger := o.value.ledger,
                                            outbox := o.value.outbox))
  {
    var x := db.lots[q.stock];
    if x.location.Some? {
      ChargeFrame(db, x, x.location.value, q.quantity - x.quantity, reply);
    }
    hide Charge;
  }

  lemma AdjustKeeps(db: Db, q: Change, reply: Reply<Location>)
    requires StockOk(db) && q.stock in db.lots
    ensures var o := AdjustLot(db, q, reply);
            && (o.Ok? ==> StockOk(o.value))
            && (o.Err? ==> Tolerable(o.error))
  {
    var o := AdjustLot(db, q, reply);
    assert LotOk(db, q.stock);
    AdjustFrame(db, q, reply);
    hide AdjustLot;
    if o.Ok? {
      assert LotOk(db, q.stock);
      LotsChanged(db, o.value);
    }
  }

  /** Charging the ledger touches the ledger and the outbox only. */
  lemma ChargeFrame(db: Db, x: Lot, location: Uuid, delta: int, reply: Reply<Location>)
    ensures var o := Charge(db, x, location, delta, reply);
            && (o.Err? ==> Tolerable(o.error))
            && (o.Ok? ==> o.value == db.(ledger := o.value.ledger, outbox := o.value.outbox))
  {
  }

  lemma WithdrawFrame(db: Db, id: Uuid, x: Lot, n: int)
    requires RowAllowed(x.(quantity := x.quantity - n))
    ensures var o := Withdraw(db, id, x, n);
            && (o.Err? ==> Tolerable(o.error))
            && (o.Ok? ==> o.value == db.(lots := db.lots[id := x.(quantity := x.quantity - n)],
                                         ledger := o.value.ledger, outbox := o.value.outbox))
  {
    if x.location.Some? {
      ChargeFrame(db, x, x.location.value, -n, NoAnswer);
    }
  }

  lemma MoveKeeps(db: Db, now: Time, q: Change, reply: Reply<Location>, newId: Uuid)
    requires StockOk(db) && q.stock in db.lots
    ensures var o := MoveLot(db, now, q, reply, newId);
            && (o.Ok? ==> StockOk(o.value))
            && (o.Err? && newId !in db.lots ==> Tolerable(o.error))
  {
    var x := db.lots[q.stock];
    var charged := Charge(db, x, q.to, q.quantity, reply);
    assert LotOk(db, q.stock);
    ChargeFrame(db, x, q.to, q.quantity, reply);
    if charged.Ok? && CheckQuantity(q.quantity, AvailableUnits(x.quantity, x.reserved)).None? {
      var copy := x.(location := Some(q.to), quantity := q.quantity, reserved := 0, created := now);
      var inserted := InsertLot(charged.value, newId, copy);
      if inserted.Ok? {
        WithdrawFrame(inserted.value, q.stock, x, q.quantity);
        var o := MoveLot(db, now, q, reply, newId);
        if o.Ok? {
          forall id | id in db.lots ensures LotOk(db, id) {}
          assert o.value.lots == db.lots[newId := copy][q.stock := x.(quantity := x.quantity - q.quantity)];
          LotsChanged(db, o.value);
        }
      }
    }
  }

  lemma WriteOffKeeps(db: Db, q: Change)
    requires StockOk(db) && q.stock in db.lots
    ensures var o := WriteOffLot(db, q);
            && (o.Ok? ==> StockOk(o.value))
            && (o.Err? ==> Tolerable(o.error))
  {
    var o := WriteOffLot(db, q);
    forall id | id in db.lots ensures LotOk(db, id) {}
    if o.Ok? {
      LotsChanged(db, o.value);
    }
  }

  lemma PlaceKeeps(db: Db, stock: Uuid, warehouse: Uuid, location: Uuid, reply: Reply<Location>)
    requires StockOk(db)
    ensures var o := Place(db, stock, warehouse, location, reply);
            && (o.Ok? ==> StockOk(o.value))
            && (o.Err? ==> Tolerable(o.error))
  {
    var o := Place(db, stock, warehouse, location, reply);
    forall id | id in db.lots ensures LotOk(db, id) {}
    if o.Ok? {
      LotsChanged(db, o.value);
    }
  }

  // ----- reserving -----

  /** Taking free units of a placed lot for a confirmed reservation that has none of it yet. */
  lemma TakeKeeps(db: Db, r: Uuid, stock: Uuid, n: int)
    requires StockOk(db) && IsConfirmed(db.bookings, r) && stock in db.lots
    requires db.lots[stock].location.Some? && db.lots[stock].warehouse == db.bookings[r].warehouse
    requires 0 < n <= db.lots[stock].quantity - db.lots[stock].reserved
    requires forall a | a in db.allocs && a.reservation == r :: a.stock != stock
    ensures Take(db, r, stock, n) == Ok(db.(
              lots := db.lots[stock := db.lots[stock].(reserved := db.lots[stock].reserved + n)],
              allocs := db.allocs + [Alloc(r, stock, n)]))
    ensures StockOk(Take(db, r, stock, n).value)
  {
    var x := db.lots[stock];
    assert LotOk(db, stock);
    forall i | 0 <= i < |db.allocs|
      ensures !(db.allocs[i].reservation == r && db.allocs[i].stock == stock)
    {
      assert db.allocs[i] in db.allocs;
    }
    var after :=
        db.(lots := db.lots[stock := x.(reserved := x.reserved + n)], allocs := db.allocs + [Alloc(r, stock, n)]);
    forall id | id in after.lots
      ensures LotOk(after, id)
    {
      assert LotOk(db, id);
      HeldAppend(db.allocs, Alloc(r, stock, n), db.bookings, id);
    }
    forall a | a in after.allocs
      ensures AllocOk(after, a)
    {
      assert a in db.allocs ==> AllocOk(db, a);
    }
  }

  /** The lots after the rows have been reserved. */
  function Reserving(lots: map<Uuid, Lot>, rows: seq<Alloc>): map<Uuid, Lot> {
    map id | id in lots :: lots[id].(reserved := lots[id].reserved + UnitsOf(rows, id))
  }

  lemma {:induction false} UnitsAppend(a: seq<Alloc>, b: seq<Alloc>, stock: Uuid)
    ensures UnitsOf(a + b, stock) == UnitsOf(a, stock) + UnitsOf(b, stock)
  {
    if a == [] {
      assert a + b == b;
    } else {
      UnitsAppend(a[1..], b, stock);
      assert (a + b)[1..] == a[1..] + b;
    }
  }

  lemma UnitsOne(a: Alloc)
    ensures forall stock :: UnitsOf([a], stock) == if a.stock == stock then a.quantity else 0
  {
    assert forall stock :: UnitsOf([a][1..], stock) == 0;
  }

  lemma ReservingTwice(lots: map<Uuid, Lot>, a: seq<Alloc>, b: seq<Alloc>)
    ensures Reserving(Reserving(lots, a), b) == Reserving(lots, a + b)
  {
    forall id | id in lots { UnitsAppend(a, b, id); }
  }

  /** Offers the allocation loop can work through for a reservation. */
  ghost predicate Takeable(db: Db, r: Uuid, offers: seq<Offer>) {
    && IsConfirmed(db.bookings, r)
    && AllFree(offers)
    && (forall i, j | 0 <= i < j < |offers| :: offers[i].stock != offers[j].stock)
    && (forall o | o in offers ::
          && o.stock in db.lots
          && db.lots[o.stock].location.Some?
          && db.lots[o.stock].warehouse == db.bookings[r].warehouse
          && o.free == db.lots[o.stock].quantity - db.lots[o.stock].reserved
          && forall a | a in db.allocs && a.reservation == r :: a.stock != o.stock)
  }

  /** The database after some rows of one reservation have been taken. */
  function Taken(db: Db, rows: seq<Alloc>): Db {
    db.(lots := Reserving(db.lots, rows), allocs := db.allocs + rows)
  }

  lemma TakenTwice(db: Db, a: seq<Alloc>, b: seq<Alloc>)
    ensures Taken(Taken(db, a), b) == Taken(db, a + b)
  {
    ReservingTwice(db.lots, a, b);
    assert db.allocs + a + b == db.allocs + (a + b);
  }

  lemma TakenNothing(db: Db)
    ensures Taken(db, []) == db
  {
    assert Reserving(db.lots, []) == db.lots;
  }

  lemma TakeFirst(db: Db, r: Uuid, offers: seq<Offer>, n: int)
    requires StockOk(db) && Takeable(db, r, offers) && offers != [] && 0 < n <= offers[0].free
    ensures var after := Taken(db, [Alloc(r, offers[0].stock, n)]);
            Take(db, r, offers[0].stock, n) == Ok(after) && StockOk(after) && Takeable(after, r, offers[1..])
  {
    var stock := offers[0].stock;
    assert offers[0] in offers;
    TakeKeeps(db, r, stock, n);
    var after := Taken(db, [Alloc(r, stock, n)]);
    UnitsOne(Alloc(r, stock, n));
    assert Take(db, r, stock, n).value.lots == after.lots;
    forall o | o in offers[1..]
      ensures && o.stock in after.lots
              && o.free == after.lots[o.stock].quantity - after.lots[o.stock].reserved
              && after.lots[o.stock].location.Some?
              && after.lots[o.stock].warehouse == after.bookings[r].warehouse
      ensures forall a | a in after.allocs && a.reservation == r :: a.stock != o.stock
    {
      assert o in offers && o.stock != stock;
    }
  }

  /** The inner loop reserves exactly the greedy rows and cannot fail. */
  lemma {:induction false} TakeAllKeeps(db: Db, r: Uuid, offers: seq<Offer>, q: int)
    requires StockOk(db) && Takeable(db, r, offers) && 0 <= q
    ensures var rows := Greedy(r, offers, q);
            TakeAll(db, r, offers, q) == Ok(Taking(Taken(db, rows), q - SumRows(rows))) && StockOk(Taken(db, rows))
    decreases |offers|
  {
    hide StockOk, Taken;
    if offers == [] || q == 0 {
      TakenNothing(db);
    } else {
      assert offers[0] in offers;
      var n := Min(q, offers[0].free);
      var row, rest := Alloc(r, offers[0].stock, n), Greedy(r, offers[1..], q - n);
      TakeFirst(db, r, offers, n);
      TakeAllKeeps(Taken(db, [row]), r, offers[1..], q - n);
      TakenTwice(db, [row], rest);
    }
  }
}
