/** Every inventory transaction of a warehouse reads and writes only the rows of that
    warehouse: on two databases that agree on those rows it has the same outcome, writes
    the same rows and appends the same allocations and events. */
module Locality {
  import opened Domain
  import opened Events
  import opened InventoryRules
  import opened LedgerInvariant

  // ----- the rows of a warehouse -----

  function LotsOf(lots: map<Uuid, Lot>, w: Uuid): map<Uuid, Lot> {
    map id | id in lots && lots[id].warehouse == w :: lots[id]
  }

  function BookingsOf(bookings: map<Uuid, Booking>, w: Uuid): map<Uuid, Booking> {
    map r | r in bookings && bookings[r].warehouse == w :: bookings[r]
  }

  predicate At(world: map<Uuid, Site>, l: Uuid, w: Uuid) {
    l in world && world[l].warehouse == w
  }

  function LedgerOf(world: map<Uuid, Site>, ledger: map<Uuid, Capacity>, w: Uuid): map<Uuid, Capacity> {
    map l | l in ledger && At(world, l, w) :: ledger[l]
  }

  /** The two databases hold the same rows of the warehouse. */
  ghost predicate Alike(world: map<Uuid, Site>, a: Db, b: Db, w: Uuid) {
    && LotsOf(a.lots, w) == LotsOf(b.lots, w)
    && BookingsOf(a.bookings, w) == BookingsOf(b.bookings, w)
    && LedgerOf(world, a.ledger, w) == LedgerOf(world, b.ledger, w)
    && forall r | r in BookingsOf(a.bookings, w) :: RowsOf(a.allocs, r) == RowsOf(b.allocs, r)
  }

  ghost predicate LotsOutside(w: Uuid, lots: map<Uuid, Lot>, after: map<Uuid, Lot>) {
    && (forall id | id in lots :: id in after)
    && (forall id | id in after && (id !in lots || lots[id].warehouse == w) :: after[id].warehouse == w)
    && (forall id | id in lots && lots[id].warehouse != w :: after[id] == lots[id])
  }

  ghost predicate BookingsOutside(w: Uuid, bookings: map<Uuid, Booking>, after: map<Uuid, Booking>) {
    && (forall r | r in bookings :: r in after)
    && (forall r | r in after && (r !in bookings || bookings[r].warehouse == w) :: after[r].warehouse == w)
    && (forall r | r in bookings && bookings[r].warehouse != w :: after[r] == bookings[r])
  }

  ghost predicate LedgerOutside(world: map<Uuid, Site>, w: Uuid, ledger: map<Uuid, Capacity>,
                                after: map<Uuid, Capacity>) {
    && (forall l | l in ledger :: l in after)
    && (forall l | l in after && l !in ledger :: At(world, l, w))
    && (forall l | l in ledger && !At(world, l, w) :: after[l] == ledger[l])
  }

  /** Nothing outside the warehouse has changed. */
  ghost predicate Outside(world: map<Uuid, Site>, w: Uuid, db: Db, after: Db) {
    && LotsOutside(w, db.lots, after.lots)
    && BookingsOutside(w, db.bookings, after.bookings)
    && LedgerOutside(world, w, db.ledger, after.ledger)
    && db.allocs <= after.allocs && db.outbox <= after.outbox
    && (forall x | x in after.allocs[|db.allocs|..] :: x.reservation in BookingsOf(after.bookings, w))
  }

  /** The same change of the same rows. */
  ghost predicate Twin(world: map<Uuid, Site>, w: Uuid, a: Db, a1: Db, b: Db, b1: Db) {
    && Outside(world, w, a, a1) && Outside(world, w, b, b1) && Alike(world, a1, b1, w)
    && a1.allocs[|a.allocs|..] == b1.allocs[|b.allocs|..]
    && a1.outbox[|a.outbox|..] == b1.outbox[|b.outbox|..]
  }

  ghost predicate Both(world: map<Uuid, Site>, w: Uuid, a: Db, x: Outcome<Db>, b: Db, y: Outcome<Db>) {
    if x.Ok? then y.Ok? && Twin(world, w, a, x.value, b, y.value) else y.Err? && x.error == y.error
  }

  // ----- primitive changes -----

  lemma TwinNothing(world: map<Uuid, Site>, w: Uuid, a: Db, b: Db)
    requires Alike(world, a, b, w)
    ensures Twin(world, w, a, a, b, b)
  {
  }

  lemma TwinAlike(world: map<Uuid, Site>, w: Uuid, a: Db, x: Outcome<Db>, b: Db, y: Outcome<Db>)
    requires Both(world, w, a, x, b, y)
    ensures x.Ok? ==> y.Ok? && Alike(world, x.value, y.value, w)
  {
  }

  lemma SuffixOfSuffix<T>(a: seq<T>, b: seq<T>, c: seq<T>)
    requires a <= b <= c
    ensures c[|a|..] == b[|a|..] + c[|b|..]
  {
  }

  lemma OutsideTwice(world: map<Uuid, Site>, w: Uuid, a: Db, b: Db, c: Db)
    requires Outside(world, w, a, b) && Outside(world, w, b, c)
    ensures Outside(world, w, a, c)
  {
    SuffixOfSuffix(a.allocs, b.allocs, c.allocs);
  }

  lemma TwinTwice(world: map<Uuid, Site>, w: Uuid, a: Db, a1: Db, a2: Db, b: Db, b1: Db, b2: Db)
    requires Twin(world, w, a, a1, b, b1) && Twin(world, w, a1, a2, b1, b2)
    ensures Twin(world, w, a, a2, b, b2)
  {
    OutsideTwice(world, w, a, a1, a2);
    OutsideTwice(world, w, b, b1, b2);
    SuffixOfSuffix(a.allocs, a1.allocs, a2.allocs);
    SuffixOfSuffix(b.allocs, b1.allocs, b2.allocs);
    SuffixOfSuffix(a.outbox, a1.outbox, a2.outbox);
    SuffixOfSuffix(b.outbox, b1.outbox, b2.outbox);
    hide LotsOutside, BookingsOutside, LedgerOutside, Alike;
  }

  predicate LotHere(db: Db, id: Uuid, w: Uuid) {
    id in db.lots ==> db.lots[id].warehouse == w
  }

  predicate BookingHere(db: Db, r: Uuid, w: Uuid) {
    r in db.bookings ==> db.bookings[r].warehouse == w
  }

  lemma SameLot(world: map<Uuid, Site>, w: Uuid, a: Db, b: Db, id: Uuid)
    requires Alike(world, a, b, w) && LotHere(a, id, w) && LotHere(b, id, w)
    ensures id in a.lots <==> id in b.lots
    ensures id in a.lots ==> a.lots[id] == b.lots[id]
  {
    assert id in LotsOf(a.lots, w) <==> id in LotsOf(b.lots, w);
    assert id in LotsOf(a.lots, w) ==> LotsOf(a.lots, w)[id] == LotsOf(b.lots, w)[id];
  }

  lemma SameBooking(world: map<Uuid, Site>, w: Uuid, a: Db, b: Db, r: Uuid)
    requires Alike(world, a, b, w) && BookingHere(a, r, w) && BookingHere(b, r, w)
    ensures r in a.bookings <==> r in b.bookings
    ensures r in a.bookings ==> a.bookings[r] == b.bookings[r] && RowsOf(a.allocs, r) == RowsOf(b.allocs, r)
  {
    assert r in BookingsOf(a.bookings, w) <==> r in BookingsOf(b.bookings, w);
    assert r in BookingsOf(a.bookings, w) ==> BookingsOf(a.bookings, w)[r] == BookingsOf(b.bookings, w)[r];
  }

  lemma SameRow(world: map<Uuid, Site>, w: Uuid, a: Db, b: Db, l: Uuid)
    requires Alike(world, a, b, w) && At(world, l, w)
    ensures l in a.ledger <==> l in b.ledger
    ensures l in a.ledger ==> a.ledger[l] == b.ledger[l]
  {
    assert l in LedgerOf(world, a.ledger, w) <==> l in LedgerOf(world, b.ledger, w);
    assert l in LedgerOf(world, a.ledger, w) ==> LedgerOf(world, a.ledger, w)[l] == LedgerOf(world, b.ledger, w)[l];
  }

  lemma LotWritten(lots: map<Uuid, Lot>, id: Uuid, x: Lot, w: Uuid)
    requires x.warehouse == w && (id in lots ==> lots[id].warehouse == w)
    ensures LotsOf(lots[id := x], w) == LotsOf(lots, w)[id := x]
    ensures LotsOutside(w, lots, lots[id := x])
  {
  }

  lemma TwinLot(world: map<Uuid, Site>, w: Uuid, a: Db, b: Db, id: Uuid, x: Lot)
    requires Alike(world, a, b, w) && x.warehouse == w && LotHere(a, id, w) && LotHere(b, id, w)
    ensures Twin(world, w, a, a.(lots := a.lots[id := x]), b, b.(lots := b.lots[id := x]))
  {
    LotWritten(a.lots, id, x, w);
    LotWritten(b.lots, id, x, w);
    hide LotsOutside, LotsOf;
  }

  lemma RowWritten(world: map<Uuid, Site>, ledger: map<Uuid, Capacity>, l: Uuid, c: Capacity, w: Uuid)
    requires At(world, l, w)
    ensures LedgerOf(world, ledger[l := c], w) == LedgerOf(world, ledger, w)[l := c]
    ensures LedgerOutside(world, w, ledger, ledger[l := c])
  {
  }

  lemma TwinRow(world: map<Uuid, Site>, w: Uuid, a: Db, b: Db, l: Uuid, c: Capacity, e: Event)
    requires Alike(world, a, b, w) && At(world, l, w)
    ensures Twin(world, w, a, Emit(a.(ledger := a.ledger[l := c]), e), b, Emit(b.(ledger := b.ledger[l := c]), e))
  {
    RowWritten(world, a.ledger, l, c, w);
    RowWritten(world, b.ledger, l, c, w);
    hide LedgerOutside, LedgerOf;
  }

  lemma TwinEvent(world: map<Uuid, Site>, w: Uuid, a: Db, b: Db, e: Event)
    requires Alike(world, a, b, w)
    ensures Twin(world, w, a, Emit(a, e), b, Emit(b, e))
  {
  }

  lemma BookingWritten(bookings: map<Uuid, Booking>, r: Uuid, k: Booking, w: Uuid)
    requires k.warehouse == w && (r in bookings ==> bookings[r].warehouse == w)
    ensures BookingsOf(bookings[r := k], w) == BookingsOf(bookings, w)[r := k]
    ensures BookingsOutside(w, bookings, bookings[r := k])
  {
  }

  lemma TwinBooking(world: map<Uuid, Site>, w: Uuid, a: Db, b: Db, r: Uuid, k: Booking)
    requires Alike(world, a, b, w) && k.warehouse == w && BookingHere(a, r, w) && BookingHere(b, r, w)
    requires RowsOf(a.allocs, r) == RowsOf(b.allocs, r)
    ensures Twin(world, w, a, a.(bookings := a.bookings[r := k]), b, b.(bookings := b.bookings[r := k]))
  {
    hide BookingsOutside, BookingsOf, RowsOf;
    BookingWritten(a.bookings, r, k, w);
    BookingWritten(b.bookings, r, k, w);
  }

  lemma RowsAppend(allocs: seq<Alloc>, x: Alloc, r: Uuid)
    ensures RowsOf(allocs + [x], r) == if x.reservation == r then InsertRow(x, RowsOf(allocs, r)) else RowsOf(allocs, r)
  {
    assert (allocs + [x])[..|allocs|] == allocs;
  }

  // ----- commands -----

  /** The ledger row after a charge depends on the row, the lot and the lookup only. */
  function NextRow(row: Capacity, x: Lot, delta: int, reply: Reply<Location>): Outcome<Capacity> {
    var limit :- if delta > 0 then (var l :- Admit(x, reply); Ok(Some(l))) else Ok(None);
    var load :- Settle(row.load, Times(delta, x.unit), limit);
    Ok(Capacity(row.warehouse, load, row.revision + 1))
  }

  function Charged(db: Db, x: Lot, l: Uuid, next: Capacity): Db {
    Emit(db.(ledger := db.ledger[l := next]), LocationCapacityChanged(l, x.warehouse, next.load, next.revision))
  }

  lemma ChargeIs(db: Db, x: Lot, l: Uuid, delta: int, reply: Reply<Location>)
    ensures var next := NextRow(Row(db, x, l), x, delta, reply);
            Charge(db, x, l, delta, reply) == if next.Ok? then Ok(Charged(db, x, l, next.value)) else Err(next.error)
  {
    hide Settle, Admit, Times;
  }

  lemma AdmitsAt(world: map<Uuid, Site>, x: Lot, l: Uuid, reply: Reply<Location>)
    requires Admit(x, reply).Ok? && Honest(world, l, reply)
    ensures At(world, l, x.warehouse)
  {
  }

  lemma ChargeBoth(world: map<Uuid, Site>, w: Uuid, a: Db, b: Db, x: Lot, l: Uuid, delta: int, reply: Reply<Location>)
    requires Alike(world, a, b, w) && x.warehouse == w
    requires if delta > 0 then Honest(world, l, reply) else At(world, l, w)
    ensures Both(world, w, a, Charge(a, x, l, delta, reply), b, Charge(b, x, l, delta, reply))
    ensures Charge(a, x, l, delta, reply).Ok? ==>
              Charge(a, x, l, delta, reply).value.lots == a.lots && Charge(b, x, l, delta, reply).value.lots == b.lots
  {
    ChargeIs(a, x, l, delta, reply);
    ChargeIs(b, x, l, delta, reply);
    if delta > 0 && Admit(x, reply).Err? {
      hide Alike, Twin, NextRow, Charge, Admit;
    } else {
      if delta > 0 { AdmitsAt(world, x, l, reply); }
      hide Admit, Charge, NextRow;
      SameRow(world, w, a, b, l);
      var next := NextRow(Row(a, x, l), x, delta, reply);
      if next.Ok? {
        TwinRow(world, w, a, b, l, next.value,
            LocationCapacityChanged(l, x.warehouse, next.value.load, next.value.revision));
      }
      hide Alike, Twin;
    }
  }

  lemma InsertBoth(world: map<Uuid, Site>, w: Uuid, a: Db, b: Db, id: Uuid, x: Lot)
    requires Alike(world, a, b, w) && x.warehouse == w && id !in a.lots && id !in b.lots
    ensures Both(world, w, a, InsertLot(a, id, x), b, InsertLot(b, id, x))
  {
    TwinLot(world, w, a, b, id, x);
    hide Alike, Twin;
  }

  lemma UpdateBoth(world: map<Uuid, Site>, w: Uuid, a: Db, b: Db, id: Uuid, x: Lot)
    requires Alike(world, a, b, w) && x.warehouse == w && LotHere(a, id, w) && LotHere(b, id, w)
    ensures Both(world, w, a, UpdateLot(a, id, x), b, UpdateLot(b, id, x))
  {
    TwinLot(world, w, a, b, id, x);
    hide Alike, Twin;
  }

  /** A further step after a pair of equal outcomes. */
  lemma Onwards(world: map<Uuid, Site>, w: Uuid, a: Db, x: Outcome<Db>, x1: Outcome<Db>, b: Db, y: Outcome<Db>,
                y1: Outcome<Db>)
    requires x.Ok? && y.Ok? && Both(world, w, a, x, b, y) && Both(world, w, x.value, x1, y.value, y1)
    ensures Both(world, w, a, x1, b, y1)
  {
    if x1.Ok? {
      TwinTwice(world, w, a, x.value, x1.value, b, y.value, y1.value);
    }
  }

  lemma Finally(world: map<Uuid, Site>, w: Uuid, a: Db, x: Outcome<Db>, b: Db, y: Outcome<Db>, e: Event)
    requires Both(world, w, a, x, b, y)
    ensures x.Ok? ==> Both(world, w, a, Ok(Emit(x.value, e)), b, Ok(Emit(y.value, e)))
  {
    if x.Ok? {
      TwinEvent(world, w, x.value, y.value, e);
      TwinTwice(world, w, a, x.value, Emit(x.value, e), b, y.value, Emit(y.value, e));
    }
  }

  lemma ReceiveBoth(world: map<Uuid, Site>, w: Uuid, a: Db, b: Db, now: Time, q: Receipt, product: Reply<Product>,
                    active: Reply<bool>, newId: Uuid)
    requires Alike(world, a, b, w) && q.warehouse == w && newId !in a.lots && newId !in b.lots
    ensures Both(world, w, a, Receive(a, now, q, product, active, newId), b, Receive(b, now, q, product, active, newId))
  {
    if product.Get().Ok? {
      var p := product.Get().value;
      var x := Lot(q.product, q.warehouse, None, q.quantity, 0, q.batch, q.expiration, now, p.unit, p.storage);
      InsertBoth(world, w, a, b, newId, x);
      Finally(world, w, a, InsertLot(a, newId, x), b, InsertLot(b, newId, x),
              GoodsReceived(newId, x.product, x.warehouse, x.quantity, x.unit, x.storage));
    }
    hide Alike, Twin, InsertLot;
  }

  /** Every placed lot of the warehouse stands at a location of the warehouse. */
  predicate Sited(world: map<Uuid, Site>, lots: map<Uuid, Lot>, w: Uuid) {
    forall id | id in lots && lots[id].warehouse == w && lots[id].location.Some? ::
        At(world, lots[id].location.value, w)
  }

  lemma SitedAt(world: map<Uuid, Site>, lots: map<Uuid, Lot>, w: Uuid, id: Uuid)
    requires Sited(world, lots, w) && id in lots && lots[id].warehouse == w && lots[id].location.Some?
    ensures At(world, lots[id].location.value, w)
  {
  }

  lemma WithdrawBoth(world: map<Uuid, Site>, w: Uuid, a: Db, b: Db, id: Uuid, x: Lot, n: int)
    requires Alike(world, a, b, w) && LotHere(a, id, w) && LotHere(b, id, w) && x.warehouse == w && n > 0
    requires x.location.Some? ==> At(world, x.location.value, w)
    ensures Both(world, w, a, Withdraw(a, id, x, n), b, Withdraw(b, id, x, n))
  {
    hide Alike, Twin, Charge, UpdateLot;
    var y := x.(quantity := x.quantity - n);
    if x.location.Some? {
      hide Withdraw;
      ChargeThenUpdate(world, w, a, b, x, x.location.value, -n, NoAnswer, id, y);
    } else {
      UpdateBoth(world, w, a, b, id, y);
    }
  }

  /** Charging a location and then writing the lot. */
  lemma ChargeThenUpdate(world: map<Uuid, Site>, w: Uuid, a: Db, b: Db, x: Lot, l: Uuid, delta: int,
                         reply: Reply<Location>,
                         id: Uuid, y: Lot)
    requires Alike(world, a, b, w) && x.warehouse == w && y.warehouse == w && LotHere(a, id, w) && LotHere(b, id, w)
    requires if delta > 0 then Honest(world, l, reply) else At(world, l, w)
    ensures var ca, cb := Charge(a, x, l, delta, reply), Charge(b, x, l, delta, reply);
            && ca.Ok? == cb.Ok? && (ca.Err? ==> ca.error == cb.error)
            && (ca.Ok? ==> Both(world, w, a, UpdateLot(ca.value, id, y), b, UpdateLot(cb.value, id, y)))
  {
    hide Alike, Twin, Charge, UpdateLot;
    ChargeBoth(world, w, a, b, x, l, delta, reply);
    var ca, cb := Charge(a, x, l, delta, reply), Charge(b, x, l, delta, reply);
    if ca.Ok? {
      TwinAlike(world, w, a, ca, b, cb);
      UpdateBoth(world, w, ca.value, cb.value, id, y);
      Onwards(world, w, a, ca, UpdateLot(ca.value, id, y), b, cb, UpdateLot(cb.value, id, y));
    }
  }

  lemma AdjustBoth(world: map<Uuid, Site>, w: Uuid, a: Db, b: Db, q: Change, reply: Reply<Location>)
    requires Alike(world, a, b, w) && Sited(world, b.lots, w)
    requires q.stock in a.lots && q.stock in b.lots && LotHere(a, q.stock, w) && LotHere(b, q.stock, w)
    requires b.lots[q.stock].location.Some? ==> Honest(world, b.lots[q.stock].location.value, reply)
    ensures Both(world, w, a, AdjustLot(a, q, reply), b, AdjustLot(b, q, reply))
  {
    hide Alike, Twin, Charge, UpdateLot, Sited;
    SameLot(world, w, a, b, q.stock);
    var x := b.lots[q.stock];
    var y := x.(quantity := q.quantity);
    var delta := q.quantity - x.quantity;
    var e := StockAdjusted(q.stock, x.product, x.warehouse, q.quantity, delta, q.reason);
    if x.location.Some? && delta != 0 {
      var l := x.location.value;
      SitedAt(world, b.lots, w, q.stock);
      ChargeThenUpdate(world, w, a, b, x, l, delta, reply, q.stock, y);
      var ca, cb := Charge(a, x, l, delta, reply), Charge(b, x, l, delta, reply);
      if ca.Ok? {
        Finally(world, w, a, UpdateLot(ca.value, q.stock, y), b, UpdateLot(cb.value, q.stock, y), e);
      }
    } else {
      UpdateBoth(world, w, a, b, q.stock, y);
      Finally(world, w, a, UpdateLot(a, q.stock, y), b, UpdateLot(b, q.stock, y), e);
    }
  }

  lemma WriteOffBoth(world: map<Uuid, Site>, w: Uuid, a: Db, b: Db, q: Change)
    requires Alike(world, a, b, w) && Sited(world, b.lots, w)
    requires q.stock in a.lots && q.stock in b.lots && LotHere(a, q.stock, w) && LotHere(b, q.stock, w)
    ensures Both(world, w, a, WriteOffLot(a, q), b, WriteOffLot(b, q))
  {
    hide Alike, Twin, Withdraw, Sited;
    SameLot(world, w, a, b, q.stock);
    var x := b.lots[q.stock];
    if x.location.Some? { SitedAt(world, b.lots, w, q.stock); }
    if q.quantity > 0 {
      WithdrawBoth(world, w, a, b, q.stock, x, q.quantity);
      Finally(world, w, a, Withdraw(a, q.stock, x, q.quantity), b, Withdraw(b, q.stock, x, q.quantity),
              StockWrittenOff(q.stock, x.product, x.warehouse, q.quantity, q.reason));
    }
  }

  lemma MoveBoth(world: map<Uuid, Site>, w: Uuid, a: Db, b: Db, now: Time, q: Change, reply: Reply<Location>,
                 newId: Uuid)
    requires Alike(world, a, b, w) && Sited(world, b.lots, w) && newId !in a.lots && newId !in b.lots
    requires q.stock in a.lots && q.stock in b.lots && LotHere(a, q.stock, w) && LotHere(b, q.stock, w)
    requires Honest(world, q.to, reply)
    ensures Both(world, w, a, MoveLot(a, now, q, reply, newId), b, MoveLot(b, now, q, reply, newId))
  {
    SameLot(world, w, a, b, q.stock);
    var x := b.lots[q.stock];
    if CheckQuantity(q.quantity, AvailableUnits(x.quantity, x.reserved)).None? && x.location != Some(q.to) {
      ChargeBoth(world, w, a, b, x, q.to, q.quantity, reply);
      var ca, cb := Charge(a, x, q.to, q.quantity, reply), Charge(b, x, q.to, q.quantity, reply);
      hide Charge;
      if ca.Ok? {
        var copy := x.(location := Some(q.to), quantity := q.quantity, reserved := 0, created := now);
        InsertBoth(world, w, ca.value, cb.value, newId, copy);
        var ia, ib := InsertLot(ca.value, newId, copy), InsertLot(cb.value, newId, copy);
        if ia.Ok? {
          WithdrawBoth(world, w, ia.value, ib.value, q.stock, x, q.quantity);
          var wa, wb := Withdraw(ia.value, q.stock, x, q.quantity), Withdraw(ib.value, q.stock, x, q.quantity);
          hide Alike, Twin, Withdraw, InsertLot;
          Onwards(world, w, a, ca, ia, b, cb, ib);
          Onwards(world, w, a, ia, wa, b, ib, wb);
          Finally(world, w, a, wa, b, wb,
              StockMoved(q.stock, newId, x.product, x.warehouse, q.quantity, x.location, q.to));
        }
        hide Alike, Twin, Withdraw, InsertLot;
      }
    }
    hide Charge, Alike, Twin, Withdraw;
  }
}
