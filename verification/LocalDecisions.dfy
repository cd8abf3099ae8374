/** Locality of the consumed events and of whole transactions: reserving, releasing,
    shipping and placing read and write only the rows of their warehouse. */
module LocalDecisions {
  import opened Domain
  import opened Events
  import opened InventoryRules
  import opened StockInvariant
  import opened LedgerInvariant
  import opened InventorySafety
  import opened Locality

  // ----- what the rows of a warehouse refer to -----

  /** Rows refer to rows of the same warehouse. */
  ghost predicate Local(world: map<Uuid, Site>, db: Db, w: Uuid) {
    && Sited(world, db.lots, w)
    && forall x | x in db.allocs ::
         && x.reservation in db.bookings
         && (db.bookings[x.reservation].warehouse == w ==> x.stock in db.lots && db.lots[x.stock].warehouse == w)
  }

  /** The transaction names rows of the warehouse only. */
  predicate Addressed(db: Db, t: Transaction, w: Uuid) {
    match t
    case Receiving(_, q, _, _, newId) => q.warehouse == w && newId !in db.lots
    case Changing(_, _, q, _, newId) => q.stock in db.lots && db.lots[q.stock].warehouse == w && newId !in db.lots
    case Consuming(_, e, _) =>
      Relevant(e) && e.warehouse == w
      && (if e.ProductPlacementAssigned? then LotHere(db, e.stock, w) else BookingHere(db, e.reservation, w))
    case Expiring(r) => BookingHere(db, r, w)
  }

  // ----- reserve -----

  lemma EligibleSame(world: map<Uuid, Site>, w: Uuid, a: Db, b: Db, product: Uuid, today: int)
    requires Alike(world, a, b, w)
    ensures EligibleLots(a, w, product, today) == EligibleLots(b, w, product, today)
  {
    forall id | id in a.lots || id in b.lots
      ensures id in EligibleLots(a, w, product, today) <==> id in EligibleLots(b, w, product, today)
      ensures id in EligibleLots(a, w, product, today) ==>
                EligibleLots(a, w, product, today)[id] == EligibleLots(b, w, product, today)[id]
    {
      assert id in LotsOf(a.lots, w) <==> id in LotsOf(b.lots, w);
      assert id in LotsOf(a.lots, w) ==> LotsOf(a.lots, w)[id] == LotsOf(b.lots, w)[id];
    }
  }

  predicate Listed(allocs: seq<Alloc>, r: Uuid, stock: Uuid) {
    exists i | 0 <= i < |allocs| :: allocs[i].reservation == r && allocs[i].stock == stock
  }

  lemma ListedInRows(allocs: seq<Alloc>, r: Uuid, stock: Uuid)
    ensures Listed(allocs, r, stock) <==> exists y :: y in RowsOf(allocs, r) && y.stock == stock
  {
    RowsOfMembers(allocs, r);
  }

  lemma AddAllocBoth(world: map<Uuid, Site>, w: Uuid, a: Db, b: Db, x: Alloc)
    requires Alike(world, a, b, w) && x.reservation in BookingsOf(a.bookings, w)
    ensures Both(world, w, a, AddAlloc(a, x), b, AddAlloc(b, x))
  {
    assert RowsOf(a.allocs, x.reservation) == RowsOf(b.allocs, x.reservation);
    hide RowsOf, Alike, Twin, BookingsOf;
    ListedInRows(a.allocs, x.reservation, x.stock);
    ListedInRows(b.allocs, x.reservation, x.stock);
    assert Listed(a.allocs, x.reservation, x.stock) == Listed(b.allocs, x.reservation, x.stock);
  }

  lemma TakeIs(db: Db, r: Uuid, stock: Uuid, n: int)
    requires stock in db.lots
    ensures var u := UpdateLot(db, stock, db.lots[stock].(reserved := db.lots[stock].reserved + n));
            && Take(db, r, stock, n) == (if u.Ok? then AddAlloc(u.value, Alloc(r, stock, n)) else Err(u.error))
            && (u.Ok? ==> u.value.bookings == db.bookings)
  {
    hide AddAlloc;
  }

  lemma TakeBoth(world: map<Uuid, Site>, w: Uuid, a: Db, b: Db, r: Uuid, stock: Uuid, n: int)
    requires Alike(world, a, b, w) && r in BookingsOf(a.bookings, w) && LotHere(a, stock, w) && LotHere(b, stock, w)
    ensures Both(world, w, a, Take(a, r, stock, n), b, Take(b, r, stock, n))
  {
    hide Alike, Twin, UpdateLot, AddAlloc, BookingsOf;
    SameLot(world, w, a, b, stock);
    if stock in a.lots {
      TakeIs(a, r, stock, n);
      TakeIs(b, r, stock, n);
      hide Take;
      var y := a.lots[stock].(reserved := a.lots[stock].reserved + n);
      UpdateBoth(world, w, a, b, stock, y);
      var ua, ub := UpdateLot(a, stock, y), UpdateLot(b, stock, y);
      if ua.Ok? {
        TwinAlike(world, w, a, ua, b, ub);
        AddAllocBoth(world, w, ua.value, ub.value, Alloc(r, stock, n));
        Onwards(world, w, a, ua, AddAlloc(ua.value, Alloc(r, stock, n)), b, ub, AddAlloc(ub.value, Alloc(r, stock, n)));
      }
    }
  }

  ghost predicate BothTaking(world: map<Uuid, Site>, w: Uuid, a: Db, x: Outcome<Taking>, b: Db, y: Outcome<Taking>) {
    if x.Ok? then y.Ok? && x.value.remaining == y.value.remaining && Twin(world, w, a, x.value.db, b, y.value.db)
    else y.Err? && x.error == y.error
  }

  predicate OffersHere(db: Db, offers: seq<Offer>, w: Uuid) {
    forall o | o in offers :: LotHere(db, o.stock, w)
  }

  lemma HereStays(world: map<Uuid, Site>, w: Uuid, a: Db, a1: Db, b: Db, b1: Db, offers: seq<Offer>, r: Uuid)
    requires Twin(world, w, a, a1, b, b1) && OffersHere(a, offers, w) && OffersHere(b, offers, w)
    requires r in BookingsOf(a.bookings, w)
    ensures OffersHere(a1, offers, w) && OffersHere(b1, offers, w) && r in BookingsOf(a1.bookings, w)
              && Alike(world, a1, b1, w)
  {
    hide Alike, LedgerOutside;
  }

  lemma {:induction false} TakeAllBoth(world: map<Uuid, Site>, w: Uuid, a: Db, b: Db, r: Uuid, offers: seq<Offer>,
                                       n: int)
    requires Alike(world, a, b, w) && r in BookingsOf(a.bookings, w) && OffersHere(a, offers, w)
    requires OffersHere(b, offers, w)
    ensures BothTaking(world, w, a, TakeAll(a, r, offers, n), b, TakeAll(b, r, offers, n))
    decreases |offers|
  {
    hide Alike, Twin, Take, BookingsOf, LotHere;
    if offers == [] || Min(n, offers[0].free) <= 0 {
      TwinNothing(world, w, a, b);
    } else {
      var k := Min(n, offers[0].free);
      var ta, tb := Take(a, r, offers[0].stock, k), Take(b, r, offers[0].stock, k);
      assert OffersHere(a, offers[1..], w) && OffersHere(b, offers[1..], w);
      TakeBoth(world, w, a, b, r, offers[0].stock, k);
      hide TakeAll, OffersHere;
      if ta.Ok? {
        HereStays(world, w, a, ta.value, b, tb.value, offers[1..], r);
        TakeAllBoth(world, w, ta.value, tb.value, r, offers[1..], n - k);
        var xa, xb := TakeAll(ta.value, r, offers[1..], n - k), TakeAll(tb.value, r, offers[1..], n - k);
        if xa.Ok? {
          TwinTwice(world, w, a, ta.value, xa.value.db, b, tb.value, xb.value.db);
        }
      }
    }
  }

  lemma {:induction false} OffersAreHere(m: map<Uuid, Lot>)
    ensures forall o | o in Offers(m) :: o.stock in m
    decreases |m|
  {
    if m != map[] {
      OffersAreHere(m - {FirstOf(m)});
    }
  }

  lemma EligibleAreHere(db: Db, w: Uuid, product: Uuid, today: int)
    ensures OffersHere(db, Offers(EligibleLots(db, w, product, today)), w)
  {
    OffersAreHere(EligibleLots(db, w, product, today));
  }

  lemma {:induction false} TakeLinesBoth(world: map<Uuid, Site>, w: Uuid, a: Db, b: Db, r: Uuid, today: int,
                                         lines: seq<Line>, seen: set<Uuid>)
    requires Alike(world, a, b, w) && r in BookingsOf(a.bookings, w)
    ensures Both(world, w, a, TakeLines(a, r, w, today, lines, seen), b, TakeLines(b, r, w, today, lines, seen))
    decreases |lines|
  {
    if lines == [] {
      TwinNothing(world, w, a, b);
    } else if lines[0].quantity > 0 && lines[0].product !in seen {
      EligibleSame(world, w, a, b, lines[0].product, today);
      var offers := Offers(EligibleLots(a, w, lines[0].product, today));
      EligibleAreHere(a, w, lines[0].product, today);
      EligibleAreHere(b, w, lines[0].product, today);
      TakeAllBoth(world, w, a, b, r, offers, lines[0].quantity);
      var ta, tb := TakeAll(a, r, offers, lines[0].quantity), TakeAll(b, r, offers, lines[0].quantity);
      hide Alike, Twin, TakeAll, Offers, EligibleLots, OffersHere, BookingsOf;
      if ta.Ok? && ta.value.remaining <= 0 {
        assert OffersHere(a, [], w) && OffersHere(b, [], w) by { EmptyHere(a, w); EmptyHere(b, w); }
        HereStays(world, w, a, ta.value.db, b, tb.value.db, [], r);
        TakeLinesBoth(world, w, ta.value.db, tb.value.db, r, today, lines[1..], seen + {lines[0].product});
        Onwards(world, w, a, Ok(ta.value.db),
            TakeLines(ta.value.db, r, w, today, lines[1..], seen + {lines[0].product}),
                b, Ok(tb.value.db), TakeLines(tb.value.db, r, w, today, lines[1..], seen + {lines[0].product}));
      }
    }
  }

  lemma EmptyHere(db: Db, w: Uuid)
    ensures OffersHere(db, [], w)
  {
  }

  lemma {:induction false} NoneOf(allocs: seq<Alloc>, r: Uuid)
    requires forall x | x in allocs :: x.reservation != r
    ensures RowsOf(allocs, r) == []
  {
    if allocs != [] {
      NoneOf(allocs[..|allocs| - 1], r);
    }
  }

  /** A reservation without a row has no allocations. */
  lemma NoRows(world: map<Uuid, Site>, db: Db, r: Uuid, w: Uuid)
    requires Local(world, db, w) && r !in db.bookings
    ensures RowsOf(db.allocs, r) == []
  {
    NoneOf(db.allocs, r);
  }

  lemma NewBookingBoth(world: map<Uuid, Site>, w: Uuid, a: Db, b: Db, r: Uuid, k: Booking)
    requires Alike(world, a, b, w) && Local(world, a, w) && Local(world, b, w) && k.warehouse == w
    requires r !in a.bookings && r !in b.bookings
    ensures Twin(world, w, a, a.(bookings := a.bookings[r := k]), b, b.(bookings := b.bookings[r := k]))
  {
    NoRows(world, a, r, w);
    NoRows(world, b, r, w);
    TwinBooking(world, w, a, b, r, k);
  }

  lemma ReserveBoth(world: map<Uuid, Site>, w: Uuid, a: Db, b: Db, now: Time, r: Uuid, lines: seq<Line>, expires: Time)
    requires Alike(world, a, b, w) && Local(world, a, w) && Local(world, b, w)
    requires BookingHere(a, r, w) && BookingHere(b, r, w)
    ensures Both(world, w, a, Reserve(a, now, r, w, lines, expires), b, Reserve(b, now, r, w, lines, expires))
  {
    SameBooking(world, w, a, b, r);
    TwinNothing(world, w, a, b);
    if r !in a.bookings && now < expires && lines != [] {
      var k := Booking(w, Confirmed, expires, None);
      NewBookingBoth(world, w, a, b, r, k);
      var a1, b1 := a.(bookings := a.bookings[r := k]), b.(bookings := b.bookings[r := k]);
      assert r in BookingsOf(a1.bookings, w);
      assert Alike(world, a1, b1, w);
      TakeLinesBoth(world, w, a1, b1, r, Today(now), lines, {});
      var ta, tb := TakeLines(a1, r, w, Today(now), lines, {}), TakeLines(b1, r, w, Today(now), lines, {});
      hide Alike, Twin, TakeLines, Local, BookingsOf;
      Onwards(world, w, a, Ok(a1), ta, b, Ok(b1), tb);
      Finally(world, w, a, ta, b, tb, StockReserved(r, w, lines, expires));
    }
    hide Alike, Twin, TakeLines, Local;
  }

  // ----- release -----

  /** The rows name lots of the warehouse only. */
  predicate RowsHere(lots: map<Uuid, Lot>, rows: seq<Alloc>, w: Uuid) {
    forall x | x in rows :: x.stock in lots ==> lots[x.stock].warehouse == w
  }

  ghost predicate BothLots(w: Uuid, la: map<Uuid, Lot>, x: Outcome<map<Uuid, Lot>>, lb: map<Uuid, Lot>,
                           y: Outcome<map<Uuid, Lot>>) {
    if x.Ok? then y.Ok? && LotsOf(x.value, w) == LotsOf(y.value, w) && LotsOutside(w, la, x.value)
        && LotsOutside(w, lb, y.value)
    else y.Err? && x.error == y.error
  }

  lemma OutsideLots(w: Uuid, a: map<Uuid, Lot>, b: map<Uuid, Lot>, c: map<Uuid, Lot>)
    requires LotsOutside(w, a, b) && LotsOutside(w, b, c)
    ensures LotsOutside(w, a, c)
  {
  }

  lemma SameStock(la: map<Uuid, Lot>, lb: map<Uuid, Lot>, id: Uuid, w: Uuid)
    requires LotsOf(la, w) == LotsOf(lb, w)
    requires (id in la ==> la[id].warehouse == w) && (id in lb ==> lb[id].warehouse == w)
    ensures (id in la <==> id in lb) && (id in la ==> la[id] == lb[id])
  {
    assert id in LotsOf(la, w) <==> id in LotsOf(lb, w);
    assert id in LotsOf(la, w) ==> LotsOf(la, w)[id] == LotsOf(lb, w)[id];
  }

  lemma {:induction false} GiveBackBoth(w: Uuid, la: map<Uuid, Lot>, lb: map<Uuid, Lot>, rows: seq<Alloc>)
    requires LotsOf(la, w) == LotsOf(lb, w) && RowsHere(la, rows, w) && RowsHere(lb, rows, w)
    ensures BothLots(w, la, GiveBack(la, rows), lb, GiveBack(lb, rows))
  {
    if rows != [] {
      var id := rows[0].stock;
      SameStock(la, lb, id, w);
      if id !in la {
        GiveBackBoth(w, la, lb, rows[1..]);
      } else {
        var y := la[id].(reserved := la[id].reserved - rows[0].quantity);
        if RowAllowed(y) {
          LotWritten(la, id, y, w);
          LotWritten(lb, id, y, w);
          var l1, l2 := la[id := y], lb[id := y];
          assert RowsHere(l1, rows[1..], w) && RowsHere(l2, rows[1..], w);
          hide LotsOf, LotsOutside;
          GiveBackBoth(w, l1, l2, rows[1..]);
          if GiveBack(l1, rows[1..]).Ok? {
            OutsideLots(w, la, l1, GiveBack(l1, rows[1..]).value);
            OutsideLots(w, lb, l2, GiveBack(l2, rows[1..]).value);
          }
        }
      }
    }
  }

  lemma {:induction false} ItemsBoth(w: Uuid, la: map<Uuid, Lot>, lb: map<Uuid, Lot>, rows: seq<Alloc>)
    requires LotsOf(la, w) == LotsOf(lb, w) && RowsHere(la, rows, w) && RowsHere(lb, rows, w)
    ensures ItemsOf(la, rows) == ItemsOf(lb, rows)
  {
    if rows != [] {
      SameStock(la, lb, rows[0].stock, w);
      ItemsBoth(w, la, lb, rows[1..]);
    }
  }

  /** The allocations of a reservation of the warehouse name its lots. */
  lemma RowsAreHere(world: map<Uuid, Site>, db: Db, r: Uuid, w: Uuid)
    requires Local(world, db, w) && r in db.bookings && db.bookings[r].warehouse == w
    ensures RowsHere(db.lots, RowsOf(db.allocs, r), w)
    ensures forall x | x in RowsOf(db.allocs, r) :: x.stock in db.lots
  {
    RowsOfMembers(db.allocs, r);
  }

  lemma TwinLots(world: map<Uuid, Site>, w: Uuid, a: Db, b: Db, la: map<Uuid, Lot>, lb: map<Uuid, Lot>)
    requires Alike(world, a, b, w) && LotsOf(la, w) == LotsOf(lb, w)
    requires LotsOutside(w, a.lots, la) && LotsOutside(w, b.lots, lb)
    ensures Twin(world, w, a, a.(lots := la), b, b.(lots := lb))
  {
    hide LotsOutside, LotsOf;
  }

  lemma AlikeLots(world: map<Uuid, Site>, w: Uuid, a: Db, b: Db)
    requires Alike(world, a, b, w)
    ensures LotsOf(a.lots, w) == LotsOf(b.lots, w)
  {
  }

  lemma RowsHereAfter(w: Uuid, la: map<Uuid, Lot>, x: Outcome<map<Uuid, Lot>>, lb: map<Uuid, Lot>,
                      y: Outcome<map<Uuid, Lot>>, rows: seq<Alloc>)
    requires BothLots(w, la, x, lb, y) && RowsHere(la, rows, w) && RowsHere(lb, rows, w)
    ensures x.Ok? ==> RowsHere(x.value, rows, w) && RowsHere(y.value, rows, w)
  {
  }

  lemma StillBooked(world: map<Uuid, Site>, w: Uuid, a: Db, a1: Db, b: Db, b1: Db, r: Uuid)
    requires r in a.bookings && a.bookings[r].warehouse == w && a1.bookings == a.bookings && b1.bookings == b.bookings
    requires BookingHere(b, r, w)
    ensures r in BookingsOf(a1.bookings, w) && BookingHere(b1, r, w)
  {
  }

  lemma ReleaseBoth(world: map<Uuid, Site>, w: Uuid, a: Db, b: Db, r: Uuid, expired: bool)
    requires Alike(world, a, b, w) && Local(world, a, w) && Local(world, b, w)
    requires BookingHere(a, r, w) && BookingHere(b, r, w)
    ensures Both(world, w, a, Release(a, r, expired), b, Release(b, r, expired))
  {
    hide Alike, Twin, GiveBack, Local, RowsOf, LotsOf, LotsOutside, ItemsOf, RowsHere, BookingsOf;
    SameBooking(world, w, a, b, r);
    TwinNothing(world, w, a, b);
    if r in a.bookings && a.bookings[r].status == Confirmed {
      var rows, k := RowsOf(a.allocs, r), a.bookings[r];
      RowsAreHere(world, a, r, w);
      RowsAreHere(world, b, r, w);
      AlikeLots(world, w, a, b);
      GiveBackBoth(w, a.lots, b.lots, rows);
      var ga, gb := GiveBack(a.lots, rows), GiveBack(b.lots, rows);
      if ga.Ok? {
        RowsHereAfter(w, a.lots, ga, b.lots, gb, rows);
        TwinLots(world, w, a, b, ga.value, gb.value);
        ItemsBoth(w, ga.value, gb.value, rows);
        var closed := k.(status := if expired then ExpiredStatus else Cancelled);
        var a1, b1 := a.(lots := ga.value), b.(lots := gb.value);
        StillBooked(world, w, a, a1, b, b1, r);
        CloseBoth(world, w, a, a1, b, b1, r, closed,
                  if expired then ReservationExpired(r, w, ItemsOf(ga.value, rows))
                  else StockReservationCancelled(r, w, ItemsOf(ga.value, rows)));
      }
    }
  }

  /** The booking is closed and the event that says so is appended. */
  lemma CloseBoth(world: map<Uuid, Site>, w: Uuid, a: Db, a1: Db, b: Db, b1: Db, r: Uuid, closed: Booking, e: Event)
    requires Twin(world, w, a, a1, b, b1) && r in BookingsOf(a1.bookings, w) && BookingHere(b1, r, w)
    requires closed.warehouse == w
    ensures Twin(world, w, a, Emit(a1.(bookings := a1.bookings[r := closed]), e), b,
              Emit(b1.(bookings := b1.bookings[r := closed]), e))
  {
    TwinBooking(world, w, a1, b1, r, closed);
    var a2, b2 := a1.(bookings := a1.bookings[r := closed]), b1.(bookings := b1.bookings[r := closed]);
    TwinTwice(world, w, a, a1, a2, b, b1, b2);
    Finally(world, w, a, Ok(a2), b, Ok(b2), e);
    hide Twin, Alike;
  }

  // ----- ship -----

  lemma ShipRowBoth(world: map<Uuid, Site>, w: Uuid, a: Db, b: Db, now: Time, x: Alloc)
    requires Alike(world, a, b, w) && Sited(world, b.lots, w) && LotHere(a, x.stock, w) && LotHere(b, x.stock, w)
    requires x.quantity > 0
    ensures Both(world, w, a, ShipRow(a, now, x), b, ShipRow(b, now, x))
  {
    hide Alike, Twin, Sited, Charge, UpdateLot;
    SameLot(world, w, a, b, x.stock);
    if x.stock in b.lots && b.lots[x.stock].location.Some?
       && (b.lots[x.stock].expiration.None? || b.lots[x.stock].expiration.value > Today(now)) {
      var lot := b.lots[x.stock];
      var y := lot.(quantity := lot.quantity - x.quantity, reserved := lot.reserved - x.quantity);
      hide ShipRow;
      SitedAt(world, b.lots, w, x.stock);
      ChargeThenUpdate(world, w, a, b, lot, lot.location.value, -x.quantity, NoAnswer, x.stock, y);
    }
  }

  lemma {:induction false} ShipRowsBoth(world: map<Uuid, Site>, w: Uuid, a: Db, b: Db, now: Time, rows: seq<Alloc>)
    requires Alike(world, a, b, w) && Sited(world, b.lots, w) && RowsHere(a.lots, rows, w) && RowsHere(b.lots, rows, w)
    requires forall x | x in rows :: x.quantity > 0
    ensures Both(world, w, a, ShipRows(a, now, rows), b, ShipRows(b, now, rows))
    ensures ShipRows(a, now, rows).Ok? ==>
              ShipRows(a, now, rows).value.bookings == a.bookings && ShipRows(b, now, rows).value.bookings == b.bookings
    decreases |rows|
  {
    if rows == [] {
      TwinNothing(world, w, a, b);
    } else {
      ShipRowBoth(world, w, a, b, now, rows[0]);
      var sa, sb := ShipRow(a, now, rows[0]), ShipRow(b, now, rows[0]);
      if sa.Ok? {
        ShipRowFrame(a, now, rows[0]);
        assert Alike(world, sa.value, sb.value, w);
        hide Alike, Twin, ShipRow, Sited, RowsHere;
        ShipRowsBoth(world, w, sa.value, sb.value, now, rows[1..]);
        Onwards(world, w, a, sa, ShipRows(sa.value, now, rows[1..]), b, sb, ShipRows(sb.value, now, rows[1..]));
      }
      hide Alike, Twin, ShipRow, Sited;
    }
  }

  lemma ShipRowFrame(db: Db, now: Time, x: Alloc)
    requires ShipRow(db, now, x).Ok?
    ensures ShipRow(db, now, x).value.bookings == db.bookings
  {
    ChargeFrame(db, db.lots[x.stock], db.lots[x.stock].location.value, -x.quantity, NoAnswer);
    hide Charge;
  }

  lemma SitedLocal(world: map<Uuid, Site>, db: Db, w: Uuid)
    requires Local(world, db, w)
    ensures Sited(world, db.lots, w)
  {
  }

  lemma ShipBoth(world: map<Uuid, Site>, w: Uuid, a: Db, b: Db, now: Time, r: Uuid, s: Uuid)
    requires Alike(world, a, b, w) && Local(world, a, w) && Local(world, b, w) && Counted(b)
    requires BookingHere(a, r, w) && BookingHere(b, r, w)
    ensures Both(world, w, a, Ship(a, now, r, w, s), b, Ship(b, now, r, w, s))
  {
    hide Alike, Twin, ShipRows, Local, RowsOf, LotsOf, ItemsOf, RowsHere, BookingsOf;
    SameBooking(world, w, a, b, r);
    TwinNothing(world, w, a, b);
    if r in a.bookings && a.bookings[r].status == Confirmed && a.bookings[r].expires > now {
      var rows, k := RowsOf(b.allocs, r), a.bookings[r];
      RowsAreHere(world, a, r, w);
      RowsAreHere(world, b, r, w);
      RowsOfMembers(b.allocs, r);
      SitedLocal(world, b, w);
      ShipRowsBoth(world, w, a, b, now, rows);
      AlikeLots(world, w, a, b);
      ItemsBoth(w, a.lots, b.lots, rows);
      var sa, sb := ShipRows(a, now, rows), ShipRows(b, now, rows);
      if sa.Ok? {
        StillBooked(world, w, a, sa.value, b, sb.value, r);
        CloseBoth(world, w, a, sa.value, b, sb.value, r, k.(status := Completed, shipment := Some(s)),
                  StockShipped(r, w, s, ItemsOf(b.lots, rows)));
      }
    }
  }

  /** The CHECK constraint of the allocations table. */
  ghost predicate Counted(db: Db) {
    forall x | x in db.allocs :: x.quantity > 0
  }

  // ----- place -----

  lemma PlaceBoth(world: map<Uuid, Site>, w: Uuid, a: Db, b: Db, stock: Uuid, l: Uuid, reply: Reply<Location>)
    requires Alike(world, a, b, w) && Sited(world, b.lots, w) && LotHere(a, stock, w) && LotHere(b, stock, w)
    requires Honest(world, l, reply) && (stock in b.lots ==> b.lots[stock].quantity >= 0)
    ensures Both(world, w, a, Place(a, stock, w, l, reply), b, Place(b, stock, w, l, reply))
  {
    hide Alike, Twin, Charge, UpdateLot, Sited;
    SameLot(world, w, a, b, stock);
    TwinNothing(world, w, a, b);
    if stock in b.lots && b.lots[stock].location.None? && b.lots[stock].quantity > 0 {
      var x := b.lots[stock];
      var y := x.(location := Some(l));
      ChargeThenUpdate(world, w, a, b, x, l, x.quantity, reply, stock, y);
      var ca, cb := Charge(a, x, l, x.quantity, reply), Charge(b, x, l, x.quantity, reply);
      if ca.Ok? {
        Finally(world, w, a, UpdateLot(ca.value, stock, y), b, UpdateLot(cb.value, stock, y),
                StockAdded(stock, x.product, x.warehouse, l, x.quantity));
      }
    }
  }

  // ----- whole transactions -----

  ghost predicate Ready(world: map<Uuid, Site>, db: Db, w: Uuid) {
    Local(world, db, w) && Counted(db) && Sized(db.lots)
  }

  lemma DecideBoth(world: map<Uuid, Site>, w: Uuid, a: Db, b: Db, now: Time, e: Event, reply: Reply<Location>)
    requires Alike(world, a, b, w) && Ready(world, a, w) && Ready(world, b, w)
    requires Addressed(a, Consuming(now, e, reply), w) && Addressed(b, Consuming(now, e, reply), w)
    requires HonestFor(world, b, Consuming(now, e, reply))
    ensures Both(world, w, a, Decide(a, now, e, reply), b, Decide(b, now, e, reply))
  {
    match e {
      case ReservationRequested(r, _, lines, expires) => ReserveBoth(world, w, a, b, now, r, lines, expires);
      case ReservationCancellationRequested(r, _, _) => ReleaseBoth(world, w, a, b, r, false);
      case ShipmentRequested(s, _, r) => ShipBoth(world, w, a, b, now, r, s);
      case ProductPlacementAssigned(stock, _, l, _) => PlaceBoth(world, w, a, b, stock, l, reply);
    }
    hide Both, Reserve, Release, Ship, Place, Alike;
  }

  lemma RefuseBoth(world: map<Uuid, Site>, w: Uuid, a: Db, b: Db, now: Time, e: Event, code: Code)
    requires Alike(world, a, b, w) && Local(world, a, w) && Local(world, b, w)
    requires Relevant(e) && e.warehouse == w
    requires e.ReservationRequested? ==> BookingHere(a, e.reservation, w) && BookingHere(b, e.reservation, w)
    ensures Twin(world, w, a, Refuse(a, now, e, code), b, Refuse(b, now, e, code))
  {
    var refusal := Refusal(e, code);
    TwinNothing(world, w, a, b);
    if e.ReservationRequested? {
      SameBooking(world, w, a, b, e.reservation);
      if e.reservation !in a.bookings {
        var k := Booking(w, Rejected, now, None);
        NewBookingBoth(world, w, a, b, e.reservation, k);
        Finally(world, w, a, Ok(a.(bookings := a.bookings[e.reservation := k])),
                b, Ok(b.(bookings := b.bookings[e.reservation := k])), refusal);
      }
    }
    Finally(world, w, a, Ok(a), b, Ok(b), refusal);
    hide Alike, Twin, Local;
  }

  lemma HandleBoth(world: map<Uuid, Site>, w: Uuid, a: Db, b: Db, now: Time, e: Event, reply: Reply<Location>)
    requires Alike(world, a, b, w) && Ready(world, a, w) && Ready(world, b, w)
    requires Addressed(a, Consuming(now, e, reply), w) && Addressed(b, Consuming(now, e, reply), w)
    requires HonestFor(world, b, Consuming(now, e, reply))
    ensures Both(world, w, a, Handle(a, now, e, reply), b, Handle(b, now, e, reply))
  {
    DecideBoth(world, w, a, b, now, e, reply);
    var o := Decide(a, now, e, reply);
    if o.Err? && Business(o.error) {
      RefuseBoth(world, w, a, b, now, e, o.error.code);
    }
    hide Decide, Alike, Twin, Local, Refuse;
  }

  /** The same transaction on two databases that hold the same rows of its warehouse: the
      same outcome, the same rows written, the same allocations and events appended, and
      nothing outside the warehouse touched. */
  lemma AttemptBoth(world: map<Uuid, Site>, w: Uuid, a: Db, b: Db, t: Transaction)
    requires Alike(world, a, b, w) && Ready(world, a, w) && Ready(world, b, w)
    requires Addressed(a, t, w) && Addressed(b, t, w) && HonestFor(world, b, t)
    ensures Both(world, w, a, Attempt(a, t), b, Attempt(b, t))
  {
    match t {
      case Receiving(now, q, product, active, newId) => ReceiveBoth(world, w, a, b, now, q, product, active, newId);
      case Changing(now, action, q, reply, newId) =>
        match action {
          case Adjust => AdjustBoth(world, w, a, b, q, reply);
          case Move => MoveBoth(world, w, a, b, now, q, reply, newId);
          case WriteOff => WriteOffBoth(world, w, a, b, q);
        }
      case Consuming(now, e, reply) => HandleBoth(world, w, a, b, now, e, reply);
      case Expiring(r) => ReleaseBoth(world, w, a, b, r, true);
    }
    hide Both, Receive, AdjustLot, MoveLot, WriteOffLot, Handle, Release, Alike;
  }

  lemma CommitBoth(world: map<Uuid, Site>, w: Uuid, a: Db, b: Db, t: Transaction)
    requires Alike(world, a, b, w) && Ready(world, a, w) && Ready(world, b, w)
    requires Addressed(a, t, w) && Addressed(b, t, w) && HonestFor(world, b, t)
    ensures Twin(world, w, a, Commit(a, t), b, Commit(b, t))
  {
    AttemptBoth(world, w, a, b, t);
    TwinNothing(world, w, a, b);
    hide Attempt, Twin, Alike;
  }
}
