/** Reserved means allocated and shipped means deducted: the allocations behind every
    confirmation add up to the requested lines, and every shipped event lists exactly
    those allocations. */
module Fulfilment {
  import opened Domain
  import opened Events
  import opened InventoryRules
  import opened StockInvariant
  import opened ReserveDecision
  import opened Closing
  import EventLog
  import opened Effects
  import opened Talk

  /** Units of a product that are allocated to a reservation. */
  function Allocated(db: Db, r: Uuid, product: Uuid): int {
    ProductUnits(db.lots, RowsOf(db.allocs, r), product)
  }

  ghost predicate EventHonoured(db: Db, e: Event) {
    && (e.StockReserved? ==> forall p :: Allocated(db, e.reservation, p) == LineUnits(e.lines, p))
    && (e.StockShipped? ==>
          && e.reservation in db.bookings
          && db.bookings[e.reservation].shipment == Some(e.shipment)
          && forall p :: Allocated(db, e.reservation, p) == EventLog.ItemUnits(e.items, p))
  }

  ghost predicate Honoured(db: Db) {
    forall e | e in db.outbox :: EventHonoured(db, e)
  }

  // ----- allocations of a decided reservation never change -----

  lemma {:induction false} RowsOfLonger(allocs: seq<Alloc>, longer: seq<Alloc>, r: Uuid)
    requires allocs <= longer && forall i | |allocs| <= i < |longer| :: longer[i].reservation != r
    ensures RowsOf(longer, r) == RowsOf(allocs, r)
    decreases |longer|
  {
    if |longer| == |allocs| {
      assert longer == allocs;
    } else {
      RowsOfLonger(allocs, longer[..|longer| - 1], r);
    }
  }

  lemma {:induction false} UnitsKept(lots: map<Uuid, Lot>, after: map<Uuid, Lot>, rows: seq<Alloc>, p: Uuid)
    requires forall a | a in rows ::
              a.stock in lots && a.stock in after && lots[a.stock].product == after[a.stock].product
    ensures ProductUnits(lots, rows, p) == ProductUnits(after, rows, p)
  {
    if rows != [] {
      assert rows[0] in rows;
      forall a | a in rows[1..] ensures a in rows {}
      UnitsKept(lots, after, rows[1..], p);
    }
  }

  lemma AllocatedKept(db: Db, after: Db, r: Uuid, p: Uuid)
    requires StockOk(db) && Grows(db, after) && r in db.bookings
    ensures Allocated(after, r, p) == Allocated(db, r, p)
  {
    hide RowsOf, ProductUnits;
    RowsOfMembers(db.allocs, r);
    RowsOfLonger(db.allocs, after.allocs, r);
    forall a | a in RowsOf(db.allocs, r)
      ensures a.stock in db.lots && a.stock in after.lots && db.lots[a.stock].product == after.lots[a.stock].product
    {
      assert AllocOk(db, a);
    }
    UnitsKept(db.lots, after.lots, RowsOf(db.allocs, r), p);
  }

  lemma OldEventHonoured(db: Db, after: Db, e: Event)
    requires StockOk(db) && TalkOk(db) && Grows(db, after) && e in db.outbox && EventHonoured(db, e)
    ensures EventHonoured(after, e)
  {
    if e.StockReserved? || e.StockShipped? {
      var i :| 0 <= i < |db.outbox| && db.outbox[i] == e;
      assert Verdict(db.outbox[i]).Some?;
      assert SameBooking(db.bookings[e.reservation], after.bookings[e.reservation]);
      hide StockOk, TalkOk, Grows, Allocated, LineUnits, EventLog.ItemUnits;
      forall p { AllocatedKept(db, after, e.reservation, p); }
    }
  }

  lemma HonouredAfter(db: Db, after: Db)
    requires StockOk(db) && TalkOk(db) && Grows(db, after) && Honoured(db)
    requires forall i | |db.outbox| <= i < |after.outbox| :: EventHonoured(after, after.outbox[i])
    ensures Honoured(after)
  {
    assert db.outbox <= after.outbox;
    hide StockOk, TalkOk, Grows, EventHonoured;
    forall e | e in after.outbox
      ensures EventHonoured(after, e)
    {
      var i :| 0 <= i < |after.outbox| && after.outbox[i] == e;
      if i < |db.outbox| {
        assert db.outbox[i] == e;
        OldEventHonoured(db, after, e);
      }
    }
  }

  // ----- what each transaction adds -----

  lemma {:induction false} InsertedUnits(lots: map<Uuid, Lot>, a: Alloc, rows: seq<Alloc>, p: Uuid)
    ensures ProductUnits(lots, InsertRow(a, rows), p) == ProductUnits(lots, [a], p) + ProductUnits(lots, rows, p)
  {
    if rows == [] || a.stock <= rows[0].stock {
      ProductUnitsAppend(lots, [a], rows, p);
    } else {
      InsertedUnits(lots, a, rows[1..], p);
      assert ([rows[0]] + InsertRow(a, rows[1..]))[1..] == InsertRow(a, rows[1..]);
    }
  }

  /** Ordering the rows of a reservation loses no units. */
  lemma {:induction false} AppendedRows(lots: map<Uuid, Lot>, allocs: seq<Alloc>, rows: seq<Alloc>, r: Uuid, p: Uuid)
    requires forall a | a in allocs :: a.reservation != r
    requires forall a | a in rows :: a.reservation == r
    ensures ProductUnits(lots, RowsOf(allocs + rows, r), p) == ProductUnits(lots, rows, p)
    decreases |rows|
  {
    if rows == [] {
      assert allocs + rows == allocs;
      RowsOfLonger([], allocs, r);
    } else {
      var init, last := rows[..|rows| - 1], rows[|rows| - 1];
      assert last in rows;
      forall a | a in init ensures a in rows {}
      AppendedRows(lots, allocs, init, r, p);
      assert (allocs + rows)[..|allocs + rows| - 1] == allocs + init;
      InsertedUnits(lots, last, RowsOf(allocs + init, r), p);
      assert rows == init + [last];
      ProductUnitsAppend(lots, init, [last], p);
    }
  }

  lemma ReservingHonours(db: Db, now: Time, r: Uuid, w: Uuid, lines: seq<Line>, expires: Time, reply: Reply<Location>)
    requires StockOk(db) && r !in db.bookings && Acceptable(db, now, w, lines, expires)
    ensures var o := Handle(db, now, ReservationRequested(r, w, lines, expires), reply);
            && o.Ok? && o.value.outbox == db.outbox + [StockReserved(r, w, lines, expires)]
            && EventHonoured(o.value, StockReserved(r, w, lines, expires))
  {
    ReserveDecides(db, now, r, w, lines, expires, reply);
    PicksAreFor(db, r, w, Today(now), lines);
    forall a | a in db.allocs ensures a.reservation != r { assert AllocOk(db, a); }
    hide StockOk, Handle, Picks, RowsOf, ProductUnits, LineUnits, Acceptable;
    var after := Handle(db, now, ReservationRequested(r, w, lines, expires), reply).value;
    var picks := Picks(db, r, w, Today(now), lines);
    forall p
      ensures Allocated(after, r, p) == LineUnits(lines, p)
    {
      AppendedRows(after.lots, db.allocs, picks, r, p);
      EventLog.SameProducts(db.lots, after.lots, picks, p);
    }
  }

  lemma ShippingHonours(db: Db, now: Time, r: Uuid, w: Uuid, s: Uuid)
    requires StockOk(db) && IsConfirmed(db.bookings, r) && Ship(db, now, r, w, s).Ok?
    ensures var after := Ship(db, now, r, w, s).value;
            && |after.outbox| > 0
            && EventHonoured(after, after.outbox[|after.outbox| - 1])
  {
    var rows := RowsOf(db.allocs, r);
    RowsAreBacked(db, r);
    ShipRowsIs(db, now, rows);
    var after := Ship(db, now, r, w, s).value;
    assert after.allocs == db.allocs && after.lots == Deducting(db.lots, rows);
    assert after.outbox[|after.outbox| - 1] == StockShipped(r, w, s, ItemsOf(db.lots, rows));
    assert after.bookings[r].shipment == Some(s);
    hide StockOk, Ship, RowsOf, ProductUnits, ItemsOf, EventLog.ItemUnits;
    forall p
      ensures Allocated(after, r, p) == EventLog.ItemUnits(ItemsOf(db.lots, rows), p)
    {
      EventLog.ItemUnitsOf(db.lots, rows, p);
      EventLog.SameProducts(db.lots, after.lots, rows, p);
    }
  }

  /** Only a confirmation or a completed shipment has to be honoured. */
  predicate Light(e: Event) {
    !e.StockReserved? && !e.StockShipped?
  }

  ghost predicate NewHonoured(db: Db, after: Db) {
    forall i | |db.outbox| <= i < |after.outbox| :: EventHonoured(after, after.outbox[i])
  }

  lemma HushedHonours(db: Db, after: Db)
    requires Hushed(db, after)
    ensures NewHonoured(db, after)
  {
    hide Allocated;
  }

  lemma AnnouncedHonours(db: Db, after: Db, r: Uuid, e: Event)
    requires Announced(db, after, r, e) && EventHonoured(after, e)
    ensures NewHonoured(db, after)
  {
    hide EventHonoured;
    forall i | |db.outbox| <= i < |after.outbox|
      ensures EventHonoured(after, after.outbox[i])
    {
      if i < |after.outbox| - 1 {
        assert Silent(after.outbox[..|after.outbox| - 1][i]);
        LightHonoured(after, after.outbox[i]);
      }
    }
  }

  lemma LightHonoured(db: Db, e: Event)
    requires Light(e)
    ensures EventHonoured(db, e)
  {
  }

  lemma ReleaseHonours(db: Db, r: Uuid, expired: bool)
    requires StockOk(db)
    ensures Release(db, r, expired).Ok? ==> NewHonoured(db, Release(db, r, expired).value)
  {
    hide StockOk, Release, EventHonoured, NewHonoured;
    ReleaseEffect(db, r, expired);
    var o := Release(db, r, expired);
    if o.Ok? {
      if o.value == db {
        assert NewHonoured(db, o.value) by { NothingNew(db); }
      } else {
        var e :| Announced(db, o.value, r, e);
        assert Light(e);
        LightHonoured(o.value, e);
        AnnouncedHonours(db, o.value, r, e);
      }
    }
  }

  lemma NothingNew(db: Db)
    ensures NewHonoured(db, db)
  {
  }

  lemma DeclinedHonours(db: Db, after: Db, r: Uuid, s: Uuid)
    requires Declined(db, after, r, s)
    ensures NewHonoured(db, after)
  {
    hide Allocated;
  }

  lemma ReserveHonours(db: Db, now: Time, e: Event, reply: Reply<Location>)
    requires StockOk(db) && e.ReservationRequested?
    ensures Handle(db, now, e, reply).Ok? ==> NewHonoured(db, Handle(db, now, e, reply).value)
  {
    var r, w, lines, expires := e.reservation, e.warehouse, e.lines, e.expires;
    hide StockOk, Handle, EventHonoured, Acceptable, Picks, Reserving, ProductUnits, LineUnits;
    if r in db.bookings {
      ReserveEffect(db, now, r, w, lines, expires, reply);
    } else {
      ReserveDecides(db, now, r, w, lines, expires, reply);
      var after := Handle(db, now, e, reply).value;
      if Acceptable(db, now, w, lines, expires) {
        ReservingHonours(db, now, r, w, lines, expires, reply);
      } else {
        LightHonoured(after, after.outbox[|db.outbox|]);
      }
    }
  }

  lemma ShipHonours(db: Db, now: Time, e: Event, reply: Reply<Location>)
    requires StockOk(db) && e.ShipmentRequested?
    ensures Handle(db, now, e, reply).Ok? ==> NewHonoured(db, Handle(db, now, e, reply).value)
  {
    var o := Handle(db, now, e, reply);
    if o.Ok? && o.value != db {
      ShipmentEffect(db, now, e, reply);
      var shipped := Ship(db, now, e.reservation, e.warehouse, e.shipment);
      hide StockOk, Ship, EventHonoured, NewHonoured, Announced, Declined, Grows;
      if exists a :: Announced(db, o.value, e.reservation, a) {
        var a :| Announced(db, o.value, e.reservation, a);
        ShippingHonours(db, now, e.reservation, e.warehouse, e.shipment);
        AnnouncedHonours(db, o.value, e.reservation, a);
      } else {
        DeclinedHonours(db, o.value, e.reservation, e.shipment);
      }
    } else {
      NothingNew(db);
    }
  }

  /** Every transaction honours what it announces. */
  lemma TransactionHonours(db: Db, t: Transaction)
    requires StockOk(db) && TalkOk(db) && Honoured(db)
    ensures Honoured(Commit(db, t))
  {
    hide StockOk, TalkOk, Honoured, Handle, Grows, Announced, Declined, ApplyChange, Receive, Release, Hushed;
    hide NewHonoured;
    TransactionEffect(db, t);
    NothingNew(db);
    match t {
      case Receiving(_, _, _, _, _) => CommandEffect(db, t); HushedHonours(db, Commit(db, t));
      case Changing(_, _, _, _, _) => CommandEffect(db, t); HushedHonours(db, Commit(db, t));
      case Consuming(now, e, reply) =>
        match e {
          case ReservationRequested(_, _, _, _) => ReserveHonours(db, now, e, reply);
          case ReservationCancellationRequested(_, _, _) => CancelHonours(db, now, e, reply);
          case ShipmentRequested(_, _, _) => ShipHonours(db, now, e, reply);
          case ProductPlacementAssigned(_, _, _, _) => PlaceHonours(db, now, e, reply);
          case _ => Ignored(db, now, e, reply);
        }
      case Expiring(r) => ReleaseHonours(db, r, true);
    }
    AllHonoured(db, Commit(db, t));
  }

  lemma AllHonoured(db: Db, after: Db)
    requires StockOk(db) && TalkOk(db) && Grows(db, after) && Honoured(db) && NewHonoured(db, after)
    ensures Honoured(after)
  {
    hide StockOk, TalkOk, Grows, EventHonoured, Honoured;
    HonouredAfter(db, after);
  }

  lemma PlaceHonours(db: Db, now: Time, e: Event, reply: Reply<Location>)
    requires e.ProductPlacementAssigned?
    ensures Handle(db, now, e, reply).Ok? ==> NewHonoured(db, Handle(db, now, e, reply).value)
  {
    hide Handle, Grows, NewHonoured, Hushed;
    PlacementEffect(db, now, e, reply);
    if Handle(db, now, e, reply).Ok? { HushedHonours(db, Handle(db, now, e, reply).value); }
  }

  lemma CancelHonours(db: Db, now: Time, e: Event, reply: Reply<Location>)
    requires StockOk(db) && e.ReservationCancellationRequested?
    ensures Handle(db, now, e, reply).Ok? ==> NewHonoured(db, Handle(db, now, e, reply).value)
  {
    hide StockOk, Release, NewHonoured;
    ReleaseHonours(db, e.reservation, false);
    var o := Handle(db, now, e, reply);
    if o.Ok? && Release(db, e.reservation, false).Err? {
      RefusalHonours(db, now, e, Release(db, e.reservation, false).error.code);
    }
  }

  lemma RefusalHonours(db: Db, now: Time, e: Event, code: Code)
    requires Relevant(e)
    ensures NewHonoured(db, Refuse(db, now, e, code))
  {
    hide Allocated;
  }
}
