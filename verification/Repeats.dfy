/** Repeating a command under a new event id: once a reservation request is decided, or a
    cancellation, a shipment or a placement has succeeded, the same command changes no
    lot, allocation, booking or ledger row, however much has happened in between. */
module Repeats {
  import opened Domain
  import opened Events
  import opened InventoryRules
  import opened StockInvariant
  import opened InventorySafety
  import opened Effects
  import Closing

  /** The tables already hold what the command asks for. */
  predicate Settled(db: Db, e: Event)
    requires Relevant(e)
  {
    match e
    case ReservationRequested(r, _, _, _) => r in db.bookings
    case ReservationCancellationRequested(r, _, _) => r in db.bookings && db.bookings[r].status != Confirmed
    case ShipmentRequested(s, _, r) =>
      r in db.bookings && db.bookings[r].status == Completed && db.bookings[r].shipment == Some(s)
    case ProductPlacementAssigned(stock, _, _, _) =>
      stock in db.lots && (db.lots[stock].location.Some? || db.lots[stock].quantity == 0)
  }

  predicate SameTables(db: Db, after: Db) {
    after == db.(outbox := after.outbox) && db.outbox <= after.outbox
  }

  lemma SettledStays(db: Db, after: Db, e: Event)
    requires Relevant(e) && Settled(db, e) && Grows(db, after)
    ensures Settled(after, e)
  {
  }

  /** A settled command is answered without touching the tables. */
  lemma SettledIsSilent(db: Db, now: Time, e: Event, reply: Reply<Location>)
    requires Relevant(e) && Settled(db, e)
    ensures Handle(db, now, e, reply).Ok? && SameTables(db, Handle(db, now, e, reply).value)
  {
    hide TakeLines, ShipRows, Charge, GiveBack;
  }

  /** A command that succeeds, and a reservation request that is refused, is settled. */
  lemma SuccessSettles(db: Db, now: Time, e: Event, reply: Reply<Location>)
    requires StockOk(db) && Relevant(e) && Handle(db, now, e, reply).Ok?
    requires e.ReservationRequested? || Decide(db, now, e, reply).Ok?
    ensures Settled(Handle(db, now, e, reply).value, e)
  {
    hide StockOk, Grows, Announced, Quietly, ShipRows, TakeLines, Charge, GiveBack;
    match e {
      case ReservationRequested(r, w, lines, expires) =>
        RequestSettles(db, now, r, w, lines, expires);
      case ReservationCancellationRequested(r, _, _) =>
      case ShipmentRequested(s, w, r) =>
        hide RowsOf, ItemsOf;
      case ProductPlacementAssigned(stock, w, l, _) =>
        PlacementSettles(db, stock, w, l, reply);
    }
  }

  lemma {:induction false} TakingKeepsBookings(db: Db, r: Uuid, offers: seq<Offer>, n: int)
    ensures var o := TakeAll(db, r, offers, n); o.Ok? ==> o.value.db.bookings == db.bookings
    decreases |offers|
  {
    if offers != [] && Min(n, offers[0].free) > 0 {
      var o := Take(db, r, offers[0].stock, Min(n, offers[0].free));
      if o.Ok? {
        TakingKeepsBookings(o.value, r, offers[1..], n - Min(n, offers[0].free));
      }
    }
  }

  lemma {:induction false} LinesKeepBookings(db: Db, r: Uuid, w: Uuid, today: int, lines: seq<Line>, seen: set<Uuid>)
    ensures var o := TakeLines(db, r, w, today, lines, seen); o.Ok? ==> o.value.bookings == db.bookings
    decreases |lines|
  {
    if lines != [] && lines[0].quantity > 0 && lines[0].product !in seen {
      var offers := Offers(EligibleLots(db, w, lines[0].product, today));
      TakingKeepsBookings(db, r, offers, lines[0].quantity);
      var taking := TakeAll(db, r, offers, lines[0].quantity);
      hide TakeAll, Offers;
      if taking.Ok? && taking.value.remaining <= 0 {
        LinesKeepBookings(taking.value.db, r, w, today, lines[1..], seen + {lines[0].product});
      }
    }
  }

  lemma RequestSettles(db: Db, now: Time, r: Uuid, w: Uuid, lines: seq<Line>, expires: Time)
    ensures var o := Reserve(db, now, r, w, lines, expires); o.Ok? ==> r in o.value.bookings
  {
    if r !in db.bookings {
      var booked := db.(bookings := db.bookings[r := Booking(w, Confirmed, expires, None)]);
      LinesKeepBookings(booked, r, w, Today(now), lines, {});
      hide TakeLines;
    }
  }

  lemma PlacementSettles(db: Db, stock: Uuid, w: Uuid, l: Uuid, reply: Reply<Location>)
    ensures var o := Place(db, stock, w, l, reply);
            o.Ok? ==> stock in o.value.lots && (o.value.lots[stock].location.Some? || o.value.lots[stock].quantity == 0)
  {
    hide Charge;
  }

  /** However many transactions come in between, the repeated command changes nothing. */
  lemma RepeatedCommand(world: map<Uuid, Site>, db: Db, now: Time, e: Event, reply: Reply<Location>,
                        ts: seq<Transaction>, later: Time, again: Reply<Location>)
    requires Sound(world, db) && HonestFor(world, db, Consuming(now, e, reply))
    requires Relevant(e) && Handle(db, now, e, reply).Ok?
    requires e.ReservationRequested? || Decide(db, now, e, reply).Ok?
    requires HonestRun(world, Commit(db, Consuming(now, e, reply)), ts)
    ensures var before := Run(Commit(db, Consuming(now, e, reply)), ts);
            Handle(before, later, e, again).Ok? && SameTables(before, Handle(before, later, e, again).value)
  {
    var first := Commit(db, Consuming(now, e, reply));
    CommitSafe(world, db, Consuming(now, e, reply));
    SuccessSettles(db, now, e, reply);
    RunGrows(world, first, ts);
    hide Grows, Sound, StockOk, Handle, Decide, Settled;
    SettledStays(first, Run(first, ts), e);
    SettledIsSilent(Run(first, ts), later, e, again);
  }

  /** A cancellation request leaves no trace at all, not even an event, exactly when its
      reservation is already closed without having been shipped. What that means for a
      shipment that waits for an answer is in `EndingRuns`. */
  lemma CancellationIsSilent(db: Db, now: Time, e: Event, reply: Reply<Location>)
    requires StockOk(db) && e.ReservationCancellationRequested?
    ensures Handle(db, now, e, reply) == Ok(db) <==>
              e.reservation in db.bookings && db.bookings[e.reservation].status in {Cancelled, ExpiredStatus, Rejected}
  {
    var r := e.reservation;
    if IsConfirmed(db.bookings, r) {
      Closing.ReleaseIs(db, r, false);
    }
    hide StockOk, RowsOf, ItemsOf, GiveBack;
    if r in db.bookings && db.bookings[r].status in {Confirmed, Completed} {
      assert |Handle(db, now, e, reply).value.outbox| == |db.outbox| + 1;
    }
  }
}
