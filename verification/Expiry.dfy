/** The expiry worker: every pass scans at most a hundred overdue confirmed reservations
    and closes each in a transaction of its own, while other transactions of the service
    go on in between. */
module Expiry {
  import opened Domain
  import opened Counting
  import opened Events
  import opened InventoryRules
  import opened StockInvariant
  import opened InventorySafety
  import opened Effects
  import opened Closing
  import AgreementRuns
  import Repeats
  import System

  const BATCH := 100

  function Overdue(db: Db, now: Time): set<Uuid> {
    set r | r in db.bookings && db.bookings[r].status == Confirmed && db.bookings[r].expires <= now
  }

  function Members(batch: seq<Uuid>): set<Uuid> {
    set r: Uuid | r in batch
  }

  ghost predicate Scans(db: Db, now: Time, batch: seq<Uuid>) {
    && (forall i, k | 0 <= i < k < |batch| :: batch[i] != batch[k])
    && (forall r | r in batch :: r in Overdue(db, now))
    && |batch| == if |Overdue(db, now)| < BATCH then |Overdue(db, now)| else BATCH
  }

  /** Everything but a new reservation. */
  predicate Calm(t: Transaction) {
    !(t.Consuming? && t.event.ReservationRequested?)
  }

  /** What is committed from one scan to the next: each scanned reservation is expired at
      some point, and cancellations, shipments, placements and commands come in between. */
  datatype Pass = Pass(now: Time, batch: seq<Uuid>, ts: seq<Transaction>)

  ghost predicate Ordinary(world: map<Uuid, Site>, db: Db, p: Pass) {
    && Scans(db, p.now, p.batch)
    && HonestRun(world, db, p.ts)
    && (forall t | t in p.ts :: Calm(t))
    && (forall r | r in p.batch :: Expiring(r) in p.ts)
  }

  ghost predicate OrdinaryRun(world: map<Uuid, Site>, db: Db, ps: seq<Pass>, first: Time, last: Time)
    decreases |ps|
  {
    ps == []
    || (first <= ps[0].now <= last && Ordinary(world, db, ps[0])
        && OrdinaryRun(world, Run(db, ps[0].ts), ps[1..], first, last))
  }

  function After(db: Db, ps: seq<Pass>): Db
    decreases |ps|
  {
    if ps == [] then db else After(Run(db, ps[0].ts), ps[1..])
  }

  // ----- one transaction -----

  /** Without a new reservation no booking becomes confirmed. */
  lemma CalmConfirmsNothing(db: Db, t: Transaction)
    requires StockOk(db) && Calm(t)
    ensures forall r | IsConfirmed(Commit(db, t).bookings, r) ::
              r in db.bookings && Commit(db, t).bookings[r] == db.bookings[r]
  {
    hide StockOk, Handle, Grows, Release, ApplyChange, Receive, Announced;
    match t
    case Receiving(_, _, _, _, _) => CommandEffect(db, t);
    case Changing(_, _, _, _, _) => CommandEffect(db, t);
    case Expiring(r) => ReleaseTouches(db, r, true);
    case Consuming(now, e, reply) =>
      if !Relevant(e) {
        Ignored(db, now, e, reply);
      } else {
        match e {
          case ReservationCancellationRequested(r, _, _) => CancelTouches(db, now, e, reply);
          case ShipmentRequested(s, w, r) => ShipTouches(db, now, e, reply);
          case ProductPlacementAssigned(_, _, _, _) => PlacementEffect(db, now, e, reply);
        }
      }
  }

  /** Only the named booking changes, and it is closed. */
  predicate Touches(db: Db, after: Db, r: Uuid) {
    after.bookings == db.bookings
    || (r in after.bookings && after.bookings == db.bookings[r := after.bookings[r]]
        && after.bookings[r].status != Confirmed)
  }

  lemma ReleaseTouches(db: Db, r: Uuid, expired: bool)
    requires StockOk(db)
    ensures Release(db, r, expired).Ok? ==> Touches(db, Release(db, r, expired).value, r)
    ensures IsConfirmed(db.bookings, r) ==>
              Release(db, r, expired).Ok? && !IsConfirmed(Release(db, r, expired).value.bookings, r)
  {
    if IsConfirmed(db.bookings, r) {
      ReleaseIs(db, r, expired);
      hide RowsOf, Releasing, ItemsOf, StockOk, Release;
    }
  }

  lemma CancelTouches(db: Db, now: Time, e: Event, reply: Reply<Location>)
    requires StockOk(db) && e.ReservationCancellationRequested?
    ensures Handle(db, now, e, reply).Ok? ==> Touches(db, Handle(db, now, e, reply).value, e.reservation)
    ensures Handle(db, now, e, reply).Ok? ==>
              && e.reservation in db.bookings
              && (|| Handle(db, now, e, reply).value.bookings[e.reservation].status != ExpiredStatus
                  || Handle(db, now, e, reply).value.bookings == db.bookings)
  {
    ReleaseTouches(db, e.reservation, false);
    CancelsNotExpires(db, e.reservation);
    hide Release;
  }

  lemma CancelsNotExpires(db: Db, r: Uuid)
    requires StockOk(db)
    ensures var o := Release(db, r, false);
            && (r !in db.bookings ==> o == Err(Broken(NotYetProcessed)))
            && (o.Ok? ==> r in o.value.bookings
                          && (o.value.bookings[r].status != ExpiredStatus || o.value.bookings == db.bookings))
  {
    if IsConfirmed(db.bookings, r) {
      ReleaseIs(db, r, false);
      hide RowsOf, Releasing, ItemsOf, StockOk, Release;
    }
  }

  lemma ShipTouches(db: Db, now: Time, e: Event, reply: Reply<Location>)
    requires StockOk(db) && e.ShipmentRequested?
    ensures var o := Handle(db, now, e, reply);
            o.Ok? ==> Touches(db, o.value, e.reservation)
                      && (o.value.bookings == db.bookings || o.value.bookings[e.reservation].status == Completed)
  {
    hide RowsOf, ItemsOf, ShipRows, StockOk, Backed, Deducting;
    var r := e.reservation;
    if IsConfirmed(db.bookings, r) {
      RowsAreBacked(db, r);
      ShipRowsIs(db, now, RowsOf(db.allocs, r));
    }
  }

  lemma CalmKeepsOverdue(db: Db, t: Transaction, now: Time)
    requires StockOk(db) && Calm(t)
    ensures Overdue(Commit(db, t), now) <= Overdue(db, now)
    ensures t.Expiring? ==> t.reservation !in Overdue(Commit(db, t), now)
  {
    CalmConfirmsNothing(db, t);
    if t.Expiring? {
      ReleaseTouches(db, t.reservation, true);
    }
    hide StockOk, Handle, Release, ApplyChange, Receive;
  }

  // ----- one pass -----

  lemma {:induction false} CalmRun(world: map<Uuid, Site>, db: Db, ts: seq<Transaction>, now: Time)
    requires Sound(world, db) && HonestRun(world, db, ts) && forall t | t in ts :: Calm(t)
    ensures Overdue(Run(db, ts), now) <= Overdue(db, now)
    ensures forall r | Expiring(r) in ts :: r !in Overdue(Run(db, ts), now)
    ensures Sound(world, Run(db, ts))
    decreases |ts|
  {
    if ts != [] {
      CommitSafe(world, db, ts[0]);
      CalmKeepsOverdue(db, ts[0], now);
      hide Sound, StockOk, Commit, Overdue;
      CalmRun(world, Commit(db, ts[0]), ts[1..], now);
      forall r | Expiring(r) in ts ensures r !in Overdue(Run(db, ts), now) {
        if ts[0] != Expiring(r) { assert Expiring(r) in ts[1..]; }
      }
    }
  }

  /** A full batch takes a hundred off the overdue reservations; a smaller one leaves none
      that was due when it was scanned. */
  lemma PassDrains(world: map<Uuid, Site>, db: Db, p: Pass, first: Time, last: Time)
    requires Sound(world, db) && Ordinary(world, db, p) && first <= p.now <= last
    ensures var after := Run(db, p.ts);
            && Sound(world, after)
            && Overdue(after, first) <= Overdue(db, first)
            && (Overdue(after, first) == {} || |Overdue(after, last)| + 100 <= |Overdue(db, last)|)
  {
    var after := Run(db, p.ts);
    hide Sound, Run;
    CalmRun(world, db, p.ts, first);
    CalmRun(world, db, p.ts, last);
    CalmRun(world, db, p.ts, p.now);
    var taken := Members(p.batch);
    DistinctCount(p.batch);
    assert Overdue(db, first) <= Overdue(db, p.now) <= Overdue(db, last);
    assert taken <= Overdue(db, p.now);
    if |Overdue(db, p.now)| < BATCH {
      SameSize(taken, Overdue(db, p.now));
    } else {
      assert Overdue(after, last) <= Overdue(db, last) - taken;
      SubsetSize(Overdue(after, last), Overdue(db, last) - taken);
    }
  }

  lemma SubsetSize(a: set<Uuid>, b: set<Uuid>)
    requires a <= b
    ensures |a| <= |b|
  {
    assert b == a + (b - a);
  }

  lemma SameSize(a: set<Uuid>, b: set<Uuid>)
    requires a <= b && |a| == |b|
    ensures a == b
  {
    assert b == a + (b - a);
  }

  /** A scan that is not full has found everything. */
  lemma ShortScan(db: Db, now: Time, batch: seq<Uuid>)
    requires Scans(db, now, batch)
    ensures |batch| <= 100
    ensures |batch| < 100 ==> forall r | r in Overdue(db, now) :: r in batch
  {
    DistinctCount(batch);
    assert Members(batch) <= Overdue(db, now);
    if |batch| < BATCH {
      SameSize(Members(batch), Overdue(db, now));
      assert forall r :: r in Members(batch) <==> r in batch;
    }
  }

  // ----- the drain -----

  /** Nothing is overdue when every confirmed reservation has time left. */
  lemma DrainedMeans(db: Db, now: Time)
    ensures Overdue(db, now) == {} <==> forall r | IsConfirmed(db.bookings, r) :: now < db.bookings[r].expires
    ensures forall r :: r in Overdue(db, now) <==> IsConfirmed(db.bookings, r) && db.bookings[r].expires <= now
  {
    assert Overdue(db, now) == {} <==> forall r | IsConfirmed(db.bookings, r) :: r !in Overdue(db, now);
  }

  /** Let `n` reservations be overdue when the last of several passes scans. After at least
      n / 100 passes every reservation that was overdue at the first is closed, whatever
      cancellations, shipments and commands come in between. */
  lemma {:induction false} ExpiryDrains(world: map<Uuid, Site>, db: Db, ps: seq<Pass>, first: Time, last: Time)
    requires Sound(world, db) && OrdinaryRun(world, db, ps, first, last) && first <= last
    requires |Overdue(db, last)| <= 100 * |ps|
    ensures Overdue(After(db, ps), first) == {}
    ensures forall r | IsConfirmed(After(db, ps).bookings, r) :: first < After(db, ps).bookings[r].expires
    decreases |ps|
  {
    DrainedMeans(After(db, ps), first);
    if ps == [] {
      SubsetSize(Overdue(db, first), Overdue(db, last));
    } else {
      var next := Run(db, ps[0].ts);
      PassDrains(world, db, ps[0], first, last);
      hide Sound, Run, Overdue, Ordinary;
      if Overdue(next, first) == {} {
        StaysDrained(world, next, ps[1..], first, last);
      } else {
        ExpiryDrains(world, next, ps[1..], first, last);
      }
    }
  }

  lemma {:induction false} StaysDrained(world: map<Uuid, Site>, db: Db, ps: seq<Pass>, first: Time, last: Time)
    requires Sound(world, db) && OrdinaryRun(world, db, ps, first, last) && Overdue(db, first) == {}
    ensures Overdue(After(db, ps), first) == {}
    decreases |ps|
  {
    if ps != [] {
      PassDrains(world, db, ps[0], first, last);
      hide Sound, Run, Overdue, Ordinary;
      StaysDrained(world, Run(db, ps[0].ts), ps[1..], first, last);
    }
  }

  // ----- only what is due expires -----

  /** No transaction but the worker's makes a booking expired. */
  lemma OnlyTheWorkerExpires(db: Db, t: Transaction)
    requires StockOk(db) && !t.Expiring?
    ensures forall r | r in Commit(db, t).bookings && Commit(db, t).bookings[r].status == ExpiredStatus ::
              r in db.bookings && db.bookings[r] == Commit(db, t).bookings[r]
  {
    hide StockOk, Handle, Grows, ApplyChange, Receive, Announced;
    match t
    case Receiving(_, _, _, _, _) => CommandEffect(db, t);
    case Changing(_, _, _, _, _) => CommandEffect(db, t);
    case Consuming(now, e, reply) =>
      if !Relevant(e) {
        Ignored(db, now, e, reply);
      } else {
        match e {
          case ReservationRequested(_, _, _, _) => RequestAddsOne(db, now, e, reply);
          case ReservationCancellationRequested(r, _, _) => CancelTouches(db, now, e, reply);
          case ShipmentRequested(s, w, r) => ShipTouches(db, now, e, reply);
          case ProductPlacementAssigned(_, _, _, _) => PlacementEffect(db, now, e, reply);
        }
      }
  }

  lemma RequestAddsOne(db: Db, now: Time, e: Event, reply: Reply<Location>)
    requires e.ReservationRequested?
    ensures var o := Handle(db, now, e, reply);
            o.Ok? ==> o.value.bookings == db.bookings
                      || (e.reservation in o.value.bookings
                          && o.value.bookings == db.bookings[e.reservation := o.value.bookings[e.reservation]]
                          && o.value.bookings[e.reservation].status in {Confirmed, Rejected})
  {
    if e.reservation !in db.bookings {
      var booked := db.(bookings := db.bookings[e.reservation := Booking(e.warehouse, Confirmed, e.expires, None)]);
      Repeats.LinesKeepBookings(booked, e.reservation, e.warehouse, Today(now), e.lines, {});
      hide TakeLines;
    }
  }

  ghost predicate ExpiredAreDue(s: System.Sys) {
    forall r | r in s.inv.bookings && s.inv.bookings[r].status == ExpiredStatus :: s.inv.bookings[r].expires <= s.now
  }

  /** In the whole system a reservation becomes expired only after its expiry. */
  lemma ExpiredOnlyWhenDue(world: map<Uuid, Site>, s: System.Sys, a: System.Step)
    requires StockOk(s.inv) && ExpiredAreDue(s)
    ensures ExpiredAreDue(System.Next(world, s, a))
  {
    hide StockOk, Commit;
    match a
    case Command(t) => if System.Proper(world, s, t) { OnlyTheWorkerExpires(s.inv, t); }
    case Expire(r) => ExpireTouches(s.inv, r);
    case Deliver(consumer, ref, reply) =>
      if consumer == System.Inventory && ref.index < |System.Log(s, ref.source)| {
        var e := System.Log(s, ref.source)[ref.index];
        OnlyTheWorkerExpires(s.inv, Consuming(s.now, e, reply));
        assert Commit(s.inv, Consuming(s.now, e, reply)) ==
          (match Handle(s.inv, s.now, e, reply) case Ok(db) => db case Err(_) => s.inv)
              by { CommitIsHandle(s.inv, s.now, e, reply); }
      }
      hide Handle;
    case _ =>
  }

  lemma CommitIsHandle(db: Db, now: Time, e: Event, reply: Reply<Location>)
    ensures Commit(db, Consuming(now, e, reply)) == match Handle(db, now, e, reply) case Ok(x) => x case Err(_) => db
  {
    hide Handle;
  }

  lemma ExpireTouches(db: Db, r: Uuid)
    requires StockOk(db)
    ensures Touches(db, Commit(db, Expiring(r)), r)
    ensures r in db.bookings ==>
              r in Commit(db, Expiring(r)).bookings && Commit(db, Expiring(r)).bookings[r].expires
              == db.bookings[r].expires
  {
    ReleaseTouches(db, r, true);
    if IsConfirmed(db.bookings, r) {
      ReleaseIs(db, r, true);
    }
    hide StockOk, RowsOf, Releasing, ItemsOf;
  }

  lemma {:induction false} RunExpires(world: map<Uuid, Site>, s: System.Sys, steps: seq<System.Step>)
    requires AgreementRuns.Good(world, s) && ExpiredAreDue(s)
    ensures ExpiredAreDue(System.Run(world, s, steps))
    decreases |steps|
  {
    assert StockOk(s.inv);
    hide AgreementRuns.Good, System.Next, StockOk, ExpiredAreDue;
    if steps != [] {
      ExpiredOnlyWhenDue(world, s, steps[0]);
      AgreementRuns.GoodNext(world, s, steps[0]);
      RunExpires(world, System.Next(world, s, steps[0]), steps[1..]);
    }
  }

  /** In every reachable state of the system, an expired reservation is past the expiry it
      was requested with. */
  lemma OnlyDueReservationsExpire(world: map<Uuid, Site>, now: Time, steps: seq<System.Step>)
    ensures ExpiredAreDue(System.Run(world, System.Empty(world, now), steps))
  {
    AgreementRuns.EmptyAgrees(world, now);
    RunExpires(world, System.Empty(world, now), steps);
  }
}
