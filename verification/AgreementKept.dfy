/** Every step of the system keeps the agreement between reservation and inventory. */
module AgreementKept {
  import opened Domain
  import opened Events
  import opened InventoryRules
  import opened StockInvariant
  import opened Effects
  import opened Talk
  import opened System
  import opened SystemLogs
  import opened Agreement
  import R = ReservationRules

  // ----- the inventory moves -----

  /** The inventory committed a transaction whose effects the reservation service can account for. */
  ghost predicate InventoryMoved(s: Sys, t: Sys) {
    && t.resv == s.resv
    && Grows(s.inv, t.inv) && TalkOk(t.inv)
    && (forall r | r in t.inv.bookings && r !in s.inv.bookings :: BookingKnown(t, r))
    && (forall i | |s.inv.outbox| <= i < |t.inv.outbox| :: ReservedAsAsked(t, t.inv.outbox[i]))
    && (forall i | 0 <= i :: Done(t, Reservations, Inventory, i) ==> Done(s, Reservations, Inventory, i))
    && (forall j | 0 <= j < |s.resv.outbox| ::
          Done(t, Inventory, Reservations, j) && !Done(s, Inventory, Reservations, j) ==> RequestTrue(t, j))
  }

  lemma ClosedStays(db: Db, after: Db, r: Uuid)
    requires Grows(db, after)
    ensures IsDecided(db, r) ==> IsDecided(after, r)
    ensures IsClosed(db, r) ==> IsClosed(after, r) && after.bookings[r] == db.bookings[r]
  {
  }

  lemma RequestsAfterMove(s: Sys, t: Sys)
    requires Typed(s) && Requests(s) && InventoryMoved(s, t)
    ensures Requests(t)
  {
    hide Grows, TalkOk;
    forall j | 0 <= j < |t.resv.outbox|
      ensures RequestTrue(t, j)
    {
      assert RequestTrue(s, j);
      assert Log(s, Reservations)[j] in Log(s, Reservations);
      ClosedStays(s.inv, t.inv, s.resv.outbox[j].reservation);
    }
    forall r | r in t.resv.rows ensures RowAsked(t, r) { assert RowAsked(s, r); }
  }

  lemma HeardAfterMove(s: Sys, t: Sys)
    requires MarksReal(s) && Heard(s) && InventoryMoved(s, t)
    ensures Heard(t)
  {
    forall r | r in t.inv.bookings
      ensures BookingKnown(t, r)
    {
      assert r in s.inv.bookings ==> BookingKnown(s, r) && SameBooking(s.inv.bookings[r], t.inv.bookings[r]);
    }
    forall r | r in t.resv.rows
      ensures LifeTrue(t, r)
    {
      assert LifeTrue(s, r);
      assert r in s.inv.bookings ==> SameBooking(s.inv.bookings[r], t.inv.bookings[r]);
    }
    forall i | 0 <= i < |t.inv.outbox|
      ensures VerdictHeard(t, i)
    {
      if i < |s.inv.outbox| {
        assert VerdictHeard(s, i) && t.inv.outbox[i] == s.inv.outbox[i];
      } else {
        assert !Done(s, Reservations, Inventory, i);
      }
    }
    forall e | e in t.inv.outbox
      ensures ReservedAsAsked(t, e)
    {
      var i :| 0 <= i < |t.inv.outbox| && t.inv.outbox[i] == e;
      if i < |s.inv.outbox| { assert s.inv.outbox[i] == e; assert ReservedAsAsked(s, e); }
    }
  }

  // ----- the reservation service moves -----

  lemma AfterBook(s: Sys, q: R.Input, id: Uuid, t: Sys)
    requires MarksReal(s) && Requests(s) && Heard(s) && TalkOk(s.inv)
    requires var o := R.Create(s.resv, s.now, q, id); o.Ok? && t == s.(resv := o.value)
    ensures Requests(t) && Heard(t)
  {
    hide TalkOk, R.Duplicate, R.Validated;
    var n := |s.resv.outbox|;
    assert t.resv.outbox[n].ReservationRequested? && t.resv.outbox[n].reservation == id;
    forall j | 0 <= j < |t.resv.outbox|
      ensures RequestTrue(t, j)
    {
      if j < n {
        assert RequestTrue(s, j) && t.resv.outbox[j] == s.resv.outbox[j];
      } else {
        assert !Done(s, Inventory, Reservations, j);
      }
    }
    forall r | r in t.resv.rows
      ensures RowAsked(t, r)
    {
      if r != id { RowStillAsked(s, t, r); }
    }
    SameHeard(s, t);
  }

  lemma RowStillAsked(s: Sys, t: Sys, r: Uuid)
    requires r in s.resv.rows && RowAsked(s, r) && s.resv.outbox <= t.resv.outbox
    ensures Asked(t.resv.outbox, r) && (s.resv.rows[r].life == R.Cancelling ==> Recalled(t.resv.outbox, r))
  {
    var j :| 0 <= j < |s.resv.outbox| && s.resv.outbox[j].ReservationRequested? && s.resv.outbox[j].reservation == r;
    assert t.resv.outbox[j] == s.resv.outbox[j];
    if s.resv.rows[r].life == R.Cancelling {
      var k :| 0 <= k < |s.resv.outbox| && s.resv.outbox[k].ReservationCancellationRequested?
          && s.resv.outbox[k].reservation == r;
      assert t.resv.outbox[k] == s.resv.outbox[k];
    }
  }

  /** Rows keep their facts, and no row forgets what it has learnt. */
  ghost predicate Remembers(s: Sys, t: Sys) {
    && t.inv == s.inv && t.done == s.done
    && (forall r | r in s.resv.rows ::
          && r in t.resv.rows
          && t.resv.rows[r].warehouse == s.resv.rows[r].warehouse
          && t.resv.rows[r].items == s.resv.rows[r].items
          && (s.resv.rows[r].life != R.Pending ==> t.resv.rows[r].life != R.Pending)
          && (R.Terminal(s.resv.rows[r].life) ==> t.resv.rows[r].life == s.resv.rows[r].life))
    && (forall r | r in t.resv.rows :: LifeTrue(t, r))
  }

  lemma RememberedHeard(s: Sys, t: Sys)
    requires Heard(s) && Remembers(s, t)
    ensures Heard(t)
  {
    forall r | r in t.inv.bookings ensures BookingKnown(t, r) { assert BookingKnown(s, r); }
    forall i | 0 <= i < |t.inv.outbox| ensures VerdictHeard(t, i) { assert VerdictHeard(s, i); }
    forall e | e in t.inv.outbox ensures ReservedAsAsked(t, e) { assert ReservedAsAsked(s, e); }
  }

  lemma SameHeard(s: Sys, t: Sys)
    requires Heard(s) && t.inv == s.inv && t.done == s.done
    requires forall r | r in s.resv.rows :: r in t.resv.rows && t.resv.rows[r] == s.resv.rows[r]
    requires forall r | r in t.resv.rows && r !in s.resv.rows :: t.resv.rows[r].life == R.Pending
    ensures Heard(t)
  {
    forall r | r in t.resv.rows ensures LifeTrue(t, r) { assert r in s.resv.rows ==> LifeTrue(s, r); }
    RememberedHeard(s, t);
  }

  lemma AfterCancel(s: Sys, id: Uuid, t: Sys)
    requires MarksReal(s) && Requests(s) && Heard(s)
    requires var o := R.Cancel(s.resv, id); o.Ok? && t == s.(resv := o.value)
    ensures Requests(t) && Heard(t)
  {
    var n := |s.resv.outbox|;
    forall j | 0 <= j < |t.resv.outbox|
      ensures RequestTrue(t, j)
    {
      if j < n {
        assert RequestTrue(s, j) && t.resv.outbox[j] == s.resv.outbox[j];
      } else {
        assert !Done(s, Inventory, Reservations, j);
      }
    }
    forall r | r in t.resv.rows
      ensures RowAsked(t, r)
    {
      RowStillAsked(s, t, r);
      if r == id && t != s {
        assert t.resv.outbox[n].ReservationCancellationRequested? && t.resv.outbox[n].reservation == r;
      }
    }
    forall r | r in t.resv.rows ensures LifeTrue(t, r) { assert LifeTrue(s, r); }
    RememberedHeard(s, t);
  }

  // ----- the reservation service consumes an event -----

  lemma ReadIsVerdict(e: Event)
    ensures R.Read(e).Some? <==> Verdict(e).Some?
    ensures R.Read(e).Some? ==> Verdict(e).value == (R.Read(e).value.reservation, R.Read(e).value.status)
  {
  }

  /** What the row has learnt is true, because the inventory speaks the truth. */
  lemma LearntTrue(s: Sys, e: Event, u: Sys)
    requires Typed(s) && TalkOk(s.inv) && Heard(s) && (exists source :: e in Log(s, source))
    requires R.Handle(s.resv, e).Ok? && u == s.(resv := R.Handle(s.resv, e).value)
    ensures Remembers(s, u)
    ensures Verdict(e).Some? ==>
              && Verdict(e).value.0 in u.resv.rows
              && u.resv.rows[Verdict(e).value.0].life != R.Pending
              && (Verdict(e).value.1 != Confirmed ==> R.Terminal(u.resv.rows[Verdict(e).value.0].life))
  {
    ReadIsVerdict(e);
    assert Truthful(s.inv);
    var source :| e in Log(s, source);
    hide Heard, Typed, TalkOk, Complete, Orderly;
    assert Emits(source, e) by { TypedOne(s, source, e); }
    forall r | r in u.resv.rows
      ensures LifeTrue(u, r)
    {
      assert LifeTrue(s, r) by { HeardOne(s, r); }
    }
  }

  lemma TypedOne(s: Sys, source: Service, e: Event)
    requires Typed(s) && e in Log(s, source)
    ensures Emits(source, e)
  {
  }

  lemma HeardOne(s: Sys, r: Uuid)
    requires Heard(s) && r in s.resv.rows
    ensures LifeTrue(s, r)
  {
  }

  lemma AfterNews(s: Sys, ref: Ref, t: Sys)
    requires MarksReal(s) && Typed(s) && TalkOk(s.inv) && Requests(s) && Heard(s)
    requires ref.index < |Log(s, ref.source)|
    requires var o := R.Handle(s.resv, Log(s, ref.source)[ref.index]);
             o.Ok? && t == s.(resv := o.value, done := s.done + {Mark(Reservations, ref)})
    ensures Requests(t) && Heard(t)
  {
    hide Remembers, Typed, TalkOk, R.Handle;
    var e := Log(s, ref.source)[ref.index];
    var u := s.(resv := t.resv);
    LearntTrue(s, e, u);
    RememberedHeard(s, u);
    LearntRequests(s, e, u);
    forall j | 0 <= j < |t.resv.outbox| ensures RequestTrue(t, j) { assert RequestTrue(u, j); }
    forall r | r in t.resv.rows ensures RowAsked(t, r) { assert RowAsked(u, r); }
    forall r | r in t.resv.rows ensures LifeTrue(t, r) { assert LifeTrue(u, r); }
    forall i | 0 <= i < |t.inv.outbox| ensures VerdictHeard(t, i) { assert VerdictHeard(u, i); }
    forall r | r in t.inv.bookings ensures BookingKnown(t, r) { assert BookingKnown(u, r); }
    forall x | x in t.inv.outbox ensures ReservedAsAsked(t, x) { assert ReservedAsAsked(u, x); }
  }

  lemma LearntRequests(s: Sys, e: Event, u: Sys)
    requires Requests(s) && R.Handle(s.resv, e).Ok? && u == s.(resv := R.Handle(s.resv, e).value)
    ensures Requests(u)
  {
    forall j | 0 <= j < |u.resv.outbox| ensures RequestTrue(u, j) { assert RequestTrue(s, j); }
    forall r | r in u.resv.rows ensures RowAsked(u, r) { assert RowAsked(s, r); }
  }

  // ----- every step -----

  /** Neither side of the agreement moved. */
  lemma Untouched(s: Sys, t: Sys)
    requires Requests(s) && Heard(s) && t.inv == s.inv && t.resv == s.resv
    requires forall i | 0 <= i :: Done(t, Reservations, Inventory, i) ==> Done(s, Reservations, Inventory, i)
    requires forall j | 0 <= j :: Done(t, Inventory, Reservations, j) ==> Done(s, Inventory, Reservations, j)
    ensures Requests(t) && Heard(t)
  {
    forall j | 0 <= j < |t.resv.outbox| ensures RequestTrue(t, j) { assert RequestTrue(s, j); }
    forall r | r in t.resv.rows ensures RowAsked(t, r) && LifeTrue(t, r) { assert RowAsked(s, r) && LifeTrue(s, r); }
    forall i | 0 <= i < |t.inv.outbox| ensures VerdictHeard(t, i) { assert VerdictHeard(s, i); }
    forall r | r in t.inv.bookings ensures BookingKnown(t, r) { assert BookingKnown(s, r); }
    forall x | x in t.inv.outbox ensures ReservedAsAsked(t, x) { assert ReservedAsAsked(s, x); }
  }

  /** A transaction that confirms nothing new is a move the reservation service can account for. */
  lemma MovedWithoutNews(s: Sys, t: Sys)
    requires Heard(s) && TalkOk(t.inv) && t.resv == s.resv && Grows(s.inv, t.inv)
    requires t.inv.bookings.Keys == s.inv.bookings.Keys
    requires Hushed(s.inv, t.inv) || (exists r, e :: Announced(s.inv, t.inv, r, e))
              || (exists r, x :: Declined(s.inv, t.inv, r, x))
    requires forall i | 0 <= i :: Done(t, Reservations, Inventory, i) ==> Done(s, Reservations, Inventory, i)
    requires forall j | 0 <= j < |s.resv.outbox| ::
               Done(t, Inventory, Reservations, j) && !Done(s, Inventory, Reservations, j) ==> RequestTrue(t, j)
    ensures InventoryMoved(s, t)
  {
    hide TalkOk, Heard, Grows;
    forall i | |s.inv.outbox| <= i < |t.inv.outbox|
      ensures ReservedAsAsked(t, t.inv.outbox[i])
    {
    }
  }

  /** A reservation request comes from the reservation service and names one of its rows. */
  lemma RequestFacts(s: Sys, ref: Ref)
    requires Agree(s) && ref.index < |Log(s, ref.source)| && Log(s, ref.source)[ref.index].ReservationRequested?
    ensures ref.source == Reservations && RequestTrue(s, ref.index)
  {
    hide TalkOk, Heard, MarksReal, RequestTrue;
    assert Log(s, ref.source)[ref.index] in Log(s, ref.source);
    TypedOne(s, ref.source, Log(s, ref.source)[ref.index]);
  }

  /** Every event added by a decided request carries the lines that were asked for. */
  lemma RequestNews(s: Sys, t: Sys, e: Event)
    requires e.ReservationRequested? && e.reservation in s.resv.rows && e.lines == s.resv.rows[e.reservation].items
    requires t.resv == s.resv
    requires exists a :: Announced(s.inv, t.inv, e.reservation, a) && (a.StockReserved? ==> a.lines == e.lines)
    ensures forall i | |s.inv.outbox| <= i < |t.inv.outbox| :: ReservedAsAsked(t, t.inv.outbox[i])
  {
    hide Legal;
    var a :| Announced(s.inv, t.inv, e.reservation, a) && (a.StockReserved? ==> a.lines == e.lines);
    forall i | |s.inv.outbox| <= i < |t.inv.outbox|
      ensures ReservedAsAsked(t, t.inv.outbox[i])
    {
      if i < |t.inv.outbox| - 1 { assert Silent(t.inv.outbox[..|t.inv.outbox| - 1][i]); }
    }
  }

  /** The only new booking of an announcement is the announced one. */
  lemma OnlyAnnounced(db: Db, after: Db, r: Uuid)
    requires exists a :: Announced(db, after, r, a)
    ensures after.bookings.Keys == db.bookings.Keys + {r}
  {
    hide Legal, Quietly;
  }

  /** The consumer's marker of this delivery is the only new one. */
  lemma OnlyMarked(s: Sys, ref: Ref, t: Sys)
    requires t.done == s.done + {Mark(Inventory, ref)}
    ensures forall i | 0 <= i :: Done(t, Reservations, Inventory, i) ==> Done(s, Reservations, Inventory, i)
    ensures forall j | 0 <= j :: Done(t, Inventory, Reservations, j) && !Done(s, Inventory, Reservations, j) ==>
              ref == Ref(Reservations, j)
  {
  }

  lemma AfterRequest(s: Sys, ref: Ref, reply: Reply<Location>, t: Sys)
    requires Agree(s) && StockOk(s.inv) && ref.index < |Log(s, ref.source)|
    requires var e := Log(s, ref.source)[ref.index];
             && e.ReservationRequested?
             && var o := InventoryRules.Handle(s.inv, s.now, e, reply);
                o.Ok? && t == s.(inv := o.value, done := s.done + {Mark(Inventory, ref)})
    requires TalkOk(t.inv)
    ensures InventoryMoved(s, t)
  {
    hide Agree, StockOk, InventoryRules.Handle, TalkOk, Grows, Announced, ReservedAsAsked;
    var e := Log(s, ref.source)[ref.index];
    RequestFacts(s, ref);
    ReserveEffect(s.inv, s.now, e.reservation, e.warehouse, e.lines, e.expires, reply);
    OnlyMarked(s, ref, t);
    if e.reservation !in s.inv.bookings {
      OnlyAnnounced(s.inv, t.inv, e.reservation);
      RequestNews(s, t, e);
    }
  }

  lemma RecallMarked(s: Sys, ref: Ref, t: Sys, j: nat)
    requires Agree(s) && j < |s.resv.outbox| && ref == Ref(Reservations, j) && t.resv == s.resv
    requires var e := s.resv.outbox[j];
             !e.ReservationRequested? && (e.ReservationCancellationRequested? ==> IsClosed(t.inv, e.reservation))
    ensures RequestTrue(t, j)
  {
    hide TalkOk, Heard, MarksReal, Typed;
    assert RequestTrue(s, j);
  }

  lemma AfterRecall(s: Sys, ref: Ref, reply: Reply<Location>, t: Sys)
    requires Agree(s) && StockOk(s.inv) && ref.index < |Log(s, ref.source)|
    requires var e := Log(s, ref.source)[ref.index];
             && !e.ReservationRequested?
             && var o := InventoryRules.Handle(s.inv, s.now, e, reply);
                o.Ok? && t == s.(inv := o.value, done := s.done + {Mark(Inventory, ref)})
    requires TalkOk(t.inv)
    ensures InventoryMoved(s, t)
  {
    assert Heard(s);
    hide Agree, Heard, StockOk, InventoryRules.Handle, TalkOk, Grows, Announced, Declined, Hushed, RequestTrue;
    hide IsClosed;
    HandledEffect(s.inv, s.now, Log(s, ref.source)[ref.index], reply);
    OnlyMarked(s, ref, t);
    forall j | 0 <= j < |s.resv.outbox| && Done(t, Inventory, Reservations, j) && !Done(s, Inventory, Reservations, j)
      ensures RequestTrue(t, j)
    {
      RecallMarked(s, ref, t, j);
    }
    MovedWithoutNews(s, t);
  }

  /** Handling anything but a reservation request adds no booking. */
  lemma HandledEffect(db: Db, now: Time, e: Event, reply: Reply<Location>)
    requires StockOk(db) && !e.ReservationRequested?
    ensures var o := InventoryRules.Handle(db, now, e, reply);
            o.Ok? ==>
              && Grows(db, o.value) && o.value.bookings.Keys == db.bookings.Keys
              && (Hushed(db, o.value) || (exists r, a :: Announced(db, o.value, r, a))
                  || (exists r, s :: Declined(db, o.value, r, s)))
              && (e.ReservationCancellationRequested? ==> IsClosed(o.value, e.reservation))
  {
    hide StockOk, InventoryRules.Handle;
    GrowsReflexive(db);
    match e
    case ReservationCancellationRequested(_, _, _) => CancellationEffect(db, now, e, reply);
    case ShipmentRequested(_, _, _) => ShipmentEffect(db, now, e, reply);
    case ProductPlacementAssigned(_, _, _, _) => PlacementEffect(db, now, e, reply);
    case _ => Ignored(db, now, e, reply);
  }
}
