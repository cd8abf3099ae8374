/** Every step of the system keeps the shipment saga in order. */
module SagaKept {
  import opened Domain
  import opened Events
  import opened InventoryRules
  import opened StockInvariant
  import opened Effects
  import opened System
  import opened Fulfilment
  import opened Saga
  import R = ReservationRules
  import S = ShipmentRules

  // ----- the inventory moves -----

  /** No reservation becomes completed and no shipment is refused. */
  ghost predicate CompletesNothing(db: Db, after: Db) {
    && (forall r | IsCompleted(after, r) :: IsCompleted(db, r))
    && (forall i | |db.outbox| <= i < |after.outbox| :: !after.outbox[i].ShipmentRejected?)
  }

  lemma HushedCompletes(db: Db, after: Db)
    requires Hushed(db, after)
    ensures CompletesNothing(db, after)
  {
  }

  lemma AnnouncedCompletes(db: Db, after: Db, r: Uuid, e: Event)
    requires Announced(db, after, r, e) && after.bookings[r].status != Completed
    ensures CompletesNothing(db, after)
  {
    forall i | |db.outbox| <= i < |after.outbox|
      ensures !after.outbox[i].ShipmentRejected?
    {
      if i < |after.outbox| - 1 { assert Silent(after.outbox[..|after.outbox| - 1][i]); }
    }
  }

  lemma ReleaseCompletes(db: Db, r: Uuid, expired: bool)
    requires StockOk(db) && Release(db, r, expired).Ok?
    ensures CompletesNothing(db, Release(db, r, expired).value)
  {
    hide StockOk, Release, Grows, CompletesNothing;
    ReleaseEffect(db, r, expired);
    var after := Release(db, r, expired).value;
    if after == db {
      NothingCompletes(db);
    } else {
      var e :| Announced(db, after, r, e);
      AnnouncedCompletes(db, after, r, e);
    }
  }

  lemma NothingCompletes(db: Db)
    ensures CompletesNothing(db, db)
  {
  }

  lemma RecallCompletes(db: Db, now: Time, e: Event, reply: Reply<Location>)
    requires StockOk(db) && e.ReservationCancellationRequested? && Handle(db, now, e, reply).Ok?
    ensures CompletesNothing(db, Handle(db, now, e, reply).value)
  {
    hide StockOk, Release;
    if Release(db, e.reservation, false).Ok? {
      ReleaseCompletes(db, e.reservation, false);
    }
  }

  lemma RequestCompletes(db: Db, now: Time, e: Event, reply: Reply<Location>)
    requires StockOk(db) && e.ReservationRequested? && Handle(db, now, e, reply).Ok?
    ensures CompletesNothing(db, Handle(db, now, e, reply).value)
  {
    hide StockOk, Handle, Grows, CompletesNothing;
    NothingCompletes(db);
    ReserveEffect(db, now, e.reservation, e.warehouse, e.lines, e.expires, reply);
    var after := Handle(db, now, e, reply).value;
    if e.reservation !in db.bookings {
      var a :| Announced(db, after, e.reservation, a);
      AnnouncedCompletes(db, after, e.reservation, a);
    }
  }

  /** Only a shipment request completes a reservation or refuses a shipment. */
  lemma OnlyRequestsComplete(db: Db, t: Transaction)
    requires StockOk(db) && !(t.Consuming? && t.event.ShipmentRequested?)
    ensures CompletesNothing(db, Commit(db, t))
  {
    hide StockOk, Handle, Release, ApplyChange, Receive, Hushed, Grows, CompletesNothing;
    NothingCompletes(db);
    match t {
      case Receiving(_, _, _, _, _) => CommandEffect(db, t); HushedCompletes(db, Commit(db, t));
      case Changing(_, _, _, _, _) => CommandEffect(db, t); HushedCompletes(db, Commit(db, t));
      case Consuming(now, e, reply) =>
        if Handle(db, now, e, reply).Ok? {
          match e {
            case ReservationRequested(_, _, _, _) => RequestCompletes(db, now, e, reply);
            case ReservationCancellationRequested(_, _, _) => RecallCompletes(db, now, e, reply);
            case ProductPlacementAssigned(_, _, _, _) =>
              PlacementEffect(db, now, e, reply);
              HushedCompletes(db, Commit(db, t));
            case _ => Ignored(db, now, e, reply);
          }
        }
      case Expiring(r) => if Release(db, r, true).Ok? { ReleaseCompletes(db, r, true); }
    }
  }

  /** The delivery that has just been processed was request `j` of the shipment service. */
  predicate FreshRequest(s: Sys, t: Sys, j: nat, id: Uuid, r: Uuid) {
    IsRequest(s.ship.outbox, j, id, r) && !Done(s, Inventory, Shipments, j) && Done(t, Inventory, Shipments, j)
  }

  ghost predicate SagaMoved(s: Sys, t: Sys) {
    && t.ship == s.ship && t.resv == s.resv && s.done <= t.done
    && Grows(s.inv, t.inv) && Honoured(t.inv)
    && (forall r | IsCompleted(t.inv, r) && !IsCompleted(s.inv, r) ::
          && t.inv.bookings[r].shipment.Some?
          && exists j: nat :: FreshRequest(s, t, j, t.inv.bookings[r].shipment.value, r))
    && (forall i | |s.inv.outbox| <= i < |t.inv.outbox| && t.inv.outbox[i].ShipmentRejected? ::
          var e := t.inv.outbox[i];
          && t.inv.bookings == s.inv.bookings
          && !ShippedBy(s.inv, e.reservation, e.shipment)
          && exists j: nat :: FreshRequest(s, t, j, e.shipment, e.reservation))
  }

  lemma CompletionsAfterMove(s: Sys, t: Sys, r: Uuid)
    requires SagaOk(s) && SagaMoved(s, t) && IsCompleted(t.inv, r)
    ensures CompletionAsked(t, r)
  {
    hide Honoured, ShipmentsOk;
    if IsCompleted(s.inv, r) {
      assert CompletionAsked(s, r) && SameBooking(s.inv.bookings[r], t.inv.bookings[r]);
    } else {
      var j: nat :| FreshRequest(s, t, j, t.inv.bookings[r].shipment.value, r);
      assert IsRequest(t.ship.outbox, j, t.inv.bookings[r].shipment.value, r);
    }
  }

  /** A refusal stays final: the only request of the shipment has been used up. */
  lemma OldRefusalFinal(s: Sys, t: Sys, e: Event)
    requires SagaOk(s) && SagaMoved(s, t) && e in s.inv.outbox
    ensures RefusalFinal(t, e)
  {
    assert RefusalFinal(s, e);
    hide Honoured, Grows, AnswersOk;
    if e.ShipmentRejected? {
      var j: nat :| IsRequest(s.ship.outbox, j, e.shipment, e.reservation) && Done(s, Inventory, Shipments, j);
      assert IsRequest(t.ship.outbox, j, e.shipment, e.reservation) && Done(t, Inventory, Shipments, j);
      if IsCompleted(t.inv, e.reservation) {
        var k: nat :| FreshRequest(s, t, k, t.inv.bookings[e.reservation].shipment.value, e.reservation);
        SameRequest(s, j, k, e.shipment, t.inv.bookings[e.reservation].shipment.value, e.reservation);
        assert false;
      }
    }
  }

  lemma NewRefusalFinal(s: Sys, t: Sys, i: nat)
    requires SagaOk(s) && SagaMoved(s, t) && |s.inv.outbox| <= i < |t.inv.outbox|
    ensures RefusalFinal(t, t.inv.outbox[i])
  {
    hide Honoured, Grows;
    var e := t.inv.outbox[i];
    if e.ShipmentRejected? {
      var j: nat :| FreshRequest(s, t, j, e.shipment, e.reservation);
      assert IsRequest(t.ship.outbox, j, e.shipment, e.reservation) && Done(t, Inventory, Shipments, j);
      if IsCompleted(s.inv, e.reservation) {
        assert CompletionAsked(s, e.reservation);
        var k: nat :| IsRequest(s.ship.outbox, k, s.inv.bookings[e.reservation].shipment.value, e.reservation);
        SameRequest(s, j, k, e.shipment, s.inv.bookings[e.reservation].shipment.value, e.reservation);
        assert false;
      }
    }
  }

  lemma AfterInventory(s: Sys, t: Sys)
    requires SagaOk(s) && SagaMoved(s, t)
    ensures SagaOk(t)
  {
    assert ShipmentsOk(t) by { ShipmentsAfterMove(s, t); }
    assert Honoured(t.inv) && s.inv.outbox <= t.inv.outbox;
    hide SagaMoved, ShipmentsOk, Honoured, RefusalFinal, CompletionAsked;
    forall r | IsCompleted(t.inv, r) ensures CompletionAsked(t, r) { CompletionsAfterMove(s, t, r); }
    forall e | e in t.inv.outbox
      ensures RefusalFinal(t, e)
    {
      var i :| 0 <= i < |t.inv.outbox| && t.inv.outbox[i] == e;
      if i < |s.inv.outbox| {
        assert s.inv.outbox[i] == e;
        OldRefusalFinal(s, t, e);
      } else {
        NewRefusalFinal(s, t, i);
      }
    }
  }

  lemma RefusedGrows(log: seq<Event>, longer: seq<Event>, id: Uuid, r: Uuid)
    requires log <= longer && TurnedDown(log, id, r)
    ensures TurnedDown(longer, id, r)
  {
    var i :| 0 <= i < |log| && log[i].ShipmentRejected? && log[i].shipment == id && log[i].reservation == r;
    assert longer[i] == log[i];
  }

  lemma ShipmentsAfterMove(s: Sys, t: Sys)
    requires ShipmentsOk(s) && Grows(s.inv, t.inv) && t.ship == s.ship && t.resv == s.resv
    ensures ShipmentsOk(t)
  {
    forall id | id in t.ship.rows
      ensures RowKnown(t, id) && StatusTrue(t, id)
    {
      var r := s.ship.rows[id].reservation;
      assert RowKnown(s, id) && StatusTrue(s, id);
      assert r in s.inv.bookings ==> SameBooking(s.inv.bookings[r], t.inv.bookings[r]);
      if s.ship.rows[id].status == Failed { RefusedGrows(s.inv.outbox, t.inv.outbox, id, r); }
    }
    forall e | e in t.ship.outbox ensures SentTrue(t, e) { assert SentTrue(s, e); }
  }

  // ----- the reservation service moves -----

  /** Rows of the reservation service keep their warehouse and their items. */
  ghost predicate FactsKept(a: R.Store, b: R.Store) {
    forall r | r in a.rows ::
        r in b.rows && b.rows[r].warehouse == a.rows[r].warehouse && b.rows[r].items == a.rows[r].items
  }

  lemma FactsStay(st: R.Store, now: Time, q: R.Input, id: Uuid, e: Event)
    ensures R.Create(st, now, q, id).Ok? ==> FactsKept(st, R.Create(st, now, q, id).value)
    ensures R.Cancel(st, id).Ok? ==> FactsKept(st, R.Cancel(st, id).value)
    ensures R.Handle(st, e).Ok? ==> FactsKept(st, R.Handle(st, e).value)
  {
  }

  /** What was shown of a reservation stays so while its row keeps its facts and the inventory its decisions. */
  lemma AnswersStayTrue(s: Sys, t: Sys)
    requires LookupsOk(s) && FactsKept(s.resv, t.resv) && Grows(s.inv, t.inv)
    requires forall a | a in t.answers && a !in s.answers :: AnswerTrue(t, a)
    ensures LookupsOk(t)
  {
    forall a | a in t.answers
      ensures AnswerTrue(t, a)
    {
      if a in s.answers {
        assert AnswerTrue(s, a);
        assert a.0 in s.inv.bookings ==> SameBooking(s.inv.bookings[a.0], t.inv.bookings[a.0]);
      }
    }
  }

  /** Neither the inventory nor the shipment service moved. */
  lemma AfterReservations(s: Sys, t: Sys)
    requires SagaOk(s) && t.inv == s.inv && t.ship == s.ship && s.done <= t.done && FactsKept(s.resv, t.resv)
    ensures SagaOk(t)
  {
    hide Honoured;
    forall id | id in t.ship.rows
      ensures RowKnown(t, id) && StatusTrue(t, id)
    {
      assert RowKnown(s, id) && StatusTrue(s, id);
    }
    forall e | e in t.ship.outbox ensures SentTrue(t, e) { assert SentTrue(s, e); }
    AnswersStay(s, t);
  }

  // ----- the shipment service moves -----

  lemma AnswersStay(s: Sys, t: Sys)
    requires AnswersOk(s) && t.inv == s.inv && s.ship.outbox <= t.ship.outbox && s.done <= t.done
    ensures AnswersOk(t)
  {
    hide Honoured;
    forall r | IsCompleted(t.inv, r)
      ensures CompletionAsked(t, r)
    {
      assert CompletionAsked(s, r);
      var j: nat :| IsRequest(s.ship.outbox, j, s.inv.bookings[r].shipment.value, r);
      assert IsRequest(t.ship.outbox, j, s.inv.bookings[r].shipment.value, r);
    }
    forall e | e in t.inv.outbox
      ensures RefusalFinal(t, e)
    {
      assert RefusalFinal(s, e);
      if e.ShipmentRejected? {
        var j: nat :| IsRequest(s.ship.outbox, j, e.shipment, e.reservation) && Done(s, Inventory, Shipments, j);
        assert IsRequest(t.ship.outbox, j, e.shipment, e.reservation) && Done(t, Inventory, Shipments, j);
      }
    }
  }

  lemma ReportedGrows(log: seq<Event>, longer: seq<Event>, id: Uuid)
    requires log <= longer && Reported(log, id)
    ensures Reported(longer, id)
  {
    var i :| 0 <= i < |log| && log[i].ShipmentCompleted? && log[i].shipment == id;
    assert longer[i] == log[i];
  }

  lemma AfterClaim(s: Sys, r: Uuid, seen: Reply<R.Reservation>, id: Uuid, t: Sys)
    requires ShipmentsOk(s) && LookupsOk(s) && Recognised(s, r, seen)
    requires var o := S.Create(s.ship, r, seen, id); o.Ok? && t == s.(ship := o.value)
    ensures ShipmentsOk(t)
  {
    assert AnswerTrue(s, (r, seen.value));
    forall x | x in t.ship.rows
      ensures RowKnown(t, x) && StatusTrue(t, x)
    {
      if x != id {
        assert RowKnown(s, x) && StatusTrue(s, x);
        if s.ship.rows[x].status == Shipped { ReportedGrows(s.ship.outbox, t.ship.outbox, x); }
      }
    }
    forall e | e in t.ship.outbox
      ensures SentTrue(t, e)
    {
      if e in s.ship.outbox { assert SentTrue(s, e); }
    }
  }
}
