/** The shipment saga against the inventory: what the status of a shipment says about
    the reservation it ships, in every reachable state. */
module Saga {
  import opened Domain
  import opened Events
  import opened InventoryRules
  import opened Effects
  import opened Talk
  import opened System
  import opened Fulfilment
  import opened ReserveDecision
  import opened Agreement
  import EventLog
  import R = ReservationRules
  import S = ShipmentRules

  /** Statuses from which a shipment has not yet asked the inventory to ship. */
  predicate Unsent(status: ShipmentStatus) {
    status == Reserved || status == PickingGoods || status == Packed || status == ReadyForShipment
  }

  /** The shipment has asked the inventory to ship the reservation. */
  predicate IsRequest(log: seq<Event>, j: nat, id: Uuid, r: Uuid) {
    j < |log| && log[j].ShipmentRequested? && log[j].shipment == id && log[j].reservation == r
  }

  predicate ShippedBy(db: Db, r: Uuid, id: Uuid) {
    r in db.bookings && db.bookings[r].status == Completed && db.bookings[r].shipment == Some(id)
  }

  predicate IsCompleted(db: Db, r: Uuid) {
    r in db.bookings && db.bookings[r].status == Completed
  }

  ghost predicate TurnedDown(log: seq<Event>, id: Uuid, r: Uuid) {
    exists i | 0 <= i < |log| :: log[i].ShipmentRejected? && log[i].shipment == id && log[i].reservation == r
  }

  ghost predicate Reported(log: seq<Event>, id: Uuid) {
    exists i | 0 <= i < |log| :: log[i].ShipmentCompleted? && log[i].shipment == id
  }

  // ----- the invariant -----

  /** What the row of a shipment says about the reservation service. */
  ghost predicate RowKnown(s: Sys, id: Uuid)
    requires id in s.ship.rows
  {
    var x := s.ship.rows[id];
    && x.reservation in s.resv.rows
    && x.warehouse == s.resv.rows[x.reservation].warehouse
    && x.items == s.resv.rows[x.reservation].items
  }

  /** What the status of a shipment says about the inventory. */
  ghost predicate StatusTrue(s: Sys, id: Uuid)
    requires id in s.ship.rows
  {
    var x := s.ship.rows[id];
    && (x.status == Shipped ==> ShippedBy(s.inv, x.reservation, id) && Reported(s.ship.outbox, id))
    && (x.status == ShipmentCancelled ==>
          x.reservation in s.inv.bookings && s.inv.bookings[x.reservation].status in {Cancelled, ExpiredStatus})
    && (x.status == Failed ==> TurnedDown(s.inv.outbox, id, x.reservation))
  }

  ghost predicate OnePerReservation(rows: map<Uuid, S.Shipment>) {
    forall a, b | a in rows && b in rows && rows[a].reservation == rows[b].reservation :: a == b
  }

  /** What an event of the shipment service says about its row. */
  ghost predicate SentTrue(s: Sys, e: Event) {
    && (e.ShipmentRequested? ==>
          && e.shipment in s.ship.rows
          && e.reservation == s.ship.rows[e.shipment].reservation
          && e.warehouse == s.ship.rows[e.shipment].warehouse
          && !Unsent(s.ship.rows[e.shipment].status))
    && (e.ShipmentCompleted? ==> e.shipment in s.ship.rows && s.ship.rows[e.shipment].status == Shipped)
    && (e.ReservationCancellationRequested? ==>
          e.reservation in s.resv.rows && e.warehouse == s.resv.rows[e.reservation].warehouse)
  }

  predicate SameSubject(a: Event, b: Event) {
    || (a.ShipmentRequested? && b.ShipmentRequested? && a.shipment == b.shipment)
    || (a.ShipmentCompleted? && b.ShipmentCompleted? && a.shipment == b.shipment)
  }

  ghost predicate SentOnce(log: seq<Event>) {
    forall i, k | 0 <= i < k < |log| :: !SameSubject(log[i], log[k])
  }

  ghost predicate ShipmentsOk(s: Sys) {
    && OnePerReservation(s.ship.rows)
    && (forall id | id in s.ship.rows :: RowKnown(s, id) && StatusTrue(s, id))
    && (forall e | e in s.ship.outbox :: SentTrue(s, e))
    && SentOnce(s.ship.outbox)
  }

  /** A completed reservation was completed by the shipment that asked for it. */
  ghost predicate CompletionAsked(s: Sys, r: Uuid)
    requires IsCompleted(s.inv, r)
  {
    && s.inv.bookings[r].shipment.Some?
    && exists j: nat :: IsRequest(s.ship.outbox, j, s.inv.bookings[r].shipment.value, r)
  }

  /** A refused shipment has used up its only request, and nobody else may complete the reservation. */
  ghost predicate RefusalFinal(s: Sys, e: Event) {
    e.ShipmentRejected? ==>
      && !IsCompleted(s.inv, e.reservation)
      && exists j: nat :: IsRequest(s.ship.outbox, j, e.shipment, e.reservation) && Done(s, Inventory, Shipments, j)
  }

  ghost predicate AnswersOk(s: Sys) {
    && (forall r | IsCompleted(s.inv, r) :: CompletionAsked(s, r))
    && (forall e | e in s.inv.outbox :: RefusalFinal(s, e))
    && Honoured(s.inv)
  }

  ghost predicate SagaOk(s: Sys) {
    ShipmentsOk(s) && AnswersOk(s)
  }

  /** What a lookup has shown of a reservation is still so, except for its life. */
  ghost predicate AnswerTrue(s: Sys, a: (Uuid, R.Reservation)) {
    && a.0 in s.resv.rows
    && a.1.warehouse == s.resv.rows[a.0].warehouse
    && a.1.items == s.resv.rows[a.0].items
    && (a.1.life == R.Known(Confirmed) ==> WasConfirmed(s.inv, a.0))
  }

  predicate WasConfirmed(db: Db, r: Uuid) {
    r in db.bookings && db.bookings[r].status != Rejected
  }

  ghost predicate LookupsOk(s: Sys) {
    forall a | a in s.answers :: AnswerTrue(s, a)
  }

  // ----- what the invariant means -----

  /** A request for a reservation was made by the only shipment of that reservation. */
  lemma RequestOf(s: Sys, j: nat, id: Uuid, r: Uuid)
    requires ShipmentsOk(s) && IsRequest(s.ship.outbox, j, id, r)
    ensures id in s.ship.rows && s.ship.rows[id].reservation == r && !Unsent(s.ship.rows[id].status)
  {
    assert s.ship.outbox[j] in s.ship.outbox;
    assert SentTrue(s, s.ship.outbox[j]);
  }

  lemma SameRequest(s: Sys, j: nat, k: nat, a: Uuid, b: Uuid, r: Uuid)
    requires ShipmentsOk(s) && IsRequest(s.ship.outbox, j, a, r) && IsRequest(s.ship.outbox, k, b, r)
    ensures a == b && j == k
  {
    RequestOf(s, j, a, r);
    RequestOf(s, k, b, r);
    assert SameSubject(s.ship.outbox[j], s.ship.outbox[k]) && SameSubject(s.ship.outbox[k], s.ship.outbox[j]);
  }

  /** A failed shipment was refused, so its reservation is not completed. */
  lemma FailedIsFinal(s: Sys, id: Uuid)
    requires SagaOk(s) && id in s.ship.rows && s.ship.rows[id].status == Failed
    ensures !IsCompleted(s.inv, s.ship.rows[id].reservation)
  {
    RefusedIsFinal(s, id, s.ship.rows[id].reservation) by { assert StatusTrue(s, id); }
  }

  lemma RefusedIsFinal(s: Sys, id: Uuid, r: Uuid)
    requires AnswersOk(s) && TurnedDown(s.inv.outbox, id, r)
    ensures !IsCompleted(s.inv, r)
  {
    var i :| 0 <= i < |s.inv.outbox| && s.inv.outbox[i].ShipmentRejected? && s.inv.outbox[i].shipment == id
             && s.inv.outbox[i].reservation == r;
    assert RefusalFinal(s, s.inv.outbox[i]);
  }

  /** The inventory event that shipped the reservation. */
  predicate IsShippedEvent(log: seq<Event>, i: nat, r: Uuid) {
    i < |log| && log[i].StockShipped? && log[i].reservation == r
  }

  /** The one event of the inventory that shipped reservation `r`: it names the shipment
      and deducts for every product exactly the requested lines. */
  ghost predicate DeductedOnce(log: seq<Event>, r: Uuid, id: Uuid, lines: seq<Line>) {
    && (exists i: nat :: IsShippedEvent(log, i, r)
          && log[i].shipment == id
          && forall p :: EventLog.ItemUnits(log[i].items, p) == LineUnits(lines, p))
    && (forall i: nat, k: nat | IsShippedEvent(log, i, r) && IsShippedEvent(log, k, r) :: i == k)
  }

  lemma OneShippedEvent(db: Db, r: Uuid)
    requires TalkOk(db)
    ensures forall i: nat, k: nat | IsShippedEvent(db.outbox, i, r) && IsShippedEvent(db.outbox, k, r) :: i == k
  {
    forall i: nat, k: nat | IsShippedEvent(db.outbox, i, r) && IsShippedEvent(db.outbox, k, r)
      ensures i == k
    {
      assert Verdict(db.outbox[i]).Some? && Verdict(db.outbox[k]).Some?;
    }
  }

  /** The two events that a completed reservation has caused. */
  lemma CompletedStory(db: Db, r: Uuid) returns (i: nat, k: nat)
    requires TalkOk(db) && IsCompleted(db, r)
    ensures IsShippedEvent(db.outbox, i, r)
    ensures k < |db.outbox| && db.outbox[k].StockReserved? && db.outbox[k].reservation == r
  {
    hide Truthful, Orderly;
    i :| 0 <= i < |db.outbox| && Verdict(db.outbox[i]) == Some((r, Completed));
    k :| 0 <= k < |db.outbox| && Verdict(db.outbox[k]) == Some((r, Confirmed));
  }

  /** What the inventory announced it had reserved is what it deducted. */
  lemma ReservedIsShipped(db: Db, a: Event, b: Event)
    requires Honoured(db) && a in db.outbox && b in db.outbox
    requires a.StockReserved? && b.StockShipped? && a.reservation == b.reservation
    ensures forall p :: EventLog.ItemUnits(b.items, p) == LineUnits(a.lines, p)
    ensures db.bookings.Keys >= {b.reservation} && db.bookings[b.reservation].shipment == Some(b.shipment)
  {
    hide Allocated, LineUnits, EventLog.ItemUnits;
    assert EventHonoured(db, a) && EventHonoured(db, b);
  }

  /** A shipped shipment: its reservation was completed by it, in one event, which
      deducts for every product exactly what the shipment asked for. */
  lemma ShippedIsDeducted(s: Sys, id: Uuid)
    requires Agree(s) && SagaOk(s) && id in s.ship.rows && s.ship.rows[id].status == Shipped
    ensures var x := s.ship.rows[id];
            ShippedBy(s.inv, x.reservation, id) && DeductedOnce(s.inv.outbox, x.reservation, id, x.items)
  {
    var x := s.ship.rows[id];
    assert StatusTrue(s, id) && RowKnown(s, id) && Honoured(s.inv);
    assert TalkOk(s.inv);
    hide Agree, TalkOk, SagaOk, Honoured, LineUnits, EventLog.ItemUnits;
    var i, k := CompletedStory(s.inv, x.reservation);
    OneShippedEvent(s.inv, x.reservation);
    ReservedIsShipped(s.inv, s.inv.outbox[k], s.inv.outbox[i]);
  }
}
