/** How the shipments of the shipment service end: what a shipment has sent, what it has
    been answered and which of the answers have reached it. */
module Endings {
  import opened Domain
  import opened Events
  import opened InventoryRules
  import opened StockInvariant
  import opened Effects
  import opened Talk
  import opened System
  import opened SystemLogs
  import opened Fulfilment
  import opened Agreement
  import opened Saga
  import AgreementKept
  import SagaKept
  import SagaRuns
  import R = ReservationRules
  import S = ShipmentRules

  // ----- what is sent and answered -----

  predicate IsRecall(log: seq<Event>, k: nat, id: Uuid, r: Uuid) {
    k < |log| && log[k].ReservationCancellationRequested? && log[k].requester == Some(id) && log[k].reservation == r
  }

  predicate IsRefusal(log: seq<Event>, i: nat, id: Uuid, r: Uuid) {
    i < |log| && log[i].ShipmentRejected? && log[i].shipment == id && log[i].reservation == r
  }

  predicate IsAnswer(log: seq<Event>, i: nat, id: Uuid, r: Uuid) {
    || IsRefusal(log, i, id, r)
    || (i < |log| && log[i].StockShipped? && log[i].shipment == id && log[i].reservation == r)
  }

  /** The reservation was cancelled or expired. */
  predicate IsClosing(log: seq<Event>, i: nat, r: Uuid) {
    i < |log| && (log[i].StockReservationCancelled? || log[i].ReservationExpired?) && log[i].reservation == r
  }

  ghost predicate HasAsked(log: seq<Event>, id: Uuid, r: Uuid) {
    exists j: nat :: IsRequest(log, j, id, r)
  }

  ghost predicate HasRecalled(log: seq<Event>, id: Uuid, r: Uuid) {
    exists k: nat :: IsRecall(log, k, id, r)
  }

  ghost predicate IsAnswered(log: seq<Event>, id: Uuid, r: Uuid) {
    exists i: nat :: IsAnswer(log, i, id, r)
  }

  /** The shipment service has processed the refusal of the shipment. */
  ghost predicate RefusalHeard(s: Sys, id: Uuid, r: Uuid) {
    exists i: nat :: IsRefusal(s.inv.outbox, i, id, r) && Done(s, Shipments, Inventory, i)
  }

  /** The shipment service has processed the end of the reservation. */
  ghost predicate ClosingHeard(s: Sys, r: Uuid) {
    exists i: nat :: IsClosing(s.inv.outbox, i, r) && Done(s, Shipments, Inventory, i)
  }

  // ----- the invariant -----

  /** Every status has its history. */
  ghost predicate RowEnds(s: Sys, id: Uuid)
    requires id in s.ship.rows
  {
    var x := s.ship.rows[id];
    && WasConfirmed(s.inv, x.reservation)
    && (x.status == ShippingRequested ==> HasAsked(s.ship.outbox, id, x.reservation))
    && (x.status == CancelPending ==> HasRecalled(s.ship.outbox, id, x.reservation))
    && (x.status == CancelPending && HasAsked(s.ship.outbox, id, x.reservation) ==> RefusalHeard(s, id, x.reservation))
    && (x.status == Failed ==> RefusalHeard(s, id, x.reservation))
    && (x.status == ShipmentCancelled ==> ClosingHeard(s, x.reservation))
  }

  /** An answer that has been processed has left its mark on the shipment. */
  ghost predicate AnswerTaken(s: Sys, i: nat)
    requires i < |s.inv.outbox|
  {
    var e := s.inv.outbox[i];
    (e.StockShipped? || e.ShipmentRejected?) && Done(s, Shipments, Inventory, i) ==>
      && e.shipment in s.ship.rows
      && !Unsent(s.ship.rows[e.shipment].status)
      && s.ship.rows[e.shipment].status != ShippingRequested
      && (e.StockShipped? ==> s.ship.rows[e.shipment].status == Shipped)
  }

  /** A command that the inventory has processed has been answered or has taken effect. */
  ghost predicate CommandTaken(s: Sys, j: nat)
    requires j < |s.ship.outbox|
  {
    var e := s.ship.outbox[j];
    Done(s, Inventory, Shipments, j) ==>
      && (e.ShipmentRequested? ==> IsAnswered(s.inv.outbox, e.shipment, e.reservation))
      && (e.ReservationCancellationRequested? ==> IsClosed(s.inv, e.reservation))
  }

  ghost predicate RefusedOnce(log: seq<Event>) {
    forall i, k | 0 <= i < k < |log| && log[i].ShipmentRejected? && log[k].ShipmentRejected? ::
        log[i].shipment != log[k].shipment
  }

  ghost predicate EndsOk(s: Sys) {
    && (forall id | id in s.ship.rows :: RowEnds(s, id))
    && (forall i: nat | i < |s.inv.outbox| :: AnswerTaken(s, i))
    && (forall j: nat | j < |s.ship.outbox| :: CommandTaken(s, j))
    && RefusedOnce(s.inv.outbox)
  }

  // ----- longer logs and more markers -----

  lemma HeardStays(s: Sys, t: Sys, id: Uuid, r: Uuid)
    requires s.inv.outbox <= t.inv.outbox && s.done <= t.done
    ensures RefusalHeard(s, id, r) ==> RefusalHeard(t, id, r)
    ensures ClosingHeard(s, r) ==> ClosingHeard(t, r)
    ensures IsAnswered(s.inv.outbox, id, r) ==> IsAnswered(t.inv.outbox, id, r)
  {
    if RefusalHeard(s, id, r) {
      var i: nat :| IsRefusal(s.inv.outbox, i, id, r) && Done(s, Shipments, Inventory, i);
      assert IsRefusal(t.inv.outbox, i, id, r) && Done(t, Shipments, Inventory, i);
    }
    if ClosingHeard(s, r) {
      var i: nat :| IsClosing(s.inv.outbox, i, r) && Done(s, Shipments, Inventory, i);
      assert IsClosing(t.inv.outbox, i, r) && Done(t, Shipments, Inventory, i);
    }
    if IsAnswered(s.inv.outbox, id, r) {
      var i: nat :| IsAnswer(s.inv.outbox, i, id, r);
      assert IsAnswer(t.inv.outbox, i, id, r);
    }
  }

  lemma SentStays(log: seq<Event>, more: seq<Event>, id: Uuid, r: Uuid)
    requires log <= more
    ensures HasAsked(log, id, r) ==> HasAsked(more, id, r)
    ensures HasRecalled(log, id, r) ==> HasRecalled(more, id, r)
  {
    if HasAsked(log, id, r) {
      var j: nat :| IsRequest(log, j, id, r);
      assert IsRequest(more, j, id, r);
    }
    if HasRecalled(log, id, r) {
      var k: nat :| IsRecall(log, k, id, r);
      assert IsRecall(more, k, id, r);
    }
  }

  /** A row that stays as it is, while logs and markers grow and the shipment asks for nothing new. */
  lemma RowStays(s: Sys, t: Sys, id: Uuid)
    requires id in s.ship.rows && RowEnds(s, id) && id in t.ship.rows && t.ship.rows[id] == s.ship.rows[id]
    requires Grows(s.inv, t.inv) && s.done <= t.done && s.ship.outbox <= t.ship.outbox
    requires HasAsked(t.ship.outbox, id, s.ship.rows[id].reservation) ==>
              HasAsked(s.ship.outbox, id, s.ship.rows[id].reservation)
    ensures RowEnds(t, id)
  {
    var r := s.ship.rows[id].reservation;
    assert SameBooking(s.inv.bookings[r], t.inv.bookings[r]);
    assert s.inv.outbox <= t.inv.outbox;
    HeardStays(s, t, id, r);
    SentStays(s.ship.outbox, t.ship.outbox, id, r);
    hide Grows, RefusalHeard, ClosingHeard, HasAsked, HasRecalled;
  }

  lemma CommandStays(s: Sys, t: Sys, j: nat)
    requires j < |s.ship.outbox| && CommandTaken(s, j) && Done(s, Inventory, Shipments, j)
    requires Grows(s.inv, t.inv) && s.done <= t.done && s.ship.outbox <= t.ship.outbox
    ensures CommandTaken(t, j)
  {
    var e := s.ship.outbox[j];
    assert s.inv.outbox <= t.inv.outbox;
    if e.ShipmentRequested? { HeardStays(s, t, e.shipment, e.reservation); }
    if e.ReservationCancellationRequested? { AgreementKept.ClosedStays(s.inv, t.inv, e.reservation); }
    hide Grows, IsAnswered;
  }

  // ----- the inventory moves -----

  /** The shipment service neither moves nor hears anything. */
  lemma EndsAfterMove(s: Sys, t: Sys)
    requires EndsOk(s) && MarksReal(s) && t.ship == s.ship && Grows(s.inv, t.inv) && s.done <= t.done
    requires forall i: nat :: Done(t, Shipments, Inventory, i) ==> Done(s, Shipments, Inventory, i)
    requires forall j: nat | j < |s.ship.outbox| && Done(t, Inventory, Shipments, j)
              && !Done(s, Inventory, Shipments, j) :: CommandTaken(t, j)
    requires RefusedOnce(t.inv.outbox)
    ensures EndsOk(t)
  {
    assert s.inv.outbox <= t.inv.outbox;
    hide Grows, RowEnds, RefusedOnce;
    forall id | id in t.ship.rows ensures RowEnds(t, id) { RowStays(s, t, id); }
    forall i: nat | i < |t.inv.outbox|
      ensures AnswerTaken(t, i)
    {
      if i < |s.inv.outbox| {
        assert AnswerTaken(s, i) && t.inv.outbox[i] == s.inv.outbox[i];
      } else {
        assert Mark(Shipments, Ref(Inventory, i)) !in s.done;
      }
    }
    forall j: nat | j < |t.ship.outbox|
      ensures CommandTaken(t, j)
    {
      if Done(s, Inventory, Shipments, j) { CommandStays(s, t, j); }
    }
  }

  lemma NoNewRefusal(db: Db, after: Db)
    requires RefusedOnce(db.outbox) && db.outbox <= after.outbox && SagaKept.CompletesNothing(db, after)
    ensures RefusedOnce(after.outbox)
  {
  }

  /** A transaction that is not a delivery. */
  lemma EndsAfterCommit(s: Sys, tr: Transaction, t: Sys)
    requires EndsOk(s) && MarksReal(s) && StockOk(s.inv) && !tr.Consuming? && t == s.(inv := Commit(s.inv, tr))
    ensures EndsOk(t)
  {
    TransactionEffect(s.inv, tr);
    SagaKept.OnlyRequestsComplete(s.inv, tr);
    assert s.inv.outbox <= t.inv.outbox;
    hide StockOk, Commit, MarksReal, Hushed, Announced, Declined, SagaKept.CompletesNothing, RefusedOnce, Grows;
    NoNewRefusal(s.inv, t.inv);
    EndsAfterMove(s, t);
  }

  /** A cancellation that goes through leaves its reservation closed. */
  lemma RecallTaken(db: Db, now: Time, e: Event, reply: Reply<Location>)
    requires StockOk(db) && e.ReservationCancellationRequested? && Handle(db, now, e, reply).Ok?
    ensures IsClosed(Handle(db, now, e, reply).value, e.reservation)
  {
    ReleaseEffect(db, e.reservation, false);
    hide StockOk, Release, Announced, Grows;
  }

  /** The event that shipped a completed reservation names its shipment. */
  lemma CompletedIsAnswered(db: Db, r: Uuid, id: Uuid)
    requires TalkOk(db) && Honoured(db) && ShippedBy(db, r, id)
    ensures exists i: nat :: IsAnswer(db.outbox, i, id, r) && db.outbox[i].StockShipped?
  {
    hide EventHonoured, TalkOk;
    var i, k := CompletedStory(db, r);
    assert db.outbox[i] in db.outbox;
    assert db.outbox[i].shipment == id by { ShippedNames(db, db.outbox[i]); }
    assert IsAnswer(db.outbox, i, id, r);
  }

  lemma ShippedNames(db: Db, e: Event)
    requires EventHonoured(db, e) && e.StockShipped?
    ensures e.reservation in db.bookings && db.bookings[e.reservation].shipment == Some(e.shipment)
  {
  }

  /** A request that is completed says so in its last event. */
  lemma AnnouncedAnswers(db: Db, after: Db, r: Uuid, id: Uuid, a: Event)
    requires Announced(db, after, r, a) && after.bookings[r].status == Completed
    requires after.bookings[r].shipment == Some(id)
    ensures IsAnswered(after.outbox, id, r)
    ensures db.outbox <= after.outbox && NoRefusal(db.outbox, after.outbox)
  {
    var n := |after.outbox| - 1;
    assert after.outbox[n] == a && a.StockShipped?;
    assert IsAnswer(after.outbox, n, id, r);
    assert db.outbox <= after.outbox[..n] <= after.outbox;
    forall i | |db.outbox| <= i < |after.outbox|
      ensures !after.outbox[i].ShipmentRejected?
    {
      if i < n { assert Silent(after.outbox[..n][i]); }
    }
  }

  predicate NoRefusal(log: seq<Event>, longer: seq<Event>) {
    forall i | |log| <= i < |longer| :: !longer[i].ShipmentRejected?
  }

  lemma DeclinedAnswers(db: Db, after: Db, r: Uuid, id: Uuid)
    requires Declined(db, after, r, id)
    ensures IsAnswered(after.outbox, id, r)
    ensures |after.outbox| == |db.outbox| + 1 && db.outbox <= after.outbox
              && after.outbox[|db.outbox|].ShipmentRejected? && after.outbox[|db.outbox|].shipment == id
  {
    assert IsAnswer(after.outbox, |db.outbox|, id, r);
  }

  /** A shipment whose request is being processed for the first time has not been refused yet. */
  lemma NotYetRefused(s: Sys, j: nat, id: Uuid, r: Uuid)
    requires ShipmentsOk(s) && AnswersOk(s) && IsRequest(s.ship.outbox, j, id, r) && !Done(s, Inventory, Shipments, j)
    ensures forall e | e in s.inv.outbox && e.ShipmentRejected? :: e.shipment != id
  {
    hide ShipmentsOk;
    forall e | e in s.inv.outbox && e.ShipmentRejected?
      ensures e.shipment != id
    {
      assert RefusalFinal(s, e);
      var k: nat :| IsRequest(s.ship.outbox, k, e.shipment, e.reservation) && Done(s, Inventory, Shipments, k);
      if e.shipment == id {
        RequestOf(s, j, id, r);
        RequestOf(s, k, id, e.reservation);
        SameRequest(s, j, k, id, id, r);
        assert false;
      }
    }
  }

  lemma RequestTaken(s: Sys, j: nat, reply: Reply<Location>, t: Sys)
    requires TalkOk(s.inv) && SagaOk(s) && StockOk(s.inv) && RefusedOnce(s.inv.outbox) && j < |s.ship.outbox|
    requires !Done(s, Inventory, Shipments, j)
    requires var e := s.ship.outbox[j];
             e.ShipmentRequested? && var o := InventoryRules.Handle(s.inv, s.now, e, reply); o.Ok? && t.inv == o.value
    ensures IsAnswered(t.inv.outbox, s.ship.outbox[j].shipment, s.ship.outbox[j].reservation)
    ensures RefusedOnce(t.inv.outbox)
  {
    var e := s.ship.outbox[j];
    var r, id := e.reservation, e.shipment;
    assert Honoured(s.inv) && AnswersOk(s) && ShipmentsOk(s);
    assert IsRequest(s.ship.outbox, j, id, r);
    NotYetRefused(s, j, id, r);
    ShipmentEffect(s.inv, s.now, e, reply);
    hide TalkOk, Honoured, StockOk, InventoryRules.Handle, SagaOk, ShipmentsOk, AnswersOk, Announced, Declined;
    hide IsAnswered, Grows;
    if t.inv == s.inv && ShippedBy(s.inv, r, id) {
      CompletedIsAnswered(s.inv, r, id);
      var i: nat :| IsAnswer(s.inv.outbox, i, id, r);
      assert IsAnswered(t.inv.outbox, id, r) by { Answered(t.inv.outbox, i, id, r); }
    } else if exists a ::
        Announced(s.inv, t.inv, r, a) && t.inv.bookings[r].status == Completed
        && t.inv.bookings[r].shipment == Some(id) {
      var a :| Announced(s.inv, t.inv, r, a) && t.inv.bookings[r].status == Completed
          && t.inv.bookings[r].shipment == Some(id);
      AnnouncedAnswers(s.inv, t.inv, r, id, a);
    } else {
      DeclinedAnswers(s.inv, t.inv, r, id);
      forall i | 0 <= i < |s.inv.outbox| && t.inv.outbox[i].ShipmentRejected?
        ensures t.inv.outbox[i].shipment != id
      {
        assert t.inv.outbox[i] == s.inv.outbox[i] && s.inv.outbox[i] in s.inv.outbox;
      }
    }
  }

  lemma Answered(log: seq<Event>, i: nat, id: Uuid, r: Uuid)
    requires IsAnswer(log, i, id, r)
    ensures IsAnswered(log, id, r)
  {
  }

  /** What the processed command has come to. */
  lemma ConsumedTaken(s: Sys, ref: Ref, reply: Reply<Location>, t: Sys)
    requires Agree(s) && SagaOk(s) && RefusedOnce(s.inv.outbox) && StockOk(s.inv)
    requires ref.index < |Log(s, ref.source)| && Mark(Inventory, ref) !in s.done
    requires var o := InventoryRules.Handle(s.inv, s.now, Log(s, ref.source)[ref.index], reply);
             o.Ok? && t == s.(inv := o.value, done := s.done + {Mark(Inventory, ref)})
    ensures RefusedOnce(t.inv.outbox)
    ensures var e := Log(s, ref.source)[ref.index];
            && (e.ShipmentRequested? ==> IsAnswered(t.inv.outbox, e.shipment, e.reservation))
            && (e.ReservationCancellationRequested? ==> IsClosed(t.inv, e.reservation))
  {
    var e := Log(s, ref.source)[ref.index];
    var tr := Consuming(s.now, e, reply);
    assert Typed(s) && TalkOk(s.inv) && Commit(s.inv, tr) == t.inv;
    AgreementKept.TypedOne(s, ref.source, e);
    hide Agree, Typed, TalkOk, SagaOk, StockOk, Commit, InventoryRules.Handle, RefusedOnce;
    hide SagaKept.CompletesNothing, IsAnswered;
    if e.ShipmentRequested? {
      RequestTaken(s, ref.index, reply, t);
    } else {
      SagaKept.OnlyRequestsComplete(s.inv, tr);
      assert s.inv.outbox <= t.inv.outbox by { LogGrows(s.inv, tr); }
      NoNewRefusal(s.inv, t.inv);
      if e.ReservationCancellationRequested? { RecallTaken(s.inv, s.now, e, reply); }
    }
  }

  lemma LogGrows(db: Db, tr: Transaction)
    requires StockOk(db)
    ensures db.outbox <= Commit(db, tr).outbox
  {
    TransactionEffect(db, tr);
    hide StockOk, Commit, Hushed, Announced, Declined;
  }

  /** The inventory consumes an event. */
  lemma EndsAfterConsumed(s: Sys, ref: Ref, reply: Reply<Location>, t: Sys)
    requires Agree(s) && SagaOk(s) && EndsOk(s) && StockOk(s.inv)
    requires ref.index < |Log(s, ref.source)| && Mark(Inventory, ref) !in s.done
    requires var o := InventoryRules.Handle(s.inv, s.now, Log(s, ref.source)[ref.index], reply);
             o.Ok? && t == s.(inv := o.value, done := s.done + {Mark(Inventory, ref)})
    ensures EndsOk(t)
  {
    var tr := Consuming(s.now, Log(s, ref.source)[ref.index], reply);
    assert MarksReal(s) && Commit(s.inv, tr) == t.inv && RefusedOnce(s.inv.outbox);
    TransactionEffect(s.inv, tr);
    hide Agree, MarksReal, SagaOk, StockOk, Commit, InventoryRules.Handle, EndsOk, Grows, RefusedOnce, Hushed;
    hide Announced, Declined, IsAnswered;
    ConsumedTaken(s, ref, reply, t);
    EndsAfterMove(s, t);
  }

  // ----- the shipment service moves -----

  lemma EndsAfterClaim(s: Sys, r: Uuid, seen: Reply<R.Reservation>, id: Uuid, t: Sys)
    requires EndsOk(s) && MarksReal(s) && LookupsOk(s) && Recognised(s, r, seen)
    requires var o := S.Create(s.ship, r, seen, id); o.Ok? && t == s.(ship := o.value)
    ensures EndsOk(t)
  {
    GrowsReflexive(s.inv);
    assert AnswerTrue(s, (r, seen.value));
    hide Grows, LookupsOk, RefusedOnce, S.Claimed;
    var n := |s.ship.outbox|;
    forall x | x in t.ship.rows
      ensures RowEnds(t, x)
    {
      if x != id {
        if HasAsked(t.ship.outbox, x, s.ship.rows[x].reservation) {
          var j: nat :| IsRequest(t.ship.outbox, j, x, s.ship.rows[x].reservation);
          assert IsRequest(s.ship.outbox, j, x, s.ship.rows[x].reservation);
        }
        RowStays(s, t, x);
      }
    }
    forall i: nat | i < |t.inv.outbox| ensures AnswerTaken(t, i) { assert AnswerTaken(s, i); }
    forall j: nat | j < |t.ship.outbox|
      ensures CommandTaken(t, j)
    {
      if j < n { assert CommandTaken(s, j) && t.ship.outbox[j] == s.ship.outbox[j]; }
    }
  }

  /** What an action sends besides the status event. */
  function Sent(x: S.Shipment, id: Uuid, action: S.Action, status: ShipmentStatus): seq<Event> {
    match action
    case ShipOut => [ShipmentRequested(id, x.warehouse, x.reservation), ShipmentStatusChanged(id, x.warehouse, status)]
    case CancelShipment =>
      [ReservationCancellationRequested(x.reservation, x.warehouse, Some(id)),
          ShipmentStatusChanged(id, x.warehouse, status)]
    case _ => [ShipmentStatusChanged(id, x.warehouse, status)]
  }

  lemma AdvanceIs(st: S.Store, id: Uuid, action: S.Action)
    requires S.Transition(st, id, action).Ok?
    ensures id in st.rows && S.Target(st.rows[id].status, action).Some?
    ensures var x := st.rows[id];
            var status := S.Target(x.status, action).value;
            S.Transition(st, id, action).value
                == S.Store(st.rows[id := x.(status := status)], st.outbox + Sent(x, id, action, status))
  {
  }

  /** Only shipping out asks, and only cancelling takes back. */
  lemma SentIs(log: seq<Event>, x: S.Shipment, id: Uuid, action: S.Action, status: ShipmentStatus, y: Uuid, r: Uuid)
    ensures var more := log + Sent(x, id, action, status);
            && (HasAsked(more, y, r) <==> HasAsked(log, y, r) || (action == S.ShipOut && y == id && r == x.reservation))
            && (action == S.CancelShipment ==> HasRecalled(more, id, x.reservation))
  {
    var more := log + Sent(x, id, action, status);
    SentStays(log, more, y, r);
    if HasAsked(more, y, r) {
      var j: nat :| IsRequest(more, j, y, r);
      if j < |log| { assert IsRequest(log, j, y, r); }
    }
    assert more[|log|] == Sent(x, id, action, status)[0];
    if action == S.ShipOut && y == id && r == x.reservation { assert IsRequest(more, |log|, y, r); }
    if action == S.CancelShipment { assert IsRecall(more, |log|, id, x.reservation); }
  }

  /** A shipment that has not asked or has been refused. */
  lemma MayRecall(s: Sys, id: Uuid)
    requires ShipmentsOk(s) && EndsOk(s) && id in s.ship.rows
    requires S.Target(s.ship.rows[id].status, S.CancelShipment).Some?
    requires HasAsked(s.ship.outbox, id, s.ship.rows[id].reservation)
    ensures RefusalHeard(s, id, s.ship.rows[id].reservation)
  {
    var r := s.ship.rows[id].reservation;
    var j: nat :| IsRequest(s.ship.outbox, j, id, r);
    RequestOf(s, j, id, r);
    assert RowEnds(s, id);
  }

  lemma EndsAfterAdvance(s: Sys, id: Uuid, action: S.Action, t: Sys)
    requires EndsOk(s) && MarksReal(s) && ShipmentsOk(s)
    requires S.Transition(s.ship, id, action).Ok? && t == s.(ship := S.Transition(s.ship, id, action).value)
    ensures EndsOk(t)
  {
    hide ShipmentsOk, Grows, S.Transition, RefusedOnce, HasAsked, HasRecalled, RefusalHeard, ClosingHeard;
    AdvanceIs(s.ship, id, action);
    GrowsReflexive(s.inv);
    var x := s.ship.rows[id];
    var status := S.Target(x.status, action).value;
    assert RowEnds(s, id);
    if action == S.CancelShipment && HasAsked(s.ship.outbox, id, x.reservation) { MayRecall(s, id); }
    forall y | y in t.ship.rows
      ensures RowEnds(t, y)
    {
      SentIs(s.ship.outbox, x, id, action, status, y, s.ship.rows[y].reservation);
      if y != id { RowStays(s, t, y); } else { HeardStays(s, t, id, x.reservation); }
    }
    forall i: nat | i < |t.inv.outbox| ensures AnswerTaken(t, i) { assert AnswerTaken(s, i); }
    hide RowEnds, IsAnswered;
    forall j: nat | j < |t.ship.outbox|
      ensures CommandTaken(t, j)
    {
      if j < |s.ship.outbox| {
        assert CommandTaken(s, j) && t.ship.outbox[j] == s.ship.outbox[j];
      } else {
        NotDone(s, j);
      }
    }
  }

  lemma NotDone(s: Sys, j: nat)
    requires MarksReal(s) && j >= |s.ship.outbox|
    ensures !Done(s, Inventory, Shipments, j)
  {
  }

  // ----- the shipment service consumes an event -----

  lemma Commands(s: Sys, t: Sys)
    requires EndsOk(s) && MarksReal(s) && t.inv == s.inv && s.ship.outbox <= t.ship.outbox && s.done <= t.done
    requires forall j: nat :: Done(t, Inventory, Shipments, j) ==> Done(s, Inventory, Shipments, j)
    ensures forall j: nat | j < |t.ship.outbox| :: CommandTaken(t, j)
  {
    hide IsAnswered;
    forall j: nat | j < |t.ship.outbox|
      ensures CommandTaken(t, j)
    {
      if j < |s.ship.outbox| { assert CommandTaken(s, j); } else { NotDone(s, j); }
    }
  }

  /** A row of another shipment, while one is reported as completed. */
  lemma OtherRow(s: Sys, e: Event, t: Sys, y: Uuid)
    requires y in s.ship.rows && RowEnds(s, y) && y in t.ship.rows && t.ship.rows[y] == s.ship.rows[y]
    requires t.inv == s.inv && s.done <= t.done && !e.ShipmentRequested?
    requires t.ship.outbox == s.ship.outbox || t.ship.outbox == s.ship.outbox + [e]
    ensures RowEnds(t, y)
  {
    GrowsReflexive(s.inv);
    var r := s.ship.rows[y].reservation;
    if HasAsked(t.ship.outbox, y, r) {
      var j: nat :| IsRequest(t.ship.outbox, j, y, r);
      assert IsRequest(s.ship.outbox, j, y, r);
    }
    hide Grows, RowEnds, HasAsked;
    RowStays(s, t, y);
  }

  lemma ShippedIs(st: S.Store, e: Event)
    requires e.StockShipped? && S.Handle(st, e).Ok?
    ensures e.shipment in st.rows
    ensures var x, after := st.rows[e.shipment], S.Handle(st, e).value;
            && after.rows == st.rows[e.shipment := x.(status := Shipped)]
            && (after.outbox == st.outbox || after.outbox == st.outbox
                + [ShipmentCompleted(e.shipment, x.warehouse, x.reservation, x.items)])
  {
  }

  lemma EndsAfterShipped(s: Sys, i: nat, t: Sys)
    requires TalkOk(s.inv) && SagaOk(s) && EndsOk(s) && MarksReal(s) && i < |s.inv.outbox|
    requires s.inv.outbox[i].StockShipped?
    requires var o := S.Handle(s.ship, s.inv.outbox[i]);
             o.Ok? && t == s.(ship := o.value, done := s.done + {Mark(Shipments, Ref(Inventory, i))})
    ensures EndsOk(t)
  {
    hide S.Handle, TalkOk, SagaOk, MarksReal, RefusedOnce, CommandTaken, RowEnds;
    var e := s.inv.outbox[i];
    ShippedIs(s.ship, e);
    var x := s.ship.rows[e.shipment];
    Commands(s, t);
    forall y | y in t.ship.rows
      ensures RowEnds(t, y)
    {
      if y != e.shipment {
        OtherRow(s, ShipmentCompleted(e.shipment, x.warehouse, x.reservation, x.items), t, y);
      } else {
        ShippedRow(s, t, y);
      }
    }
    ShippedAnswers(s, i, t);
  }

  lemma ShippedRow(s: Sys, t: Sys, y: Uuid)
    requires y in s.ship.rows && RowEnds(s, y) && y in t.ship.rows
    requires t.ship.rows[y] == s.ship.rows[y].(status := Shipped)
    requires t.inv == s.inv
    ensures RowEnds(t, y)
  {
  }

  /** Nothing that was heard before is undone. */
  lemma ShippedAnswers(s: Sys, i: nat, t: Sys)
    requires i < |s.inv.outbox| && s.inv.outbox[i].StockShipped? && t.inv == s.inv
    requires t.done == s.done + {Mark(Shipments, Ref(Inventory, i))}
    requires var id := s.inv.outbox[i].shipment;
              id in s.ship.rows && t.ship.rows == s.ship.rows[id := s.ship.rows[id].(status := Shipped)]
    requires forall k: nat | k < |s.inv.outbox| :: AnswerTaken(s, k)
    ensures forall k: nat | k < |t.inv.outbox| :: AnswerTaken(t, k)
  {
    forall k: nat | k < |t.inv.outbox| ensures AnswerTaken(t, k) { assert AnswerTaken(s, k); }
  }

  /** The row of the shipment that the event ends. */
  lemma EndedRow(s: Sys, i: nat, t: Sys, y: Uuid)
    requires TalkOk(s.inv) && SagaOk(s) && i < |s.inv.outbox|
    requires var e := s.inv.outbox[i]; e.ShipmentRejected? || e.StockReservationCancelled? || e.ReservationExpired?
    requires t == s.(ship := s.ship.(rows := S.EndAll(s.ship.rows, s.inv.outbox[i])),
              done := s.done + {Mark(Shipments, Ref(Inventory, i))})
    requires y in s.ship.rows && RowEnds(s, y)
    ensures RowEnds(t, y)
  {
    var e, x := s.inv.outbox[i], s.ship.rows[y];
    assert e in s.inv.outbox;
    GrowsReflexive(s.inv);
    if t.ship.rows[y] == x {
      hide TalkOk, SagaOk, Grows, RowEnds;
      RowStays(s, t, y);
    } else {
      SagaRuns.EndFacts(s, e, y);
      hide TalkOk, SagaOk, Grows;
      if e.ShipmentRejected? {
        assert IsRefusal(t.inv.outbox, i, y, x.reservation) && Done(t, Shipments, Inventory, i);
      } else {
        assert IsClosing(t.inv.outbox, i, x.reservation) && Done(t, Shipments, Inventory, i);
      }
    }
  }

  /** A refused shipment has its row, and the refusal ends it unless it has been shipped. */
  lemma RefusedRow(s: Sys, i: nat)
    requires SagaOk(s) && i < |s.inv.outbox| && s.inv.outbox[i].ShipmentRejected?
    ensures var e := s.inv.outbox[i]; e.shipment in s.ship.rows && s.ship.rows[e.shipment].reservation == e.reservation
  {
    var e := s.inv.outbox[i];
    assert e in s.inv.outbox;
    assert RefusalFinal(s, e);
    var j: nat :| IsRequest(s.ship.outbox, j, e.shipment, e.reservation);
    RequestOf(s, j, e.shipment, e.reservation);
  }

  lemma EndedAnswers(s: Sys, i: nat, t: Sys)
    requires i < |s.inv.outbox| && t.inv == s.inv && t.done == s.done + {Mark(Shipments, Ref(Inventory, i))}
    requires var e := s.inv.outbox[i];
             && (e.ShipmentRejected? || e.StockReservationCancelled? || e.ReservationExpired?)
             && t.ship.rows == S.EndAll(s.ship.rows, e)
             && (e.ShipmentRejected? ==>
                 e.shipment in s.ship.rows && s.ship.rows[e.shipment].reservation == e.reservation)
    requires forall k: nat | k < |s.inv.outbox| :: AnswerTaken(s, k)
    ensures forall k: nat | k < |t.inv.outbox| :: AnswerTaken(t, k)
  {
    forall k: nat | k < |t.inv.outbox| ensures AnswerTaken(t, k) { assert AnswerTaken(s, k); }
  }

  lemma EndsAfterEnd(s: Sys, i: nat, t: Sys)
    requires TalkOk(s.inv) && SagaOk(s) && EndsOk(s) && MarksReal(s) && i < |s.inv.outbox|
    requires var e := s.inv.outbox[i]; e.ShipmentRejected? || e.StockReservationCancelled? || e.ReservationExpired?
    requires t == s.(ship := s.ship.(rows := S.EndAll(s.ship.rows, s.inv.outbox[i])),
              done := s.done + {Mark(Shipments, Ref(Inventory, i))})
    ensures EndsOk(t)
  {
    hide TalkOk, SagaOk, MarksReal, RefusedOnce, CommandTaken, AnswerTaken, RowEnds;
    if s.inv.outbox[i].ShipmentRejected? { RefusedRow(s, i); }
    Commands(s, t);
    EndedAnswers(s, i, t);
    forall y | y in t.ship.rows ensures RowEnds(t, y) { EndedRow(s, i, t, y); }
  }

  lemma EndsAfterHeard(s: Sys, ref: Ref, t: Sys)
    requires Agree(s) && SagaOk(s) && EndsOk(s) && ref.index < |Log(s, ref.source)|
    requires var o := S.Handle(s.ship, Log(s, ref.source)[ref.index]);
             o.Ok? && t == s.(ship := o.value, done := s.done + {Mark(Shipments, ref)})
    ensures EndsOk(t)
  {
    var e := Log(s, ref.source)[ref.index];
    assert Typed(s) && TalkOk(s.inv) && MarksReal(s);
    AgreementKept.TypedOne(s, ref.source, e);
    hide Agree, SagaOk, EndsOk, Typed, TalkOk, MarksReal;
    if e.StockShipped? {
      EndsAfterShipped(s, ref.index, t);
    } else if e.ShipmentRejected? || e.StockReservationCancelled? || e.ReservationExpired? {
      EndsAfterEnd(s, ref.index, t);
    } else {
      EndsAfterOther(s, ref, t);
    }
  }

  /** An event that is none of the shipment service's business. */
  lemma EndsAfterOther(s: Sys, ref: Ref, t: Sys)
    requires EndsOk(s) && MarksReal(s) && ref.index < |Log(s, ref.source)|
    requires var e := Log(s, ref.source)[ref.index];
             !e.StockShipped? && !e.ShipmentRejected?
    requires t == s.(done := s.done + {Mark(Shipments, ref)})
    ensures EndsOk(t)
  {
    GrowsReflexive(s.inv);
    Commands(s, t);
    hide Grows, RefusedOnce, CommandTaken, RowEnds;
    forall y | y in t.ship.rows ensures RowEnds(t, y) { RowStays(s, t, y); }
    forall k: nat | k < |t.inv.outbox| ensures AnswerTaken(t, k) { assert AnswerTaken(s, k); }
  }
}
